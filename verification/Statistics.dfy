/** DBusStatistics and GetAsString (dbus/dbus_statistics.cc): counters in an ordered map, and a one-pass loop with
    running totals that must equal a plain group-by over the calls counted. */
module Statistics {

  // ----- keys and their order -----

  datatype StatKey = StatKey(service: string, interface: string, name: string)

  predicate LessString(a: string, b: string) {
    if b == [] then false
    else if a == [] then true
    else if a[0] != b[0] then a[0] < b[0]
    else LessString(a[1..], b[1..])
  }

  /** operator< on StatKey: service, then interface, then method. */
  predicate Less(a: StatKey, b: StatKey) {
    || LessString(a.service, b.service)
    || (a.service == b.service && (|| LessString(a.interface, b.interface)
                                   || (a.interface == b.interface && LessString(a.name, b.name))))
  }

  lemma {:induction false} LessStringTotal(a: string, b: string)
    ensures a == b || LessString(a, b) || LessString(b, a)
    ensures !LessString(a, a)
  {
    if a != [] && b != [] {
      LessStringTotal(a[1..], b[1..]);
      if a[0] == b[0] && a[1..] == b[1..] {
        assert a == [a[0]] + a[1..] && b == [b[0]] + b[1..];
      }
    } else if a != [] {
      LessStringTotal(a[1..], b);
    }
  }

  /** The order of strings: a proper beginning comes first, otherwise the first difference decides. */
  lemma {:induction false} LessStringIs(a: string, b: string)
    ensures LessString(a, b) <==> a < b || exists i :: DiffersBelow(a, b, i)
  {
    if a != [] && b != [] && a[0] == b[0] {
      LessStringIs(a[1..], b[1..]);
      assert a == [a[0]] + a[1..] && b == [b[0]] + b[1..];
      if i :| DiffersBelow(a, b, i) { assert DiffersBelow(a[1..], b[1..], i - 1); }
      if i :| DiffersBelow(a[1..], b[1..], i) { assert DiffersBelow(a, b, i + 1); }
    } else if a != [] && b != [] {
      if a[0] < b[0] { assert DiffersBelow(a, b, 0); }
    }
  }

  ghost predicate DiffersBelow(a: string, b: string, i: int) {
    0 <= i < |a| && i < |b| && a[i] < b[i] && forall j | 0 <= j < i :: a[j] == b[j]
  }

  lemma {:induction false} LessStringTransitive(a: string, b: string, c: string)
    requires LessString(a, b) && LessString(b, c)
    ensures LessString(a, c)
  {
    if a != [] && a[0] == b[0] == c[0] { LessStringTransitive(a[1..], b[1..], c[1..]); }
  }

  lemma LessTotal(a: StatKey, b: StatKey)
    ensures a == b || Less(a, b) || Less(b, a)
    ensures !Less(a, a)
  {
    LessStringTotal(a.service, b.service);
    LessStringTotal(a.interface, b.interface);
    LessStringTotal(a.name, b.name);
  }

  lemma LessTransitive(a: StatKey, b: StatKey, c: StatKey)
    requires Less(a, b) && Less(b, c)
    ensures Less(a, c)
  {
    if LessString(a.service, b.service) && LessString(b.service, c.service) {
      LessStringTransitive(a.service, b.service, c.service);
    }
    if LessString(a.interface, b.interface) && LessString(b.interface, c.interface) {
      LessStringTransitive(a.interface, b.interface, c.interface);
    }
    if LessString(a.name, b.name) && LessString(b.name, c.name) {
      LessStringTransitive(a.name, b.name, c.name);
    }
  }

  // ----- display levels -----

  datatype Show = ShowService | ShowInterface | ShowMethod

  /** The group a key belongs to at a display level. */
  function Group(show: Show, k: StatKey): StatKey {
    match show
    case ShowService => StatKey(k.service, "", "")
    case ShowInterface => StatKey(k.service, k.interface, "")
    case ShowMethod => k
  }

  /** Two calls share a line if they share the service, from ShowInterface on the interface, and at ShowMethod the
      method. */
  lemma GroupIs(show: Show, a: StatKey, b: StatKey)
    ensures Group(show, a) == Group(show, b) <==>
              && a.service == b.service && (!show.ShowService? ==> a.interface == b.interface)
              && (show.ShowMethod? ==> a.name == b.name)
  {}

  lemma GroupsInKeyOrder(show: Show, a: StatKey, b: StatKey)
    requires Less(a, b)
    ensures Group(show, a) == Group(show, b) || Less(Group(show, a), Group(show, b))
  {}

  // ----- counters -----

  datatype Kind = Sent | Received | Blocking

  datatype Counts = Counts(sent: int, received: int, blocking: int)

  function Amount(c: Counts, k: Kind): int {
    match k case Sent => c.sent case Received => c.received case Blocking => c.blocking
  }

  datatype Entry = Entry(key: StatKey, counts: Counts)

  datatype Call = Call(key: StatKey, kind: Kind)

  ghost predicate Sorted(stats: seq<Entry>) { forall i, j | 0 <= i < j < |stats| :: Less(stats[i].key, stats[j].key) }

  /** An entry counts at least one call. */
  ghost predicate Positive(c: Counts) {
    c.sent >= 0 && c.received >= 0 && c.blocking >= 0 && (c.sent > 0 || c.received > 0 || c.blocking > 0)
  }

  /** The sum of one kind in a group over entries, and over calls. */
  function SumOf(stats: seq<Entry>, show: Show, g: StatKey, k: Kind): int {
    if stats == [] then 0
    else
      var e := stats[|stats| - 1];
      SumOf(stats[..|stats| - 1], show, g, k) + (if Group(show, e.key) == g then Amount(e.counts, k) else 0)
  }

  function CountOf(calls: seq<Call>, show: Show, g: StatKey, k: Kind): nat {
    if calls == [] then 0
    else
      var c := calls[|calls| - 1];
      CountOf(calls[..|calls| - 1], show, g, k) + (if Group(show, c.key) == g && c.kind == k then 1 else 0)
  }

  /** The sum of one kind over all entries, and the number of calls of that kind. */
  function TotalOf(stats: seq<Entry>, k: Kind): int {
    if stats == [] then 0 else TotalOf(stats[..|stats| - 1], k) + Amount(stats[|stats| - 1].counts, k)
  }

  function Tally(calls: seq<Call>, k: Kind): nat {
    if calls == [] then 0 else Tally(calls[..|calls| - 1], k) + (if calls[|calls| - 1].kind == k then 1 else 0)
  }

  lemma {:induction false} SumOfConcat(a: seq<Entry>, b: seq<Entry>, show: Show, g: StatKey, k: Kind)
    ensures SumOf(a + b, show, g, k) == SumOf(a, show, g, k) + SumOf(b, show, g, k)
    ensures TotalOf(a + b, k) == TotalOf(a, k) + TotalOf(b, k)
  {
    if b == [] {
      assert a + b == a;
    } else {
      var n := |b| - 1;
      assert (a + b)[..|a| + n] == a + b[..n];
      SumOfConcat(a, b[..n], show, g, k);
    }
  }

  lemma SumOfOne(e: Entry, show: Show, g: StatKey, k: Kind)
    ensures SumOf([e], show, g, k) == if Group(show, e.key) == g then Amount(e.counts, k) else 0
    ensures TotalOf([e], k) == Amount(e.counts, k)
  {
    assert [e][..0] == [];
  }

  lemma {:induction false} SumOfNone(stats: seq<Entry>, show: Show, g: StatKey, k: Kind)
    requires forall i | 0 <= i < |stats| :: Group(show, stats[i].key) != g
    ensures SumOf(stats, show, g, k) == 0
  {
    if stats != [] { SumOfNone(stats[..|stats| - 1], show, g, k); }
  }

  // ----- the statistics object -----

  ghost predicate Exact(stats: seq<Entry>, calls: seq<Call>) {
    && Sorted(stats)
    && (forall i | 0 <= i < |stats| :: Positive(stats[i].counts))
    && (forall show, g, k :: SumOf(stats, show, g, k) == CountOf(calls, show, g, k))
    && (forall k :: TotalOf(stats, k) == Tally(calls, k))
  }

  function Bump(c: Counts, kind: Kind): Counts {
    match kind
    case Sent => c.(sent := c.sent + 1)
    case Received => c.(received := c.received + 1)
    case Blocking => c.(blocking := c.blocking + 1)
  }

  class DBusStatistics {
    const originThread: int
    var stats: seq<Entry>              // the ordered map, in key order
    ghost var counted: seq<Call>       // the calls counted since construction

    ghost predicate Valid() reads this { Exact(stats, counted) }

    constructor (thread: int)
      ensures Valid() && originThread == thread && counted == []
    {
      originThread, stats, counted := thread, [], [];
    }

    /** Calls from another thread are ignored. */
    method AddStat(thread: int, key: StatKey, kind: Kind)
      requires Valid()
      modifies this
      ensures Valid()
      ensures counted == if thread == originThread then old(counted) + [Call(key, kind)] else old(counted)
    {
      if thread != originThread {
        return;
      }
      var i := 0;
      while i < |stats| && Less(stats[i].key, key)
        invariant 0 <= i <= |stats|
        invariant forall j | 0 <= j < i :: Less(stats[j].key, key)
      {
        i := i + 1;
      }
      if i < |stats| && stats[i].key == key {
        IncrementKeepsExact(stats, i, kind, counted);
        stats := stats[..i] + [Entry(key, Bump(stats[i].counts, kind))] + stats[i + 1..];
      } else {
        InsertKeepsExact(stats, i, key, kind, counted);
        stats := stats[..i] + [Entry(key, Bump(Counts(0, 0, 0), kind))] + stats[i..];
      }
      counted := counted + [Call(key, kind)];
    }
  }

  lemma CallsAppend(calls: seq<Call>, c: Call, show: Show, g: StatKey, k: Kind)
    ensures CountOf(calls + [c], show, g, k)
         == CountOf(calls, show, g, k) + (if Group(show, c.key) == g && c.kind == k then 1 else 0)
    ensures Tally(calls + [c], k) == Tally(calls, k) + (if c.kind == k then 1 else 0)
  {
    assert (calls + [c])[..|calls|] == calls;
  }

  lemma SumOfThree(a: seq<Entry>, e: Entry, c: seq<Entry>, show: Show, g: StatKey, k: Kind)
    ensures SumOf(a + [e] + c, show, g, k)
         == SumOf(a, show, g, k) + (if Group(show, e.key) == g then Amount(e.counts, k) else 0) + SumOf(c, show, g, k)
    ensures TotalOf(a + [e] + c, k) == TotalOf(a, k) + Amount(e.counts, k) + TotalOf(c, k)
  {
    SumOfConcat(a, [e], show, g, k);
    SumOfConcat(a + [e], c, show, g, k);
    SumOfOne(e, show, g, k);
  }

  lemma IncrementKeepsExact(stats: seq<Entry>, i: nat, kind: Kind, calls: seq<Call>)
    requires Exact(stats, calls) && i < |stats|
    ensures var e := stats[i];
            Exact(stats[..i] + [Entry(e.key, Bump(e.counts, kind))] + stats[i + 1..], calls + [Call(e.key, kind)])
  {
    var e := stats[i];
    var e' := Entry(e.key, Bump(e.counts, kind));
    var stats' := stats[..i] + [e'] + stats[i + 1..];
    var calls' := calls + [Call(e.key, kind)];
    assert stats == stats[..i] + [e] + stats[i + 1..];
    forall show, g, k
      ensures SumOf(stats', show, g, k) == CountOf(calls', show, g, k) && TotalOf(stats', k) == Tally(calls', k)
    {
      assert SumOf(stats, show, g, k) == CountOf(calls, show, g, k) && TotalOf(stats, k) == Tally(calls, k);
      SumOfThree(stats[..i], e, stats[i + 1..], show, g, k);
      SumOfThree(stats[..i], e', stats[i + 1..], show, g, k);
      CallsAppend(calls, Call(e.key, kind), show, g, k);
    }
    forall k ensures TotalOf(stats', k) == Tally(calls', k) {
      assert SumOf(stats', ShowMethod, e.key, k) == CountOf(calls', ShowMethod, e.key, k);
    }
  }

  lemma InsertKeepsExact(stats: seq<Entry>, i: nat, key: StatKey, kind: Kind, calls: seq<Call>)
    requires Exact(stats, calls) && i <= |stats|
    requires forall j | 0 <= j < i :: Less(stats[j].key, key)
    requires i < |stats| ==> !Less(stats[i].key, key) && stats[i].key != key
    ensures Exact(stats[..i] + [Entry(key, Bump(Counts(0, 0, 0), kind))] + stats[i..], calls + [Call(key, kind)])
  {
    var e' := Entry(key, Bump(Counts(0, 0, 0), kind));
    var stats' := stats[..i] + [e'] + stats[i..];
    var calls' := calls + [Call(key, kind)];
    assert stats == stats[..i] + stats[i..];
    forall show, g, k
      ensures SumOf(stats', show, g, k) == CountOf(calls', show, g, k) && TotalOf(stats', k) == Tally(calls', k)
    {
      assert SumOf(stats, show, g, k) == CountOf(calls, show, g, k) && TotalOf(stats, k) == Tally(calls, k);
      SumOfConcat(stats[..i], stats[i..], show, g, k);
      SumOfThree(stats[..i], e', stats[i..], show, g, k);
      CallsAppend(calls, Call(key, kind), show, g, k);
    }
    forall k ensures TotalOf(stats', k) == Tally(calls', k) {
      assert SumOf(stats', ShowMethod, key, k) == CountOf(calls', ShowMethod, key, k);
    }
    InsertSorted(stats, i, e');
  }

  lemma InsertSorted(stats: seq<Entry>, i: nat, e: Entry)
    requires Sorted(stats) && i <= |stats|
    requires forall j | 0 <= j < i :: Less(stats[j].key, e.key)
    requires i < |stats| ==> !Less(stats[i].key, e.key) && stats[i].key != e.key
    ensures Sorted(stats[..i] + [e] + stats[i..])
  {
    if i < |stats| {
      LessTotal(stats[i].key, e.key);
      forall j | i < j < |stats| ensures Less(e.key, stats[j].key) {
        LessTransitive(e.key, stats[i].key, stats[j].key);
      }
    }
  }

  // ----- the report -----

  /** A line of the report: the key whose parts label it, and the totals it shows. */
  datatype Line = Line(key: StatKey, counts: Counts)

  ghost predicate LinesInOrder(show: Show, lines: seq<Line>) {
    forall i, j | 0 <= i < j < |lines| :: Less(Group(show, lines[i].key), Group(show, lines[j].key))
  }

  function TotalLines(lines: seq<Line>, k: Kind): int {
    if lines == [] then 0 else TotalLines(lines[..|lines| - 1], k) + Amount(lines[|lines| - 1].counts, k)
  }

  predicate Covers(show: Show, lines: seq<Line>, g: StatKey) {
    exists j :: 0 <= j < |lines| && Group(show, lines[j].key) == g
  }

  ghost predicate SumsTo(stats: seq<Entry>, show: Show, g: StatKey, c: Counts) {
    forall k :: Amount(c, k) == SumOf(stats, show, g, k)
  }

  /** What the loop of GetAsString knows before entry i: the lines so far, the running totals of the open group. */
  ghost predicate Progress(stats: seq<Entry>, show: Show, i: nat, lines: seq<Line>, running: Counts)
    requires i <= |stats|
  {
    && LinesInOrder(show, lines)
    && (forall j | 0 <= j < |lines| :: SumsTo(stats[..i], show, Group(show, lines[j].key), lines[j].counts)
                                       && Positive(lines[j].counts))
    && (i < |stats| ==> forall j | 0 <= j < |lines| :: Less(Group(show, lines[j].key), Group(show, stats[i].key)))
    && (i < |stats| ==> SumsTo(stats[..i], show, Group(show, stats[i].key), running))
    && running.sent >= 0 && running.received >= 0 && running.blocking >= 0
    && (i == |stats| ==> running.sent == running.received == running.blocking == 0)
    && (forall j | 0 <= j < i :: Covers(show, lines, Group(show, stats[j].key))
                              || (i < |stats| && Group(show, stats[j].key) == Group(show, stats[i].key)))
    && (forall k :: TotalLines(lines, k) + Amount(running, k) == TotalOf(stats[..i], k))
  }

  /** The loop of GetAsString: running totals, reset when a line is added. */
  method ReportLines(stats: seq<Entry>, show: Show) returns (lines: seq<Line>)
    requires Sorted(stats) && forall i | 0 <= i < |stats| :: Positive(stats[i].counts)
    ensures LinesInOrder(show, lines)
    ensures forall j | 0 <= j < |lines| :: SumsTo(stats, show, Group(show, lines[j].key), lines[j].counts)
                                           && Positive(lines[j].counts)
    ensures forall i | 0 <= i < |stats| :: Covers(show, lines, Group(show, stats[i].key))
    ensures forall k :: TotalLines(lines, k) == TotalOf(stats, k)
  {
    lines := [];
    var sent, received, sentBlocking := 0, 0, 0;
    var i := 0;
    assert stats[..0] == [];
    while i < |stats|
      invariant 0 <= i <= |stats| && Progress(stats, show, i, lines, Counts(sent, received, sentBlocking))
    {
      var e := stats[i];
      ghost var running := Counts(sent, received, sentBlocking);
      sent := sent + e.counts.sent;
      received := received + e.counts.received;
      sentBlocking := sentBlocking + e.counts.blocking;
      SameGroup(stats, i, show, lines, running, Counts(sent, received, sentBlocking));
      LastOfGroup(stats, i, show, lines, running, Counts(sent, received, sentBlocking));
      i := i + 1;
      if i < |stats| && stats[i].key.service == e.key.service
         && (show.ShowService? || stats[i].key.interface == e.key.interface)
         && (!show.ShowMethod? || stats[i].key.name == e.key.name)
      {
        continue;
      }
      if sent == 0 && received == 0 && sentBlocking == 0 {
        continue;
      }
      lines := lines + [Line(e.key, Counts(sent, received, sentBlocking))];
      sent, received, sentBlocking := 0, 0, 0;
    }
    assert stats[..i] == stats;
  }

  predicate IsSum(running: Counts, c: Counts, running': Counts) {
    && running'.sent == running.sent + c.sent && running'.received == running.received + c.received
    && running'.blocking == running.blocking + c.blocking
  }

  /** Taking one more entry adds its counts to its own group only. */
  lemma NextEntry(stats: seq<Entry>, i: nat, show: Show, h: StatKey, k: Kind)
    requires i < |stats|
    ensures SumOf(stats[..i + 1], show, h, k)
         == SumOf(stats[..i], show, h, k) + (if Group(show, stats[i].key) == h then Amount(stats[i].counts, k) else 0)
    ensures TotalOf(stats[..i + 1], k) == TotalOf(stats[..i], k) + Amount(stats[i].counts, k)
  {
    assert stats[..i + 1][..i] == stats[..i] && stats[..i + 1][i] == stats[i];
  }

  lemma OtherGroup(stats: seq<Entry>, i: nat, show: Show, h: StatKey, c: Counts)
    requires i < |stats| && SumsTo(stats[..i], show, h, c) && Group(show, stats[i].key) != h
    ensures SumsTo(stats[..i + 1], show, h, c)
  {
    forall k ensures Amount(c, k) == SumOf(stats[..i + 1], show, h, k) { NextEntry(stats, i, show, h, k); }
  }

  lemma OwnGroup(stats: seq<Entry>, i: nat, show: Show, running: Counts, running': Counts)
    requires i < |stats| && SumsTo(stats[..i], show, Group(show, stats[i].key), running)
    requires IsSum(running, stats[i].counts, running')
    ensures SumsTo(stats[..i + 1], show, Group(show, stats[i].key), running')
  {
    var g := Group(show, stats[i].key);
    forall k ensures Amount(running', k) == SumOf(stats[..i + 1], show, g, k) {
      NextEntry(stats, i, show, g, k);
      assert Amount(running, k) == SumOf(stats[..i], show, g, k);
    }
  }

  lemma LinesStay(stats: seq<Entry>, i: nat, show: Show, lines: seq<Line>, running: Counts)
    requires i < |stats| && Progress(stats, show, i, lines, running)
    ensures forall j | 0 <= j < |lines| :: SumsTo(stats[..i + 1], show, Group(show, lines[j].key), lines[j].counts)
  {
    forall j | 0 <= j < |lines| ensures SumsTo(stats[..i + 1], show, Group(show, lines[j].key), lines[j].counts) {
      var h := Group(show, lines[j].key);
      LessTotal(h, h);
      OtherGroup(stats, i, show, h, lines[j].counts);
    }
  }

  lemma SameGroup(stats: seq<Entry>, i: nat, show: Show, lines: seq<Line>, running: Counts, running': Counts)
    requires i < |stats| && Progress(stats, show, i, lines, running) && Positive(stats[i].counts)
    requires IsSum(running, stats[i].counts, running')
    ensures i + 1 < |stats| && Group(show, stats[i + 1].key) == Group(show, stats[i].key)
            ==> Progress(stats, show, i + 1, lines, running')
    ensures Positive(running')
  {
    OwnGroup(stats, i, show, running, running');
    LinesStay(stats, i, show, lines, running);
    forall k ensures TotalLines(lines, k) + Amount(running', k) == TotalOf(stats[..i + 1], k) {
      NextEntry(stats, i, show, Group(show, stats[i].key), k);
      assert TotalLines(lines, k) + Amount(running, k) == TotalOf(stats[..i], k);
    }
  }

  lemma LastOfGroup(stats: seq<Entry>, i: nat, show: Show, lines: seq<Line>, running: Counts, running': Counts)
    requires Sorted(stats) && i < |stats| && Progress(stats, show, i, lines, running) && Positive(stats[i].counts)
    requires IsSum(running, stats[i].counts, running')
    ensures i + 1 == |stats| || Group(show, stats[i + 1].key) != Group(show, stats[i].key)
            ==> Progress(stats, show, i + 1, lines + [Line(stats[i].key, running')], Counts(0, 0, 0))
  {
    var l := Line(stats[i].key, running');
    LineAdded(stats, i, show, lines, running, running');
    LineTotals(stats, i, show, lines, running, running');
    AllCovered(stats, i, show, lines, running, l);
    if i + 1 < |stats| && Group(show, stats[i + 1].key) != Group(show, stats[i].key) {
      NewGroup(stats, i, show);
      LinesBehind(stats, i, show, lines);
    }
  }

  lemma AllCovered(stats: seq<Entry>, i: nat, show: Show, lines: seq<Line>, running: Counts, l: Line)
    requires i < |stats| && Progress(stats, show, i, lines, running) && l.key == stats[i].key
    ensures forall j | 0 <= j < i + 1 :: Covers(show, lines + [l], Group(show, stats[j].key))
  {
    forall j | 0 <= j < i + 1 ensures Covers(show, lines + [l], Group(show, stats[j].key)) {
      CoversMore(show, lines, l, Group(show, stats[j].key));
    }
  }

  lemma LineAdded(stats: seq<Entry>, i: nat, show: Show, lines: seq<Line>, running: Counts, running': Counts)
    requires i < |stats| && Progress(stats, show, i, lines, running) && Positive(stats[i].counts)
    requires IsSum(running, stats[i].counts, running')
    ensures var lines' := lines + [Line(stats[i].key, running')];
            && LinesInOrder(show, lines')
            && (forall j | 0 <= j < |lines'| ::
                  SumsTo(stats[..i + 1], show, Group(show, lines'[j].key), lines'[j].counts)
                  && Positive(lines'[j].counts))
  {
    OwnGroup(stats, i, show, running, running');
    LinesStay(stats, i, show, lines, running);
  }

  lemma LinesBehind(stats: seq<Entry>, i: nat, show: Show, lines: seq<Line>)
    requires i + 1 < |stats| && Less(Group(show, stats[i].key), Group(show, stats[i + 1].key))
    requires forall j | 0 <= j < |lines| :: Less(Group(show, lines[j].key), Group(show, stats[i].key))
    ensures forall j | 0 <= j < |lines| :: Less(Group(show, lines[j].key), Group(show, stats[i + 1].key))
  {
    forall j | 0 <= j < |lines| ensures Less(Group(show, lines[j].key), Group(show, stats[i + 1].key)) {
      LessTransitive(Group(show, lines[j].key), Group(show, stats[i].key), Group(show, stats[i + 1].key));
    }
  }

  lemma LineTotals(stats: seq<Entry>, i: nat, show: Show, lines: seq<Line>, running: Counts, running': Counts)
    requires i < |stats| && IsSum(running, stats[i].counts, running')
    requires forall k :: TotalLines(lines, k) + Amount(running, k) == TotalOf(stats[..i], k)
    ensures forall k :: TotalLines(lines + [Line(stats[i].key, running')], k) == TotalOf(stats[..i + 1], k)
  {
    var lines' := lines + [Line(stats[i].key, running')];
    assert lines'[..|lines|] == lines;
    forall k ensures TotalLines(lines', k) == TotalOf(stats[..i + 1], k) {
      NextEntry(stats, i, show, Group(show, stats[i].key), k);
      assert TotalLines(lines, k) + Amount(running, k) == TotalOf(stats[..i], k);
    }
  }

  lemma CoversMore(show: Show, lines: seq<Line>, l: Line, g: StatKey)
    requires Covers(show, lines, g) || Group(show, l.key) == g
    ensures Covers(show, lines + [l], g)
  {
    if Covers(show, lines, g) {
      var j :| 0 <= j < |lines| && Group(show, lines[j].key) == g;
      assert (lines + [l])[j] == lines[j];
    } else {
      assert (lines + [l])[|lines|] == l;
    }
  }

  /** A group not seen at entry i has no entry before it: equal groups are adjacent in key order. */
  lemma NewGroup(stats: seq<Entry>, i: nat, show: Show)
    requires Sorted(stats) && i + 1 < |stats| && Group(show, stats[i + 1].key) != Group(show, stats[i].key)
    ensures Less(Group(show, stats[i].key), Group(show, stats[i + 1].key))
    ensures SumsTo(stats[..i + 1], show, Group(show, stats[i + 1].key), Counts(0, 0, 0))
  {
    var g, next, seen := Group(show, stats[i].key), Group(show, stats[i + 1].key), stats[..i + 1];
    GroupsInKeyOrder(show, stats[i].key, stats[i + 1].key);
    LessTotal(next, next);
    forall j | 0 <= j < |seen| ensures Group(show, seen[j].key) != next {
      if j < i {
        GroupsInKeyOrder(show, stats[j].key, stats[i].key);
        if Group(show, stats[j].key) == next { LessTransitive(next, g, next); }
      }
    }
    forall k ensures SumOf(seen, show, next, k) == 0 { SumOfNone(seen, show, next, k); }
  }

  // ----- the report against the calls counted -----

  ghost predicate Called(calls: seq<Call>, show: Show, g: StatKey) { exists c :: c in calls && Group(show, c.key) == g }

  /** A group counts something exactly when one of its calls was counted. */
  lemma {:induction false} CalledIsCounted(calls: seq<Call>, show: Show, g: StatKey)
    requires Called(calls, show, g)
    ensures exists k :: CountOf(calls, show, g, k) > 0
  {
    var n := |calls| - 1;
    if Group(show, calls[n].key) == g {
      assert CountOf(calls, show, g, calls[n].kind) > 0;
    } else {
      assert calls == calls[..n] + [calls[n]];
      CalledIsCounted(calls[..n], show, g);
      var k :| CountOf(calls[..n], show, g, k) > 0;
      assert CountOf(calls, show, g, k) > 0;
    }
  }

  lemma {:induction false} CountedIsCalled(calls: seq<Call>, show: Show, g: StatKey, k: Kind)
    requires CountOf(calls, show, g, k) > 0
    ensures Called(calls, show, g)
  {
    var n := |calls| - 1;
    if Group(show, calls[n].key) == g {
      assert calls[n] in calls;
    } else {
      CountedIsCalled(calls[..n], show, g, k);
      var c :| c in calls[..n] && Group(show, c.key) == g;
      assert c in calls;
    }
  }

  /** GetAsString as a list of lines: one line for each group of the calls counted, in key order, with that group's
      exact sums, and nothing else; the totals over all lines are the numbers of calls counted of each kind. */
  method GetAsLines(s: DBusStatistics, show: Show) returns (lines: seq<Line>)
    requires s.Valid()
    ensures LinesInOrder(show, lines)
    ensures forall j, k | 0 <= j < |lines| ::
              Amount(lines[j].counts, k) == CountOf(s.counted, show, Group(show, lines[j].key), k)
    ensures forall j | 0 <= j < |lines| ::
              var g := Group(show, lines[j].key);
              && lines[j].counts.sent == CountOf(s.counted, show, g, Sent)
              && lines[j].counts.received == CountOf(s.counted, show, g, Received)
              && lines[j].counts.blocking == CountOf(s.counted, show, g, Blocking)
    ensures forall g :: Covers(show, lines, g) <==> Called(s.counted, show, g)
    ensures forall k :: TotalLines(lines, k) == Tally(s.counted, k)
  {
    lines := ReportLines(s.stats, show);
    GroupsCalled(s.stats, s.counted, show, lines);
    assert forall c: Counts ::
        Amount(c, Sent) == c.sent && Amount(c, Received) == c.received && Amount(c, Blocking) == c.blocking;
  }

  /** The places at which a group was called in one way. */
  function Places(calls: seq<Call>, show: Show, g: StatKey, k: Kind): set<int> {
    set i | 0 <= i < |calls| && Group(show, calls[i].key) == g && calls[i].kind == k
  }

  lemma OnePlaceMore(calls: seq<Call>, show: Show, g: StatKey, k: Kind)
    requires calls != []
    ensures var n := |calls| - 1;
            && n !in Places(calls[..n], show, g, k)
            && Places(calls, show, g, k)
               == Places(calls[..n], show, g, k)
                + (if Group(show, calls[n].key) == g && calls[n].kind == k then {n} else {})
  {
    var n := |calls| - 1;
    assert forall i | 0 <= i < n :: calls[..n][i] == calls[i];
  }

  /** The count of a group is the number of its calls of that kind. */
  lemma {:induction false} CountIsNumber(calls: seq<Call>, show: Show, g: StatKey, k: Kind)
    ensures CountOf(calls, show, g, k) == |Places(calls, show, g, k)|
  {
    if calls != [] {
      OnePlaceMore(calls, show, g, k);
      CountIsNumber(calls[..|calls| - 1], show, g, k);
    } else {
      assert Places(calls, show, g, k) == {};
    }
  }

  lemma GroupsCalled(stats: seq<Entry>, calls: seq<Call>, show: Show, lines: seq<Line>)
    requires Exact(stats, calls)
    requires forall j | 0 <= j < |lines| :: SumsTo(stats, show, Group(show, lines[j].key), lines[j].counts)
                                            && Positive(lines[j].counts)
    requires forall i | 0 <= i < |stats| :: Covers(show, lines, Group(show, stats[i].key))
    ensures forall j, k | 0 <= j < |lines| ::
              Amount(lines[j].counts, k) == CountOf(calls, show, Group(show, lines[j].key), k)
    ensures forall g :: Covers(show, lines, g) <==> Called(calls, show, g)
  {
    forall j, k | 0 <= j < |lines|
      ensures Amount(lines[j].counts, k) == CountOf(calls, show, Group(show, lines[j].key), k)
    {
      var g := Group(show, lines[j].key);
      assert Amount(lines[j].counts, k) == SumOf(stats, show, g, k);
    }
    forall g | Called(calls, show, g) ensures Covers(show, lines, g) {
      CalledIsCounted(calls, show, g);
      var k :| CountOf(calls, show, g, k) > 0;
      assert SumOf(stats, show, g, k) == CountOf(calls, show, g, k);
      if forall i | 0 <= i < |stats| :: Group(show, stats[i].key) != g { SumOfNone(stats, show, g, k); }
    }
    forall g | Covers(show, lines, g) ensures Called(calls, show, g) {
      var j :| 0 <= j < |lines| && Group(show, lines[j].key) == g;
      var k := if lines[j].counts.sent > 0 then Sent else if lines[j].counts.received > 0 then Received else Blocking;
      assert Amount(lines[j].counts, k) > 0;
      CountedIsCalled(calls, show, g, k);
    }
  }

  /** The kinds of the tally add up to the number of calls. */
  lemma {:induction false} TallyCountsCalls(calls: seq<Call>)
    ensures Tally(calls, Sent) + Tally(calls, Received) + Tally(calls, Blocking) == |calls|
  {
    if calls != [] { TallyCountsCalls(calls[..|calls| - 1]); }
  }
}
