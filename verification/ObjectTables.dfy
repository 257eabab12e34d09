/** The object proxy and object manager tables of Bus (dbus/bus.cc, dbus/bus.h), keyed by the service name and the
    object path written one after the other. */
module ObjectTables {
  datatype Name = Name(service: string, path: string, options: int)

  /** The key of object_proxy_table_. The managers' key has no options, which is the same as always passing 0. */
  function ConcatKey(n: Name): (string, int) { (n.service + n.path, n.options) }

  datatype Op = Get(name: Name) | Remove(name: Name)

  /** Objects are numbered as they are created; removed objects are posted to the D-Bus thread to be detached. */
  datatype Table<K> = Table(entries: map<K, nat>, created: nat, detached: seq<nat>)

  datatype Reply = Got(obj: nat) | Removed(present: bool)

  function Respond<K>(t: Table<K>, key: K, op: Op): (Table<K>, Reply) {
    match op
    case Get(_) =>
      if key in t.entries then (t, Got(t.entries[key]))
      else (Table(t.entries[key := t.created], t.created + 1, t.detached), Got(t.created))
    case Remove(_) =>
      if key in t.entries then (Table(t.entries - {key}, t.created, t.detached + [t.entries[key]]), Removed(true))
      else (t, Removed(false))
  }

  /** The table as it is, and the table keyed by the separate components. */
  function ByConcat(t: Table<(string, int)>, op: Op): (Table<(string, int)>, Reply) {
    Respond(t, ConcatKey(op.name), op)
  }

  function ByName(t: Table<Name>, op: Op): (Table<Name>, Reply) { Respond(t, op.name, op) }

  function ConcatReplies(t: Table<(string, int)>, ops: seq<Op>): seq<Reply>
    decreases |ops|
  {
    if ops == [] then [] else [ByConcat(t, ops[0]).1] + ConcatReplies(ByConcat(t, ops[0]).0, ops[1..])
  }

  function NameReplies(t: Table<Name>, ops: seq<Op>): seq<Reply>
    decreases |ops|
  {
    if ops == [] then [] else [ByName(t, ops[0]).1] + NameReplies(ByName(t, ops[0]).0, ops[1..])
  }

  function ConcatRun(t: Table<(string, int)>, ops: seq<Op>): Table<(string, int)>
    decreases |ops|
  {
    if ops == [] then t else ConcatRun(ByConcat(t, ops[0]).0, ops[1..])
  }

  function NameRun(t: Table<Name>, ops: seq<Op>): Table<Name>
    decreases |ops|
  {
    if ops == [] then t else NameRun(ByName(t, ops[0]).0, ops[1..])
  }

  // ----- when keys collide -----

  /** The "Bus names" and "Valid Object Paths" sections of the D-Bus Specification. */
  predicate ValidName(n: Name) { '/' !in n.service && n.path != "" && n.path[0] == '/' }

  ghost predicate Over(ops: seq<Op>, names: iset<Name>) { forall i | 0 <= i < |ops| :: ops[i].name in names }

  ghost predicate Injective(names: iset<Name>) {
    forall m, n | m in names && n in names && ConcatKey(m) == ConcatKey(n) :: m == n
  }

  lemma ShorterServiceClashes(m: Name, n: Name)
    requires ValidName(m) && ValidName(n) && m.service + m.path == n.service + n.path
    ensures |m.service| >= |n.service|
  {
    assert (m.service + m.path)[|m.service|] == '/';
    assert forall k | 0 <= k < |n.service| :: (n.service + n.path)[k] == n.service[k] != '/';
  }

  /** Valid names never collide: the first '/' is where the path begins. */
  lemma ValidNamesInjective(names: iset<Name>)
    requires forall n | n in names :: ValidName(n)
    ensures Injective(names)
  {
    forall m, n | m in names && n in names && ConcatKey(m) == ConcatKey(n) ensures m == n {
      ShorterServiceClashes(m, n);
      ShorterServiceClashes(n, m);
      assert m.service == (m.service + m.path)[..|m.service|] == n.service;
      assert m.path == (m.service + m.path)[|m.service|..] == n.path;
    }
  }

  /** A service name with a '/' may share its key with another name. */
  lemma InvalidNamesCollide()
    ensures var m, n := Name("a/b", "/c", 0), Name("a", "/b/c", 0);
            m != n && ConcatKey(m) == ConcatKey(n) && !ValidName(m) && ValidName(n)
  {
    assert "a/b" + "/c" == "a" + "/b/c";
    assert "a/b"[1] == '/';
  }

  // ----- the two tables over any sequence of operations -----

  /** The same objects under the same names. */
  ghost predicate Agree(c: Table<(string, int)>, t: Table<Name>, names: iset<Name>) {
    && c.created == t.created && c.detached == t.detached
    && (forall n | n in t.entries :: n in names)
    && (forall n | n in names :: n in t.entries <==> ConcatKey(n) in c.entries)
    && (forall n | n in t.entries :: ConcatKey(n) in c.entries && c.entries[ConcatKey(n)] == t.entries[n])
    && |c.entries| == |t.entries|
  }

  lemma StepAgrees(c: Table<(string, int)>, t: Table<Name>, names: iset<Name>, op: Op)
    requires Injective(names) && op.name in names && Agree(c, t, names)
    ensures ByConcat(c, op).1 == ByName(t, op).1
    ensures Agree(ByConcat(c, op).0, ByName(t, op).0, names)
  {
    var key := ConcatKey(op.name);
    assert op.name in t.entries <==> key in c.entries;
    forall n | n in names && n != op.name ensures ConcatKey(n) != key {}
    if op.Remove? && key in c.entries {
      assert |c.entries - {key}| == |c.entries| - 1;
      assert |t.entries - {op.name}| == |t.entries| - 1;
    }
  }

  lemma {:induction false} RunsAgree(c: Table<(string, int)>, t: Table<Name>, names: iset<Name>, ops: seq<Op>)
    requires Injective(names) && Over(ops, names) && Agree(c, t, names)
    ensures ConcatReplies(c, ops) == NameReplies(t, ops)
    ensures Agree(ConcatRun(c, ops), NameRun(t, ops), names)
    decreases |ops|
  {
    if ops != [] {
      StepAgrees(c, t, names, ops[0]);
      RunsAgree(ByConcat(c, ops[0]).0, ByName(t, ops[0]).0, names, ops[1..]);
    }
  }

  const NO_PROXIES: Table<(string, int)> := Table(map[], 0, [])
  const NO_NAMES: Table<Name> := Table(map[], 0, [])

  /** Over valid names the concatenated keys cannot be told from separate ones: every sequence of gets and removes is
      answered alike, detaches the same objects and leaves the same ones. */
  lemma ConcatenationIsInvisible(ops: seq<Op>)
    requires forall i | 0 <= i < |ops| :: ValidName(ops[i].name)
    ensures ConcatReplies(NO_PROXIES, ops) == NameReplies(NO_NAMES, ops)
    ensures Agree(ConcatRun(NO_PROXIES, ops), NameRun(NO_NAMES, ops), iset n | ValidName(n))
  {
    var names := iset n | ValidName(n);
    ValidNamesInjective(names);
    RunsAgree(NO_PROXIES, NO_NAMES, names, ops);
  }

  ghost predicate SameReplies(ops: seq<Op>) { ConcatReplies(NO_PROXIES, ops) == NameReplies(NO_NAMES, ops) }

  /** Exactly then: the tables answer alike over every sequence on some names if and only if no two of them collide. */
  lemma InvisibleIffInjective(names: iset<Name>)
    ensures (forall ops | Over(ops, names) :: SameReplies(ops)) <==> Injective(names)
  {
    if Injective(names) {
      forall ops | Over(ops, names) ensures SameReplies(ops) {
        RunsAgree(NO_PROXIES, NO_NAMES, names, ops);
      }
    } else {
      var m, n :| m in names && n in names && ConcatKey(m) == ConcatKey(n) && m != n;
      var ops := [Get(m), Get(n)];
      CollisionShows(m, n);
      assert Over(ops, names) && !SameReplies(ops);
    }
  }

  lemma CollisionShows(m: Name, n: Name)
    requires ConcatKey(m) == ConcatKey(n) && m != n
    ensures !SameReplies([Get(m), Get(n)])
  {
    var ops := [Get(m), Get(n)];
    assert ops[1..] == [Get(n)];
    var c, t := ByConcat(NO_PROXIES, ops[0]).0, ByName(NO_NAMES, ops[0]).0;
    assert ConcatReplies(c, ops[1..]) == [Got(0)] + ConcatReplies(c, []);
    assert NameReplies(t, ops[1..])[0] == Got(1);
    assert ConcatReplies(NO_PROXIES, ops)[1] == Got(0);
    assert NameReplies(NO_NAMES, ops)[1] == Got(1);
  }

  // ----- what the replies mean -----

  /** The last operation on the name got it: there is an object under the name. */
  predicate Live(ops: seq<Op>, n: Name) {
    ops != [] && (if ops[|ops| - 1].name == n then ops[|ops| - 1].Get? else Live(ops[..|ops| - 1], n))
  }

  /** The objects under the names, and the detached ones, are all the objects ever created, each in one place. */
  ghost predicate Objects(t: Table<Name>) { Apart(t) && |t.entries| + |t.detached| == t.created }

  /** No object is in two places. */
  ghost predicate Apart(t: Table<Name>) {
    && (forall n | n in t.entries :: t.entries[n] < t.created)
    && (forall m, n | m in t.entries && n in t.entries && m != n :: t.entries[m] != t.entries[n])
    && (forall i | 0 <= i < |t.detached| :: t.detached[i] < t.created)
    && (forall i, j | 0 <= i < j < |t.detached| :: t.detached[i] != t.detached[j])
    && (forall n, i | n in t.entries && 0 <= i < |t.detached| :: t.entries[n] != t.detached[i])
  }

  /** There is an object under exactly the live names. */
  ghost predicate Names(t: Table<Name>, ops: seq<Op>) { forall n :: n in t.entries <==> Live(ops, n) }

  ghost predicate Kept(t: Table<Name>, ops: seq<Op>) { Names(t, ops) && Objects(t) }

  lemma NewObject(t: Table<Name>, n: Name)
    requires Objects(t) && n !in t.entries
    ensures Objects(Table(t.entries[n := t.created], t.created + 1, t.detached))
  {
    NewApart(t, n);
    assert t.entries[n := t.created].Keys == t.entries.Keys + {n};
    assert |t.entries[n := t.created]| == |t.entries[n := t.created].Keys| && |t.entries| == |t.entries.Keys|;
  }

  lemma NewApart(t: Table<Name>, n: Name)
    requires Apart(t) && n !in t.entries
    ensures Apart(Table(t.entries[n := t.created], t.created + 1, t.detached))
  {}

  lemma ObjectPosted(t: Table<Name>, n: Name)
    requires Objects(t) && n in t.entries
    ensures Objects(Table(t.entries - {n}, t.created, t.detached + [t.entries[n]]))
  {
    PostedApart(t, n);
    assert |t.entries - {n}| == |t.entries| - 1;
  }

  lemma PostedApart(t: Table<Name>, n: Name)
    requires Apart(t) && n in t.entries
    ensures Apart(Table(t.entries - {n}, t.created, t.detached + [t.entries[n]]))
  {}

  lemma LiveThen(ops: seq<Op>, op: Op, n: Name)
    ensures Live(ops + [op], n) <==> if op.name == n then op.Get? else Live(ops, n)
  {
    assert (ops + [op])[..|ops|] == ops;
  }

  lemma {:induction false} NameRunThen(t: Table<Name>, ops: seq<Op>, op: Op)
    ensures NameRun(t, ops + [op]) == ByName(NameRun(t, ops), op).0
    decreases |ops|
  {
    if ops == [] {
      assert (ops + [op])[1..] == [];
    } else {
      assert (ops + [op])[1..] == ops[1..] + [op];
      NameRunThen(ByName(t, ops[0]).0, ops[1..], op);
    }
  }

  lemma StepKept(t: Table<Name>, ops: seq<Op>, op: Op)
    requires Kept(t, ops)
    ensures Kept(ByName(t, op).0, ops + [op])
  {
    StepNames(t, ops, op);
    if op.Get? && op.name !in t.entries { NewObject(t, op.name); }
    if op.Remove? && op.name in t.entries { ObjectPosted(t, op.name); }
  }

  lemma StepNames(t: Table<Name>, ops: seq<Op>, op: Op)
    requires Names(t, ops)
    ensures Names(ByName(t, op).0, ops + [op])
  {
    forall n ensures n in ByName(t, op).0.entries <==> Live(ops + [op], n) { LiveThen(ops, op, n); }
  }

  lemma {:induction false} RunKept(ops: seq<Op>)
    ensures Kept(NameRun(NO_NAMES, ops), ops)
    decreases |ops|
  {
    if ops != [] {
      var before, op := ops[..|ops| - 1], ops[|ops| - 1];
      RunKept(before);
      assert ops == before + [op];
      NameRunThen(NO_NAMES, before, op);
      StepKept(NameRun(NO_NAMES, before), before, op);
    }
  }

  /** Over every sequence of operations: a get hands out the object under the name if there is one and a new object, not
      handed out before, if there is none; a remove says whether there was one, and exactly then posts that object to be
      detached and takes the name out. Every object ever created is under one name or was posted once. */
  lemma RepliesMean(ops: seq<Op>, n: Name)
    ensures var t := NameRun(NO_NAMES, ops);
            && Objects(t) && (n in t.entries <==> Live(ops, n))
            && GetMeans(t, ByName(t, Get(n)), n) && RemoveMeans(t, ByName(t, Remove(n)), n)
  {
    RunKept(ops);
    var t := NameRun(NO_NAMES, ops);
    GetIs(t, n);
    RemoveIs(t, n);
  }

  /** The object under the name, or a new one, which is under the name then; nothing else changes. */
  ghost predicate GetMeans(t: Table<Name>, r: (Table<Name>, Reply), n: Name) {
    var (t', reply) := r;
    && reply == Got(if n in t.entries then t.entries[n] else t.created)
    && t'.entries.Keys == t.entries.Keys + {n} && t'.entries[n] == reply.obj
    && (forall m | m in t.entries && m != n :: t'.entries[m] == t.entries[m])
    && t'.detached == t.detached && t'.created == t.created + if n in t.entries then 0 else 1
  }

  /** Whether there was one; it is posted then, and the name is taken out; nothing else changes. */
  ghost predicate RemoveMeans(t: Table<Name>, r: (Table<Name>, Reply), n: Name) {
    var (t', reply) := r;
    && reply == Removed(n in t.entries)
    && t'.entries.Keys == t.entries.Keys - {n} && (forall m | m in t'.entries :: t'.entries[m] == t.entries[m])
    && t'.detached == t.detached + (if n in t.entries then [t.entries[n]] else []) && t'.created == t.created
  }

  lemma GetIs(t: Table<Name>, n: Name)
    ensures GetMeans(t, ByName(t, Get(n)), n)
  {}

  lemma RemoveIs(t: Table<Name>, n: Name)
    ensures RemoveMeans(t, ByName(t, Remove(n)), n)
  {}

  // ----- the tables updated in place -----

  class ProxyTable {
    var table: map<(string, int), nat>
    var created: nat
    var posted: seq<nat>

    ghost function View(): Table<(string, int)> reads this { Table(table, created, posted) }

    constructor () ensures View() == NO_PROXIES { table, created, posted := map[], 0, []; }

    method GetObjectProxyWithOptions(service: string, path: string, options: int) returns (proxy: nat)
      modifies this
      ensures (View(), Got(proxy)) == ByConcat(old(View()), Get(Name(service, path, options)))
      ensures var key := (service + path, options);
              && proxy == (if key in old(table) then old(table)[key] else old(created))
              && table == old(table)[key := proxy] && posted == old(posted)
    {
      var key := (service + path, options);
      if key in table {
        return table[key];
      }
      proxy := created;
      created := created + 1;
      table := table[key := proxy];
    }

    method RemoveObjectProxyWithOptions(service: string, path: string, options: int) returns (present: bool)
      modifies this
      ensures (View(), Removed(present)) == ByConcat(old(View()), Remove(Name(service, path, options)))
      ensures var key := (service + path, options);
              && (present <==> key in old(table)) && table == old(table) - {key}
              && posted == old(posted) + if present then [old(table)[key]] else []
    {
      var key := (service + path, options);
      if key in table {
        var proxy := table[key];
        table := table - {key};
        posted := posted + [proxy];
        return true;
      }
      return false;
    }
  }
}
