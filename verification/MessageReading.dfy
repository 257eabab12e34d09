/** MessageReader over the tapes of MessageCodec, and any sequence of pops. */
module MessageReading {
  import opened Wrappers
  import opened MessageCodec

  // ----- what a pop does to the items ahead of a reader -----

  datatype Pop =
    | PopBasicOf(code: char)         // PopByte .. PopObjectPath
    | PopVariantOf(code: char)       // PopVariantOfByte .. PopVariantOfObjectPath
    | PopArrayOf(code: char)         // PopArrayOfStrings, PopArrayOfObjectPaths
    | PopFixedArrayOf(code: char)    // PopArrayOfBytes, -Int32s, -Uint32s, -Doubles
    | PopInto(code: char)            // PopArray, PopStruct, PopDictEntry, PopVariant, with a sub-reader

  /** The types a pop may be asked for. */
  predicate Askable(op: Pop) { if op.PopInto? then ContainerCode(op.code) else BasicCode(op.code) }

  /** What a pop finds: basic values, or the items inside a container. */
  datatype Found = Data(basics: seq<Basic>) | Inside(items: seq<Value>)

  predicate IsBasic(v: Value, code: char) { v.Leaf? && Code(v.basic) == code }

  /** The content a pop looks for in an item, if the item has the right outer type and contents. */
  function Content(v: Value, op: Pop): Option<Found> {
    match op
    case PopBasicOf(code) => if IsBasic(v, code) then Some(Data([v.basic])) else None
    case PopInto(code) => if v.Container? && TypeCode(v) == code then Some(Inside(v.items)) else None
    case PopVariantOf(code) =>
      if v.Container? && v.kind.Variant? && v.items != [] && IsBasic(v.items[0], code)
      then Some(Data([v.items[0].basic]))
      else None
    case _ =>
      if v.Container? && v.kind.Array? && AllBasic(v.items, op.code) then Some(Data(Basics(v.items))) else None
  }

  predicate OuterType(v: Value, op: Pop) {
    match op
    case PopBasicOf(code) => IsBasic(v, code)
    case PopInto(code) => v.Container? && TypeCode(v) == code
    case PopVariantOf(_) => v.Container? && v.kind.Variant?
    case _ => v.Container? && v.kind.Array?
  }

  predicate AllBasic(vs: seq<Value>, code: char) { forall i | 0 <= i < |vs| :: IsBasic(vs[i], code) }

  function Basics(vs: seq<Value>): seq<Basic>
    requires forall i | 0 <= i < |vs| :: vs[i].Leaf?
  {
    seq(|vs|, i requires 0 <= i < |vs| => vs[i].basic)
  }

  /** The item is made of what was found: the one basic value, a variant of it, an array of them, or a container with
      these items inside; and all of the type asked for. */
  ghost predicate Yields(v: Value, op: Pop, found: Found) {
    match op
    case PopBasicOf(code) => exists b :: v == Leaf(b) && found == Data([b]) && Code(b) == code
    case PopVariantOf(code) =>
      && v.Container? && v.kind.Variant? && v.items != [] && v.items[0].Leaf?
      && found == Data([v.items[0].basic]) && Code(v.items[0].basic) == code
    case PopInto(code) => v.Container? && TypeCode(v) == code && found == Inside(v.items)
    case _ =>
      && v.Container? && v.kind.Array? && found.Data? && v.items == Leaves(found.basics)
      && forall b | b in found.basics :: Code(b) == op.code
  }

  function Consumed(items: seq<Value>, op: Pop): nat {
    if items != [] && OuterType(items[0], op) then 1 else 0
  }

  function Result(items: seq<Value>, op: Pop): Option<Found> {
    if items != [] then Content(items[0], op) else None
  }

  /** dbus_message_iter_get_fixed_array: the block of items at a position. */
  function Block(tape: seq<Token>, pos: nat): seq<Basic>
    decreases |tape| - pos
  {
    if pos >= |tape| || !tape[pos].Item? then [] else [tape[pos].basic] + Block(tape, pos + 1)
  }

  lemma {:induction false} FixedBlock(tape: seq<Token>, pos: nat, vs: seq<Value>, tail: seq<Token>)
    requires pos <= |tape| && tape[pos..] == EncodeAll(vs) + tail && (tail == [] || tail[0].End?)
    requires forall i | 0 <= i < |vs| :: vs[i].Leaf?
    ensures Block(tape, pos) == Basics(vs)
    decreases |vs|
  {
    if vs == [] {
      if tail != [] { assert tape[pos] == tape[pos..][0]; }
    } else {
      assert EncodeAll(vs) == [Item(vs[0].basic)] + EncodeAll(vs[1..]);
      assert tape[pos] == tape[pos..][0];
      assert tape[pos + 1..] == tape[pos..][1..] == EncodeAll(vs[1..]) + tail;
      FixedBlock(tape, pos + 1, vs[1..], tail);
      assert Basics(vs) == [vs[0].basic] + Basics(vs[1..]);
    }
  }

  lemma OuterTypeSeen(v: Value, code: char)
    ensures TypeCode(v) == 'v' <==> OuterType(v, PopVariantOf(code))
    ensures TypeCode(v) == 'a' <==> OuterType(v, PopArrayOf(code))
    ensures TypeCode(v) == 'a' <==> OuterType(v, PopFixedArrayOf(code))
  {}

  /** All elements have one type. */
  ghost predicate Uniform(items: seq<Value>) {
    forall i | 0 <= i < |items| :: Signature(items[i]) == Signature(items[0])
  }

  lemma ArrayIsUniform(v: Value)
    requires WellTyped(v) && v.Container? && v.kind.Array?
    ensures Uniform(v.items)
  {
    forall i | 0 <= i < |v.items| ensures Signature(v.items[i]) == Signature(v.items[0]) {
      assert v.items[i] in v.items && v.items[0] in v.items;
    }
  }

  lemma SameType(items: seq<Value>, code: char)
    requires Uniform(items) && items != [] && TypeCode(items[0]) == code && BasicCode(code)
    ensures AllBasic(items, code)
  {
    forall i | 0 <= i < |items| ensures IsBasic(items[i], code) {
      assert Signature(items[i]) == Signature(items[0]) == [code];
      assert Signature(items[i])[0] == code;
    }
  }

  /** The first elements have the type and these contents. */
  ghost predicate Taken(elements: seq<Value>, bs: seq<Basic>, code: char) {
    && |bs| <= |elements|
    && (forall i | 0 <= i < |bs| :: IsBasic(elements[i], code) && bs[i] == elements[i].basic)
  }

  lemma TakenMore(elements: seq<Value>, bs: seq<Basic>, code: char)
    requires Taken(elements, bs, code) && |bs| < |elements| && IsBasic(elements[|bs|], code)
    ensures Taken(elements, bs + [elements[|bs|].basic], code)
  {}

  // ----- a position on the tape -----

  /** A libdbus iterator: a position on the tape. */
  datatype Cursor = Cursor(tape: seq<Token>, pos: nat)

  /** The cursor stands before these well-typed items; behind them is nothing, or the end of the container. */
  ghost predicate Stands(c: Cursor, items: seq<Value>, tail: seq<Token>) {
    match c
    case Cursor(tape, pos) =>
      pos <= |tape| && tape[pos..] == EncodeAll(items) + tail && (tail == [] || tail[0].End?) && AllWellTyped(items)
  }

  /** The type seen is the type of the next item, or none when no item is left. */
  lemma Seen(tape: seq<Token>, pos: nat, items: seq<Value>, tail: seq<Token>)
    requires Stands(Cursor(tape, pos), items, tail)
    ensures items == [] ==> ArgType(tape, pos) == '\0'
    ensures items != [] ==> ArgType(tape, pos) == TypeCode(items[0]) != '\0'
    ensures items != [] ==> pos < |tape| && tape[pos] == Encode(items[0])[0] && At(tape, pos, Encode(items[0]))
  {
    if items != [] {
      var head, rest := Encode(items[0]), EncodeAll(items[1..]) + tail;
      assert tape[pos..] == head + rest;
      assert tape[pos] == tape[pos..][0];
      assert tape[pos..pos + |head|] == tape[pos..][..|head|] == head;
    } else if tail != [] {
      assert tape[pos] == tape[pos..][0];
    }
  }

  /** The next position is behind the item. */
  lemma Skipped(tape: seq<Token>, pos: nat, items: seq<Value>, tail: seq<Token>)
    requires Stands(Cursor(tape, pos), items, tail) && items != []
    ensures Stands(Cursor(tape, Next(tape, pos, 0)), items[1..], tail)
  {
    var head, rest := Encode(items[0]), EncodeAll(items[1..]) + tail;
    Seen(tape, pos, items, tail);
    NextSkips(tape, pos, items[0], 0);
    assert tape[pos..] == head + rest;
    assert tape[pos + |head|..] == tape[pos..][|head|..] == rest;
  }

  /** One token further is inside the container. */
  lemma Entered(tape: seq<Token>, pos: nat, items: seq<Value>, tail: seq<Token>)
    requires Stands(Cursor(tape, pos), items, tail) && items != [] && items[0].Container?
    ensures Stands(Cursor(tape, pos + 1), items[0].items, [End] + EncodeAll(items[1..]) + tail)
  {
    var v := items[0];
    var inner, rest := EncodeAll(v.items), EncodeAll(items[1..]);
    assert EncodeAll(items) == [Begin(v.kind)] + inner + [End] + rest;
    assert tape[pos..] == [Begin(v.kind)] + (inner + ([End] + rest + tail));
    assert tape[pos + 1..] == tape[pos..][1..];
    assert WellTyped(v);
  }

  lemma BlockAhead(tape: seq<Token>, pos: nat, items: seq<Value>, tail: seq<Token>, code: char)
    requires Stands(Cursor(tape, pos), items, tail) && AllBasic(items, code)
    ensures Block(tape, pos) == Basics(items)
  {
    FixedBlock(tape, pos, items, tail);
  }

  // ----- the reader -----

  class MessageReader {
    var tape: seq<Token>
    var pos: nat
    ghost var items: seq<Value>     // the items ahead
    ghost var tail: seq<Token>      // what follows them: nothing, or the end of the container

    ghost predicate Valid() reads this { Stands(Cursor(tape, pos), items, tail) }

    constructor (message: Message, ghost contents: seq<Value>)
      requires message.body == EncodeAll(contents) && AllWellTyped(contents)
      ensures Valid() && tape == message.body && items == contents && tail == []
    {
      tape, pos, items, tail := message.body, 0, contents, [];
    }

    method GetDataType() returns (code: char)
      requires Valid()
      ensures code == if items == [] then '\0' else TypeCode(items[0])
    {
      Seen(tape, pos, items, tail);
      code := ArgType(tape, pos);
    }

    method HasMoreData() returns (more: bool)
      requires Valid()
      ensures more == (items != [])
    {
      Seen(tape, pos, items, tail);
      more := ArgType(tape, pos) != '\0';
    }

    method GetDataSignature() returns (signature: string)
      requires Valid()
      ensures items != [] ==> signature == Signature(items[0])
    {
      Seen(tape, pos, items, tail);
      if items != [] { SignatureSeen(tape, pos, items[0]); }
      signature := SignatureAt(tape, pos);
    }

    method PopBasic(code: char) returns (ok: bool, b: Basic)
      requires Valid() && BasicCode(code)
      modifies this
      ensures Valid() && tape == old(tape) && tail == old(tail)
      ensures ok == (old(items) != [] && IsBasic(old(items)[0], code))
      ensures if ok then items == old(items)[1..] && b == old(items)[0].basic else items == old(items)
    {
      Seen(tape, pos, items, tail);
      b := Byte(0);
      if ArgType(tape, pos) != code {
        return false, b;
      }
      Skipped(tape, pos, items, tail);
      b := tape[pos].basic;
      pos := Next(tape, pos, 0);
      items := items[1..];
      ok := true;
    }

    /** The sub-reader is placed at the container's contents, this reader behind the container. */
    method PopContainer(code: char, sub: MessageReader) returns (ok: bool)
      requires Valid() && sub != this && ContainerCode(code)
      modifies this, sub
      ensures Valid() && tape == old(tape) && tail == old(tail)
      ensures ok == (old(items) != [] && TypeCode(old(items)[0]) == code)
      ensures if ok
              then items == old(items)[1..] && old(items)[0].Container?
                   && sub.Valid() && sub.items == old(items)[0].items
              else items == old(items)
    {
      Seen(tape, pos, items, tail);
      if ArgType(tape, pos) != code {
        return false;
      }
      Skipped(tape, pos, items, tail);
      Entered(tape, pos, items, tail);
      sub.tape, sub.pos, sub.items, sub.tail := tape, pos + 1, items[0].items, [End] + EncodeAll(items[1..]) + tail;
      pos := Next(tape, pos, 0);
      items := items[1..];
      return true;
    }

    method PopVariantOfBasic(code: char) returns (ok: bool, b: Basic)
      requires Valid() && BasicCode(code)
      modifies this
      ensures Valid() && tape == old(tape) && tail == old(tail)
      ensures items == old(items)[Consumed(old(items), PopVariantOf(code))..]
      ensures Result(old(items), PopVariantOf(code)) == if ok then Some(Data([b])) else None
      ensures var isVariant := old(items) != [] && old(items)[0].Container? && old(items)[0].kind.Variant?;
              && items == old(items)[if isVariant then 1 else 0..]
              && (ok <==> isVariant && old(items)[0].items != [] && IsBasic(old(items)[0].items[0], code))
              && (ok ==> old(items)[0].items[0] == Leaf(b))
    {
      if items != [] { OuterTypeSeen(items[0], code); }
      var variantReader := new MessageReader.Unplaced();
      var found := PopContainer('v', variantReader);
      if !found {
        return false, Byte(0);
      }
      ok, b := variantReader.PopBasic(code);
    }

    /** Unplaced readers are given their position by a pop. */
    constructor Unplaced() ensures Valid() && items == [] {
      tape, pos, items, tail := [], 0, [], [];
    }

    /** PopArrayOfStrings, PopArrayOfObjectPaths. */
    method PopArray(code: char) returns (ok: bool, bs: seq<Basic>)
      requires Valid() && BasicCode(code)
      modifies this
      ensures Valid() && tape == old(tape) && tail == old(tail)
      ensures items == old(items)[Consumed(old(items), PopArrayOf(code))..]
      ensures Result(old(items), PopArrayOf(code)) == if ok then Some(Data(bs)) else None
      ensures var isArray := old(items) != [] && old(items)[0].Container? && old(items)[0].kind.Array?;
              && items == old(items)[if isArray then 1 else 0..]
              && (ok <==> isArray && AllBasic(old(items)[0].items, code))
              && (ok ==> old(items)[0].items == Leaves(bs))
    {
      bs := [];
      if items != [] { OuterTypeSeen(items[0], code); }
      var arrayReader := new MessageReader.Unplaced();
      var found := PopContainer('a', arrayReader);
      if !found {
        return false, bs;
      }
      ok, bs := arrayReader.PopRest(code);
    }

    /** The loop of PopArrayOfStrings: pop elements of one type until none is left or one has another type. */
    method PopRest(code: char) returns (ok: bool, bs: seq<Basic>)
      requires Valid() && BasicCode(code)
      modifies this
      ensures ok == AllBasic(old(items), code)
      ensures ok ==> bs == Basics(old(items))
    {
      bs := [];
      ghost var elements := items;
      var more := HasMoreData();
      while more
        invariant Valid() && more == (items != [])
        invariant Taken(elements, bs, code) && items == elements[|bs|..]
        decreases |items|
      {
        var popped, b := PopBasic(code);
        if !popped {
          assert !IsBasic(elements[|bs|], code) && !AllBasic(elements, code);
          return false, bs;
        }
        TakenMore(elements, bs, code);
        assert items == elements[|bs|..][1..] == elements[|bs| + 1..];
        bs := bs + [b];
        more := HasMoreData();
      }
      return true, bs;
    }

    /** PopArrayOfBytes and the other fixed arrays: only the first element's type is looked at, and libdbus then
        hands out the whole block. */
    method PopFixedArray(code: char) returns (ok: bool, bs: seq<Basic>)
      requires Valid() && BasicCode(code)
      modifies this
      ensures Valid() && tape == old(tape) && tail == old(tail)
      ensures items == old(items)[Consumed(old(items), PopFixedArrayOf(code))..]
      ensures Result(old(items), PopFixedArrayOf(code)) == if ok then Some(Data(bs)) else None
      ensures var isArray := old(items) != [] && old(items)[0].Container? && old(items)[0].kind.Array?;
              && items == old(items)[if isArray then 1 else 0..]
              && (ok <==> isArray && AllBasic(old(items)[0].items, code))
              && (ok ==> old(items)[0].items == Leaves(bs))
    {
      bs := [];
      if items != [] { OuterTypeSeen(items[0], code); }
      var arrayReader := new MessageReader.Unplaced();
      var found := PopContainer('a', arrayReader);
      if !found {
        return false, bs;
      }
      ArrayIsUniform(old(items)[0]);
      ok, bs := arrayReader.WholeBlock(code);
    }

    method WholeBlock(code: char) returns (ok: bool, bs: seq<Basic>)
      requires Valid() && BasicCode(code) && Uniform(items)
      ensures ok == AllBasic(items, code)
      ensures ok ==> bs == Basics(items)
    {
      var more := HasMoreData();
      if !more {
        assert Basics(items) == [];
        return true, [];
      }
      var first := GetDataType();
      if first != code {
        assert !IsBasic(items[0], code);
        return false, [];
      }
      SameType(items, code);
      BlockAhead(tape, pos, items, tail, code);
      return true, Block(tape, pos);
    }
  }

  // ----- any sequence of pops -----

  /** A successful pop: the index of the item it took, the index of the pop, and what it returned. */
  datatype Hit = Hit(at: nat, op: nat, content: Found)

  /** The hits of pops numbered from `first` on items numbered from `start`. */
  function Hits(items: seq<Value>, start: nat, ops: seq<Pop>, first: nat): seq<Hit>
    decreases |ops|
  {
    if ops == [] then []
    else
      var n := Consumed(items, ops[0]);
      var r := Result(items, ops[0]);
      var rest := Hits(items[n..], start + n, ops[1..], first + 1);
      if r.Some? then [Hit(start, first, r.value)] + rest else rest
  }

  /** Items and pops of the hits both go forward. */
  ghost predicate InOrder(hits: seq<Hit>, lo: nat, hi: nat) {
    && (forall i | 0 <= i < |hits| :: lo <= hits[i].at < hi)
    && (forall i, j | 0 <= i < j < |hits| :: hits[i].at < hits[j].at && hits[i].op < hits[j].op)
  }

  /** The hit returned the content that its pop looks for in its item. */
  ghost predicate LookedFor(items: seq<Value>, start: nat, h: Hit, ops: seq<Pop>, first: nat) {
    && start <= h.at < start + |items| && first <= h.op < first + |ops|
    && Yields(items[h.at - start], ops[h.op - first], h.content)
  }

  /** A pop finds something exactly if the item yields it. */
  lemma ContentIs(v: Value, op: Pop, found: Found)
    ensures Content(v, op) == Some(found) <==> Yields(v, op, found)
  {
    if Content(v, op).Some? { ContentYields(v, op); }
    if Yields(v, op, found) { YieldsContent(v, op, found); }
  }

  lemma ContentYields(v: Value, op: Pop)
    requires Content(v, op).Some?
    ensures Yields(v, op, Content(v, op).value)
  {
    if op.PopArrayOf? || op.PopFixedArrayOf? { assert v.items == Leaves(Basics(v.items)); }
  }

  lemma YieldsContent(v: Value, op: Pop, found: Found)
    requires Yields(v, op, found)
    ensures Content(v, op) == Some(found)
  {
    if op.PopArrayOf? || op.PopFixedArrayOf? {
      assert forall i | 0 <= i < |v.items| :: v.items[i] == Leaf(found.basics[i]) && found.basics[i] in found.basics;
      assert Basics(v.items) == found.basics;
    }
  }

  lemma ConsumedBounds(items: seq<Value>, op: Pop)
    ensures Consumed(items, op) <= |items|
    ensures Result(items, op).Some? ==> Consumed(items, op) == 1
  {}

  lemma InOrderCons(h: Hit, hits: seq<Hit>, hi: nat)
    requires InOrder(hits, h.at + 1, hi) && h.at < hi && forall x | x in hits :: h.op < x.op
    ensures InOrder([h] + hits, h.at, hi)
  {}

  lemma LookedForLater(items: seq<Value>, start: nat, n: nat, h: Hit, ops: seq<Pop>, first: nat)
    requires n <= |items| && ops != [] && LookedFor(items[n..], start + n, h, ops[1..], first + 1)
    ensures LookedFor(items, start, h, ops, first)
  {
    assert items[n..][h.at - (start + n)] == items[h.at - start];
    assert ops[1..][h.op - (first + 1)] == ops[h.op - first];
  }

  /** For any sequence of succeeding and failing pops the values come back as an in-order subsequence of the
      message's items: each from its own item, at increasing positions, and as the content that very pop looks for. */
  lemma {:induction false} PopsAreSubsequence(items: seq<Value>, start: nat, ops: seq<Pop>, first: nat)
    ensures InOrder(Hits(items, start, ops, first), start, start + |items|)
    ensures forall h | h in Hits(items, start, ops, first) :: LookedFor(items, start, h, ops, first)
    decreases |ops|
  {
    if ops != [] {
      var n := Consumed(items, ops[0]);
      ConsumedBounds(items, ops[0]);
      PopsAreSubsequence(items[n..], start + n, ops[1..], first + 1);
      OnePopMore(items, start, ops, first, Hits(items[n..], start + n, ops[1..], first + 1));
    }
  }

  lemma OnePopMore(items: seq<Value>, start: nat, ops: seq<Pop>, first: nat, rest: seq<Hit>)
    requires ops != [] && Consumed(items, ops[0]) <= |items|
    requires var n := Consumed(items, ops[0]);
             && InOrder(rest, start + n, start + |items|)
             && (forall h | h in rest :: LookedFor(items[n..], start + n, h, ops[1..], first + 1))
    ensures var r := Result(items, ops[0]);
            var hits := if r.Some? then [Hit(start, first, r.value)] + rest else rest;
            InOrder(hits, start, start + |items|) && forall h | h in hits :: LookedFor(items, start, h, ops, first)
  {
    var n, r := Consumed(items, ops[0]), Result(items, ops[0]);
    ConsumedBounds(items, ops[0]);
    forall h | h in rest ensures LookedFor(items, start, h, ops, first) {
      LookedForLater(items, start, n, h, ops, first);
    }
    if r.Some? {
      InOrderCons(Hit(start, first, r.value), rest, start + |items|);
      FirstLookedFor(items, start, ops, first);
    }
  }

  lemma FirstLookedFor(items: seq<Value>, start: nat, ops: seq<Pop>, first: nat)
    requires ops != [] && Result(items, ops[0]).Some?
    ensures LookedFor(items, start, Hit(start, first, Result(items, ops[0]).value), ops, first)
  {
    ContentYields(items[0], ops[0]);
  }

  /** The items left behind a sequence of pops. */
  function Rest(items: seq<Value>, ops: seq<Pop>): seq<Value>
    decreases |ops|
  {
    if ops == [] then items else Rest(items[Consumed(items, ops[0])..], ops[1..])
  }

  /** How many of the pops met the right container with wrong contents. */
  function Misfits(items: seq<Value>, ops: seq<Pop>): nat
    decreases |ops|
  {
    if ops == [] then 0
    else
      (if items != [] && OuterType(items[0], ops[0]) && Content(items[0], ops[0]).None? then 1 else 0)
      + Misfits(items[Consumed(items, ops[0])..], ops[1..])
  }

  /** Exactly the successes and the misfits take an item each; a wrong outer type takes none. */
  lemma {:induction false} ItemsTaken(items: seq<Value>, start: nat, ops: seq<Pop>, first: nat)
    ensures |Hits(items, start, ops, first)| + Misfits(items, ops) <= |items|
    ensures Rest(items, ops) == items[|Hits(items, start, ops, first)| + Misfits(items, ops)..]
    decreases |ops|
  {
    if ops != [] {
      var n := Consumed(items, ops[0]);
      ConsumedBounds(items, ops[0]);
      ItemsTaken(items[n..], start + n, ops[1..], first + 1);
    }
  }

  // ----- a client that runs them -----

  /** What a client gets: the basic values, or a reader of its own that stands inside the container. */
  datatype Got = Values(basics: seq<Basic>) | SubReader(reader: MessageReader)

  ghost predicate Delivers(g: Got, found: Found)
    reads if g.SubReader? then {g.reader} else {}
  {
    match g
    case Values(basics) => found == Data(basics)
    case SubReader(reader) => reader.Valid() && found == Inside(reader.items)
  }

  /** Each hit is delivered. */
  ghost predicate AllDelivered(got: seq<Got>, hits: seq<Hit>)
    reads set g | g in got && g.SubReader? :: g.reader
  {
    |got| == |hits| && forall i | 0 <= i < |got| :: Delivers(got[i], hits[i].content)
  }

  lemma DeliveredFirst(g: Got, got: seq<Got>, h: Hit, hits: seq<Hit>)
    requires Delivers(g, h.content) && AllDelivered(got, hits)
    ensures AllDelivered([g] + got, [h] + hits)
  {}

  lemma FirstHit(items: seq<Value>, start: nat, ops: seq<Pop>, first: nat)
    requires ops != []
    ensures var n, r := Consumed(items, ops[0]), Result(items, ops[0]);
            var later := Hits(items[n..], start + n, ops[1..], first + 1);
            Hits(items, start, ops, first) == if r.Some? then [Hit(start, first, r.value)] + later else later
  {}

  /** A client that runs any sequence of pops on a reader gets exactly the contents of these hits, each sub-reader
      standing where its pop placed it whatever was popped since, and is left with the rest. */
  method RunPops(reader: MessageReader, ops: seq<Pop>, ghost start: nat, ghost first: nat) returns (got: seq<Got>)
    requires reader.Valid() && forall op | op in ops :: Askable(op)
    modifies reader
    ensures reader.Valid() && reader.items == Rest(old(reader.items), ops)
    ensures AllDelivered(got, Hits(old(reader.items), start, ops, first))
    ensures forall g | g in got && g.SubReader? :: fresh(g.reader)
    decreases |ops|
  {
    if ops == [] {
      return [];
    }
    ghost var taken, result := Consumed(reader.items, ops[0]), Result(reader.items, ops[0]);
    FirstHit(reader.items, start, ops, first);
    var one := PopOnce(reader, ops[0]);
    ghost var later := Hits(reader.items, start + taken, ops[1..], first + 1);
    got := RunPops(reader, ops[1..], start + taken, first + 1);
    if one.Some? {
      DeliveredFirst(one.value, got, Hit(start, first, result.value), later);
      got := [one.value] + got;
    }
  }

  method PopOnce(reader: MessageReader, op: Pop) returns (got: Option<Got>)
    requires reader.Valid() && Askable(op)
    modifies reader
    ensures reader.Valid()
    ensures reader.items == old(reader.items)[Consumed(old(reader.items), op)..]
    ensures got.Some? <==> Result(old(reader.items), op).Some?
    ensures got.Some? ==> Delivers(got.value, Result(old(reader.items), op).value)
    ensures got.Some? && got.value.SubReader? ==> fresh(got.value.reader)
  {
    if op.PopInto? {
      var sub := new MessageReader.Unplaced();
      var ok := reader.PopContainer(op.code, sub);
      return if ok then Some(SubReader(sub)) else None;
    }
    var ok, bs := PopData(reader, op);
    return if ok then Some(Values(bs)) else None;
  }

  method PopData(reader: MessageReader, op: Pop) returns (ok: bool, bs: seq<Basic>)
    requires reader.Valid() && Askable(op) && !op.PopInto?
    modifies reader
    ensures reader.Valid()
    ensures reader.items == old(reader.items)[Consumed(old(reader.items), op)..]
    ensures Result(old(reader.items), op) == if ok then Some(Data(bs)) else None
  {
    match op
    case PopBasicOf(code) => var b; ok, b := reader.PopBasic(code); bs := [b];
    case PopVariantOf(code) => var b; ok, b := reader.PopVariantOfBasic(code); bs := [b];
    case PopArrayOf(code) => ok, bs := reader.PopArray(code);
    case PopFixedArrayOf(code) => ok, bs := reader.PopFixedArray(code);
  }
}
