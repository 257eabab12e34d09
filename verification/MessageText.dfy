/** Whole messages: what is written is read back as the wire carries it. */
module MessageText {
  import opened MessageCodec
  import opened MessageReading

  // ----- well-typed values stay well-typed on the wire -----

  lemma {:induction false} WireTyped(v: Value)
    ensures Signature(Wire(v)) == Signature(v)
    ensures WellTyped(v) ==> WellTyped(Wire(v))
    decreases v, 1
  {
    if v.Container? {
      WireAllTyped(v.items);
      var w := WireAll(v.items);
      if WellTyped(v) {
        forall x | x in w ensures WellTyped(x) && (v.kind.Array? ==> Signature(x) == v.kind.element) {
          var i :| 0 <= i < |w| && w[i] == x;
          assert v.items[i] in v.items;
        }
      }
    }
  }

  lemma {:induction false} WireAllTyped(vs: seq<Value>)
    ensures Signatures(WireAll(vs)) == Signatures(vs)
    ensures forall i | 0 <= i < |vs| :: WireAll(vs)[i] == Wire(vs[i]) && Signature(WireAll(vs)[i]) == Signature(vs[i])
    ensures forall i | 0 <= i < |vs| :: WellTyped(vs[i]) ==> WellTyped(WireAll(vs)[i])
    decreases vs, 0
  {
    if vs != [] {
      WireTyped(vs[0]);
      WireAllTyped(vs[1..]);
      var w := WireAll(vs);
      assert w[0] == Wire(vs[0]) && w[1..] == WireAll(vs[1..]);
      forall i | 0 < i < |vs| ensures w[i] == WireAll(vs[1..])[i - 1] && vs[i] == vs[1..][i - 1] { }
    }
  }

  // ----- reading a whole message back -----

  lemma ContainerIsLarger(vs: seq<Value>)
    requires vs != [] && vs[0].Container?
    ensures |EncodeAll(vs[0].items)| < |EncodeAll(vs)|
  {}

  /** A client that pops whatever comes next, recursing into containers. */
  method ReadNext(reader: MessageReader) returns (v: Value)
    requires reader.Valid() && reader.items != []
    modifies reader
    ensures reader.Valid() && reader.items == old(reader.items)[1..] && v == old(reader.items)[0]
    decreases |EncodeAll(reader.items)|, 0
  {
    ghost var all := reader.items;
    var signature := reader.GetDataSignature();
    var code := reader.GetDataType();
    if BasicCode(code) {
      var _, b := reader.PopBasic(code);
      return Leaf(b);
    }
    ContainerIsLarger(all);
    KindTold(all[0]);
    var sub := new MessageReader.Unplaced();
    var _ := reader.PopContainer(code, sub);
    var content := sub.GetDataSignature();
    var inner := ReadAll(sub);
    return Container(KindOf(code, signature, content), inner);
  }

  /** The kind of a container, from its type code, its signature and the signature of what is inside. */
  function KindOf(code: char, signature: string, content: string): Kind {
    if code == 'a' then Array(if signature == "" then "" else signature[1..])
    else if code == 'v' then Variant(content)
    else if code == 'r' then Struct
    else DictEntry
  }

  lemma KindTold(v: Value)
    requires WellTyped(v) && v.Container?
    ensures forall content :: (v.items != [] ==> content == Signature(v.items[0])) ==>
              KindOf(TypeCode(v), Signature(v), content) == v.kind
  {
    if v.kind.Array? { assert Signature(v)[1..] == v.kind.element; }
  }

  method ReadAll(reader: MessageReader) returns (vs: seq<Value>)
    requires reader.Valid()
    modifies reader
    ensures reader.Valid() && reader.items == [] && vs == old(reader.items)
    decreases |EncodeAll(reader.items)|, 1
  {
    vs := [];
    ghost var all := reader.items;
    var more := reader.HasMoreData();
    while more
      invariant reader.Valid() && more == (reader.items != [])
      invariant all == vs + reader.items
      invariant |EncodeAll(reader.items)| <= |EncodeAll(all)|
      decreases |reader.items|
    {
      var v := ReadNext(reader);
      vs := vs + [v];
      more := reader.HasMoreData();
    }
  }

  /** Writing values and popping them back: every value returns as the wire carries it, with no data left over. */
  method WriteThenRead(vs: seq<Value>) returns (back: seq<Value>, more: bool)
    requires AllWellTyped(vs)
    ensures back == WireAll(vs) && !more
    ensures back == vs <==> AllNulFree(vs)
  {
    var m := WriteMessage(vs);
    WireAllTyped(vs);
    WireAllExact(vs);
    var reader := new MessageReader(m, WireAll(vs));
    back := ReadAll(reader);
    more := reader.HasMoreData();
  }
}
