/** Values, message tapes and MessageWriter (dbus/message.cc).

    The body of a libdbus message is modelled as a flat tape of tokens; a libdbus iterator is a position on it.
    What dbus_message_iter_append_basic, open_container, close_container, get_arg_type, recurse, next and
    get_fixed_array do to tape and position is assumed, and written out in the methods that call them. */
module MessageCodec {

  // ----- values -----

  datatype Basic =
    | Byte(byte: int) | Bool(b: bool) | Int16(int16: int) | Uint16(uint16: int) | Int32(int32: int)
    | Uint32(uint32: int) | Int64(int64: int) | Uint64(uint64: int) | Double(bits: int)
    | String(text: string) | ObjectPath(path: string)

  datatype Kind = Array(element: string) | Variant(content: string) | Struct | DictEntry

  datatype Value = Leaf(basic: Basic) | Container(kind: Kind, items: seq<Value>)

  /** D-Bus type codes. '\0' is DBUS_TYPE_INVALID. */
  function Code(b: Basic): char {
    match b
    case Byte(_) => 'y' case Bool(_) => 'b' case Int16(_) => 'n' case Uint16(_) => 'q' case Int32(_) => 'i'
    case Uint32(_) => 'u' case Int64(_) => 'x' case Uint64(_) => 't' case Double(_) => 'd'
    case String(_) => 's' case ObjectPath(_) => 'o'
  }

  function KindCode(k: Kind): char {
    match k case Array(_) => 'a' case Variant(_) => 'v' case Struct => 'r' case DictEntry => 'e'
  }

  predicate BasicCode(code: char) { code in {'y', 'b', 'n', 'q', 'i', 'u', 'x', 't', 'd', 's', 'o'} }
  predicate ContainerCode(code: char) { code in {'a', 'v', 'r', 'e'} }

  function TypeCode(v: Value): char { if v.Leaf? then Code(v.basic) else KindCode(v.kind) }

  function Signature(v: Value): string
    decreases v, 1
  {
    match v
    case Leaf(b) => [Code(b)]
    case Container(Array(element), _) => "a" + element
    case Container(Variant(_), _) => "v"
    case Container(Struct, items) => "(" + Signatures(items) + ")"
    case Container(DictEntry, items) => "{" + Signatures(items) + "}"
  }

  function Signatures(vs: seq<Value>): string
    decreases vs, 0
  {
    if vs == [] then "" else Signature(vs[0]) + Signatures(vs[1..])
  }

  /** The type codes of the "Type System" section of the D-Bus Specification, and the signatures of containers. */
  lemma TypeCodes(n: int, b: bool, s: string, element: string, items: seq<Value>, key: Basic, value: Value)
    ensures Code(Byte(n)) == 'y' && Code(Bool(b)) == 'b' && Code(Int16(n)) == 'n' && Code(Uint16(n)) == 'q'
    ensures Code(Int32(n)) == 'i' && Code(Uint32(n)) == 'u' && Code(Int64(n)) == 'x' && Code(Uint64(n)) == 't'
    ensures Code(Double(n)) == 'd' && Code(String(s)) == 's' && Code(ObjectPath(s)) == 'o'
    ensures TypeCode(Container(Array(element), items)) == 'a' && TypeCode(Container(Variant(element), items)) == 'v'
    ensures TypeCode(Container(Struct, items)) == 'r' && TypeCode(Container(DictEntry, items)) == 'e'
    ensures Signature(Container(Array(element), items)) == "a" + element
    ensures Signature(Container(Variant(element), items)) == "v"
    ensures Signature(Container(Struct, [Leaf(key), value])) == "(" + [Code(key)] + Signature(value) + ")"
    ensures Signature(Container(DictEntry, [Leaf(key), value])) == "{" + [Code(key)] + Signature(value) + "}"
  {
    var pair := [Leaf(key), value];
    assert pair[1..] == [value] && pair[1..][1..] == [];
    assert Signatures([value]) == Signature(value) + Signatures([]) == Signature(value);
    assert Signatures(pair) == [Code(key)] + Signature(value);
  }

  /** Correct signatures: what libdbus demands of a writer and guarantees of a received message. */
  ghost predicate WellTyped(v: Value) {
    match v
    case Leaf(_) => true
    case Container(kind, items) =>
      && (forall x | x in items :: WellTyped(x))
      && (kind.Array? ==> forall x | x in items :: Signature(x) == kind.element)
      && (kind.Variant? ==> |items| == 1 && Signature(items[0]) == kind.content)
      && (kind.Struct? ==> items != [])
      && (kind.DictEntry? ==> |items| == 2 && items[0].Leaf?)
  }

  ghost predicate AllWellTyped(vs: seq<Value>) { forall x | x in vs :: WellTyped(x) }

  // ----- tapes -----

  datatype Token = Item(basic: Basic) | Begin(kind: Kind) | End

  function Encode(v: Value): seq<Token>
    decreases v, 1
  {
    match v
    case Leaf(b) => [Item(b)]
    case Container(kind, items) => [Begin(kind)] + EncodeAll(items) + [End]
  }

  function EncodeAll(vs: seq<Value>): seq<Token>
    decreases vs, 0
  {
    if vs == [] then [] else Encode(vs[0]) + EncodeAll(vs[1..])
  }

  lemma {:induction false} EncodeAppend(vs: seq<Value>, v: Value)
    ensures EncodeAll(vs + [v]) == EncodeAll(vs) + Encode(v)
  {
    if vs == [] {
      assert (vs + [v])[1..] == [];
    } else {
      assert (vs + [v])[1..] == vs[1..] + [v];
      EncodeAppend(vs[1..], v);
    }
  }

  /** dbus_message_iter_get_arg_type. */
  function ArgType(tape: seq<Token>, pos: nat): char {
    if pos >= |tape| || tape[pos].End? then '\0'
    else if tape[pos].Item? then Code(tape[pos].basic) else KindCode(tape[pos].kind)
  }

  /** dbus_message_iter_next: the position behind the item at `pos`, with `depth` containers open. */
  function Next(tape: seq<Token>, pos: nat, depth: nat): (r: nat)
    ensures r >= pos && (pos < |tape| ==> r > pos)
    decreases |tape| - pos
  {
    if pos >= |tape| then pos
    else match tape[pos]
      case Item(_) => if depth == 0 then pos + 1 else Next(tape, pos + 1, depth)
      case Begin(_) => Next(tape, pos + 1, depth + 1)
      case End => if depth <= 1 then pos + 1 else Next(tape, pos + 1, depth - 1)
  }

  ghost predicate At(tape: seq<Token>, pos: nat, part: seq<Token>) {
    pos + |part| <= |tape| && tape[pos..pos + |part|] == part
  }

  lemma AtSplit(tape: seq<Token>, pos: nat, x: seq<Token>, y: seq<Token>)
    requires At(tape, pos, x + y)
    ensures At(tape, pos, x) && At(tape, pos + |x|, y)
  {
    assert x == (x + y)[..|x|] && y == (x + y)[|x|..];
  }

  /** An iterator skips exactly the item it stands on, whatever its nesting. */
  lemma {:induction false} NextSkips(tape: seq<Token>, pos: nat, v: Value, depth: nat)
    requires At(tape, pos, Encode(v))
    ensures Next(tape, pos, depth)
         == if depth == 0 then pos + |Encode(v)| else Next(tape, pos + |Encode(v)|, depth)
    decreases v, 1
  {
    if v.Leaf? {
      assert tape[pos] == tape[pos..pos + 1][0];
    } else {
      var inner := EncodeAll(v.items);
      assert Encode(v) == [Begin(v.kind)] + (inner + [End]);
      AtSplit(tape, pos, [Begin(v.kind)], inner + [End]);
      AtSplit(tape, pos + 1, inner, [End]);
      assert tape[pos] == tape[pos..pos + 1][0];
      var close := pos + 1 + |inner|;
      assert tape[close] == tape[close..close + 1][0];
      NextSkipsAll(tape, pos + 1, v.items, depth + 1);
    }
  }

  lemma {:induction false} NextSkipsAll(tape: seq<Token>, pos: nat, vs: seq<Value>, depth: nat)
    requires At(tape, pos, EncodeAll(vs)) && depth > 0
    ensures Next(tape, pos, depth) == Next(tape, pos + |EncodeAll(vs)|, depth)
    decreases vs, 0
  {
    if vs != [] {
      AtSplit(tape, pos, Encode(vs[0]), EncodeAll(vs[1..]));
      NextSkips(tape, pos, vs[0], depth);
      NextSkipsAll(tape, pos + |Encode(vs[0])|, vs[1..], depth);
    }
  }

  /** dbus_message_iter_get_signature: the signature of the item at a position. Of a variant it tells only that it is
      one; of an array also the element type, whether or not there are elements. */
  function SignatureAt(tape: seq<Token>, pos: nat): string
    decreases |tape| - pos, 0
  {
    if pos >= |tape| then ""
    else match tape[pos]
      case Item(b) => [Code(b)]
      case Begin(Array(element)) => "a" + element
      case Begin(Variant(_)) => "v"
      case Begin(Struct) => "(" + SignaturesAt(tape, pos + 1) + ")"
      case Begin(DictEntry) => "{" + SignaturesAt(tape, pos + 1) + "}"
      case End => ""
  }

  function SignaturesAt(tape: seq<Token>, pos: nat): string
    decreases |tape| - pos, 1
  {
    if pos >= |tape| || tape[pos].End? then "" else SignatureAt(tape, pos) + SignaturesAt(tape, Next(tape, pos, 0))
  }

  /** The signature read off the tape is the signature of the value written there. */
  lemma {:induction false} SignatureSeen(tape: seq<Token>, pos: nat, v: Value)
    requires At(tape, pos, Encode(v))
    ensures SignatureAt(tape, pos) == Signature(v)
    decreases v, 1
  {
    assert tape[pos] == tape[pos..pos + |Encode(v)|][0];
    if v.Container? && (v.kind.Struct? || v.kind.DictEntry?) {
      assert Encode(v) == [Begin(v.kind)] + (EncodeAll(v.items) + [End]);
      AtSplit(tape, pos, [Begin(v.kind)], EncodeAll(v.items) + [End]);
      AtSplit(tape, pos + 1, EncodeAll(v.items), [End]);
      var close := pos + 1 + |EncodeAll(v.items)|;
      assert tape[close] == tape[close..close + 1][0];
      SignaturesSeen(tape, pos + 1, v.items);
    }
  }

  lemma {:induction false} SignaturesSeen(tape: seq<Token>, pos: nat, vs: seq<Value>)
    requires At(tape, pos, EncodeAll(vs)) && EndsAt(tape, pos + |EncodeAll(vs)|)
    ensures SignaturesAt(tape, pos) == Signatures(vs)
    decreases vs, 0
  {
    if vs != [] {
      AtSplit(tape, pos, Encode(vs[0]), EncodeAll(vs[1..]));
      SignatureSeen(tape, pos, vs[0]);
      SignaturesSeen(tape, pos + |Encode(vs[0])|, vs[1..]);
      SignaturesJoin(tape, pos, vs);
    }
  }

  lemma SignaturesJoin(tape: seq<Token>, pos: nat, vs: seq<Value>)
    requires vs != [] && At(tape, pos, Encode(vs[0])) && SignatureAt(tape, pos) == Signature(vs[0])
    requires SignaturesAt(tape, pos + |Encode(vs[0])|) == Signatures(vs[1..])
    ensures SignaturesAt(tape, pos) == Signatures(vs)
  {
    SignaturesStep(tape, pos, vs[0]);
  }

  predicate EndsAt(tape: seq<Token>, pos: nat) { pos < |tape| && tape[pos].End? }

  lemma SignaturesStep(tape: seq<Token>, pos: nat, v: Value)
    requires At(tape, pos, Encode(v))
    ensures SignaturesAt(tape, pos) == SignatureAt(tape, pos) + SignaturesAt(tape, pos + |Encode(v)|)
  {
    assert tape[pos] == tape[pos..pos + |Encode(v)|][0];
    NextSkips(tape, pos, v, 0);
  }

  // ----- C strings -----

  /** The text libdbus copies from a C string: everything before the first NUL. */
  function CString(s: string): string {
    if s == [] || s[0] == '\0' then [] else [s[0]] + CString(s[1..])
  }

  lemma {:induction false} CStringExact(s: string)
    ensures CString(s) == s <==> '\0' !in s
  {
    if s != [] {
      assert s == [s[0]] + s[1..];
      CStringExact(s[1..]);
    }
  }

  /** It is the longest beginning without a NUL. */
  lemma {:induction false} CStringCuts(s: string)
    ensures CString(s) <= s && '\0' !in CString(s)
    ensures CString(s) != s ==> |CString(s)| < |s| && s[|CString(s)|] == '\0'
  {
    if s != [] && s[0] != '\0' {
      CStringCuts(s[1..]);
      assert s == [s[0]] + s[1..];
    }
  }

  function WireBasic(b: Basic): Basic {
    match b
    case String(s) => String(CString(s))
    case ObjectPath(p) => ObjectPath(CString(p))
    case _ => b
  }

  /** What a value becomes on the wire. */
  function Wire(v: Value): Value
    decreases v, 1
  {
    match v
    case Leaf(b) => Leaf(WireBasic(b))
    case Container(kind, items) => Container(kind, WireAll(items))
  }

  function WireAll(vs: seq<Value>): (r: seq<Value>)
    ensures |r| == |vs|
    decreases vs, 0
  {
    if vs == [] then [] else [Wire(vs[0])] + WireAll(vs[1..])
  }

  predicate NulFree(v: Value)
    decreases v, 1
  {
    match v
    case Leaf(String(s)) => '\0' !in s
    case Leaf(ObjectPath(p)) => '\0' !in p
    case Leaf(_) => true
    case Container(_, items) => AllNulFree(items)
  }

  predicate AllNulFree(vs: seq<Value>)
    decreases vs, 0
  {
    vs == [] || (NulFree(vs[0]) && AllNulFree(vs[1..]))
  }

  /** The text is cut at its first NUL. */
  ghost predicate Cut(s: string, t: string) {
    t <= s && '\0' !in t && (t != s ==> s[|t|] == '\0')
  }

  /** On the wire the texts are cut at their first NUL, and nothing else changes. */
  lemma WireCuts(v: Value)
    ensures match v
            case Leaf(String(s)) => Wire(v).Leaf? && Wire(v).basic.String? && Cut(s, Wire(v).basic.text)
            case Leaf(ObjectPath(p)) => Wire(v).Leaf? && Wire(v).basic.ObjectPath? && Cut(p, Wire(v).basic.path)
            case Leaf(_) => Wire(v) == v
            case Container(kind, items) =>
              && Wire(v).Container? && Wire(v).kind == kind && |Wire(v).items| == |items|
              && forall i | 0 <= i < |items| :: Wire(v).items[i] == Wire(items[i])
  {
    match v
    case Leaf(String(s)) => CStringCuts(s);
    case Leaf(ObjectPath(p)) => CStringCuts(p);
    case Leaf(_) =>
    case Container(_, items) => WireEach(items);
  }

  lemma {:induction false} WireEach(vs: seq<Value>)
    ensures forall i | 0 <= i < |vs| :: WireAll(vs)[i] == Wire(vs[i])
    decreases |vs|
  {
    if vs != [] {
      WireEach(vs[1..]);
      assert WireAll(vs)[0] == Wire(vs[0]);
      assert forall i | 0 < i < |vs| :: WireAll(vs)[i] == WireAll(vs[1..])[i - 1] && vs[i] == vs[1..][i - 1];
    }
  }

  lemma {:induction false} WireExact(v: Value)
    ensures Wire(v) == v <==> NulFree(v)
    decreases v, 1
  {
    match v
    case Leaf(String(s)) => CStringExact(s);
    case Leaf(ObjectPath(p)) => CStringExact(p);
    case Leaf(_) =>
    case Container(_, items) => WireAllExact(items);
  }

  lemma {:induction false} WireAllExact(vs: seq<Value>)
    ensures WireAll(vs) == vs <==> AllNulFree(vs)
    decreases vs, 0
  {
    if vs != [] {
      WireExact(vs[0]);
      WireAllExact(vs[1..]);
      var w := WireAll(vs);
      assert w[0] == Wire(vs[0]) && w[1..] == WireAll(vs[1..]);
      if w == vs { assert w[1..] == vs[1..]; }
      if AllNulFree(vs) { assert w == [vs[0]] + vs[1..]; }
    }
  }

  // ----- the writer -----

  class Message {
    var body: seq<Token>
    constructor () ensures body == [] { body := []; }
  }

  class MessageWriter {
    const message: Message
    var containerIsOpen: bool

    constructor (message: Message)
      ensures this.message == message && !containerIsOpen
    {
      this.message, containerIsOpen := message, false;
    }

    method AppendBasic(b: Basic)
      requires !containerIsOpen
      modifies message
      ensures message.body == old(message.body) + [Item(WireBasic(b))]
    {
      message.body := message.body + [Item(WireBasic(b))];
    }

    method OpenContainer(kind: Kind, writer: MessageWriter)
      requires !containerIsOpen && writer != this && writer.message == message
      modifies this, message
      ensures containerIsOpen && message.body == old(message.body) + [Begin(kind)]
    {
      message.body := message.body + [Begin(kind)];
      containerIsOpen := true;
    }

    method CloseContainer(writer: MessageWriter)
      requires containerIsOpen && writer != this && writer.message == message
      modifies this, message
      ensures !containerIsOpen && message.body == old(message.body) + [End]
    {
      message.body := message.body + [End];
      containerIsOpen := false;
    }

    /** AppendVariantOfBasic: the signature is the one-character type code. */
    method AppendVariantOfBasic(b: Basic)
      requires !containerIsOpen
      modifies this, message
      ensures !containerIsOpen
      ensures message.body == old(message.body) + Encode(Wire(Container(Variant([Code(b)]), [Leaf(b)])))
    {
      var variantWriter := new MessageWriter(message);
      OpenContainer(Variant([Code(b)]), variantWriter);
      variantWriter.AppendBasic(b);
      CloseContainer(variantWriter);
      var content := [Leaf(b)];
      assert content[1..] == [];
      assert WireAll(content) == [Leaf(WireBasic(b))];
      assert EncodeAll([Leaf(WireBasic(b))]) == [Item(WireBasic(b))];
    }

    /** AppendArrayOfStrings, AppendArrayOfObjectPaths: one append for each element. */
    method AppendArrayOf(code: char, elements: seq<Basic>)
      requires !containerIsOpen
      modifies this, message
      ensures !containerIsOpen
      ensures message.body == old(message.body) + Encode(Wire(Container(Array([code]), Leaves(elements))))
    {
      var arrayWriter := new MessageWriter(message);
      OpenContainer(Array([code]), arrayWriter);
      var i := 0;
      while i < |elements|
        invariant 0 <= i <= |elements| && !arrayWriter.containerIsOpen && containerIsOpen
        invariant message.body == old(message.body) + [Begin(Array([code]))] + EncodeAll(WireAll(Leaves(elements[..i])))
      {
        AppendLeaf(elements[..i], elements[i]);
        assert elements[..i] + [elements[i]] == elements[..i + 1];
        arrayWriter.AppendBasic(elements[i]);
        i := i + 1;
      }
      assert elements[..i] == elements;
      CloseContainer(arrayWriter);
    }
  }

  function Leaves(bs: seq<Basic>): seq<Value> { seq(|bs|, i requires 0 <= i < |bs| => Leaf(bs[i])) }

  lemma {:induction false} WireAllAppend(vs: seq<Value>, v: Value)
    ensures WireAll(vs + [v]) == WireAll(vs) + [Wire(v)]
  {
    if vs == [] {
      assert (vs + [v])[1..] == [];
    } else {
      assert (vs + [v])[1..] == vs[1..] + [v];
      WireAllAppend(vs[1..], v);
    }
  }

  lemma AppendLeaf(bs: seq<Basic>, b: Basic)
    ensures EncodeAll(WireAll(Leaves(bs + [b]))) == EncodeAll(WireAll(Leaves(bs))) + [Item(WireBasic(b))]
  {
    assert Leaves(bs + [b]) == Leaves(bs) + [Leaf(b)];
    WireAllAppend(Leaves(bs), Leaf(b));
    EncodeAppend(WireAll(Leaves(bs)), Wire(Leaf(b)));
  }

  /** A client that writes any tree with bracketed open, append and close calls. */
  method WriteValue(w: MessageWriter, v: Value)
    requires !w.containerIsOpen && WellTyped(v)
    modifies w, w.message
    ensures !w.containerIsOpen && w.message.body == old(w.message.body) + Encode(Wire(v))
    decreases v, 1
  {
    match v
    case Leaf(b) => w.AppendBasic(b);
    case Container(kind, items) =>
      var sub := new MessageWriter(w.message);
      w.OpenContainer(kind, sub);
      WriteAll(sub, items);
      w.CloseContainer(sub);
  }

  method WriteAll(w: MessageWriter, vs: seq<Value>)
    requires !w.containerIsOpen && AllWellTyped(vs)
    modifies w, w.message
    ensures !w.containerIsOpen && w.message.body == old(w.message.body) + EncodeAll(WireAll(vs))
    decreases vs, 0
  {
    var i := 0;
    while i < |vs|
      invariant 0 <= i <= |vs| && !w.containerIsOpen
      invariant w.message.body == old(w.message.body) + EncodeAll(WireAll(vs[..i]))
    {
      WireAllAppend(vs[..i], vs[i]);
      EncodeAppend(WireAll(vs[..i]), Wire(vs[i]));
      assert vs[..i] + [vs[i]] == vs[..i + 1];
      WriteValue(w, vs[i]);
      i := i + 1;
    }
    assert vs[..i] == vs;
  }

  method WriteMessage(vs: seq<Value>) returns (m: Message)
    requires AllWellTyped(vs)
    ensures fresh(m) && m.body == EncodeAll(WireAll(vs))
  {
    m := new Message();
    var w := new MessageWriter(m);
    WriteAll(w, vs);
  }
}
