/** Message::ToString (dbus/message.cc): the cursor-driven printer is the recursive renderer, which prints the tape
    token by token with an indent for every open container. */
module MessagePrinter {
  import opened Wrappers
  import opened MessageCodec
  import opened MessageReading
  import opened MessageText

  // ----- the renderer -----

  /** Number formatting and UTF-8 truncation, left open. */
  datatype Format = Format(number: Basic -> string, truncate: string -> string, size: nat -> string)

  const TRUNCATE_LENGTH := 100

  function Quoted(f: Format, s: string): string {
    if |s| < TRUNCATE_LENGTH then "\"" + s + "\""
    else "\"" + f.truncate(s) + "... (" + f.size(|s|) + " bytes in total)" + "\""
  }

  function Text(f: Format, b: Basic): string {
    match b
    case Byte(_) => "byte " + f.number(b)
    case Bool(v) => "bool " + (if v then "true" else "false")
    case Int16(_) => "int16_t " + f.number(b)
    case Uint16(_) => "uint16_t " + f.number(b)
    case Int32(_) => "int32_t " + f.number(b)
    case Uint32(_) => "uint32_t " + f.number(b)
    case Int64(_) => "int64_t " + f.number(b)
    case Uint64(_) => "uint64_t " + f.number(b)
    case Double(_) => "double " + f.number(b)
    case String(s) => "string " + Quoted(f, s)
    case ObjectPath(p) => "object_path \"" + p + "\""
  }

  /** The recursive renderer. */
  function Render(f: Format, indent: string, v: Value): string
    decreases v, 1
  {
    match v
    case Leaf(b) => indent + Text(f, b) + "\n"
    case Container(kind, items) =>
      var inner := RenderAll(f, indent + "  ", items);
      match kind
      case Array(_) => indent + "array [\n" + inner + indent + "]\n"
      case Struct => indent + "struct {\n" + inner + indent + "}\n"
      case DictEntry => indent + "dict entry {\n" + inner + indent + "}\n"
      case Variant(_) => indent + "variant " + inner
  }

  function RenderAll(f: Format, indent: string, vs: seq<Value>): string
    decreases vs, 0
  {
    if vs == [] then "" else Render(f, indent, vs[0]) + RenderAll(f, indent, vs[1..])
  }

  const BROKEN := "[broken message]"

  predicate EndsLine(s: string) { s != "" && s[|s| - 1] == '\n' }

  /** Everything rendered ends its line, so no rendering is the text for a broken message. */
  lemma {:induction false} RenderEndsLine(f: Format, indent: string, v: Value)
    requires WellTyped(v)
    ensures EndsLine(Render(f, indent, v))
    decreases v, 1
  {
    if v.Container? && v.kind.Variant? { RenderAllEndsLine(f, indent + "  ", v.items); }
  }

  lemma {:induction false} RenderAllEndsLine(f: Format, indent: string, vs: seq<Value>)
    requires AllWellTyped(vs)
    ensures vs != [] ==> EndsLine(RenderAll(f, indent, vs))
    ensures RenderAll(f, indent, vs) != BROKEN
    decreases vs, 0
  {
    if vs != [] {
      RenderEndsLine(f, indent, vs[0]);
      RenderAllEndsLine(f, indent, vs[1..]);
      assert !EndsLine(BROKEN);
    }
  }

  // ----- the tape, token by token -----

  function Spaces(n: nat): string { seq(n, _ => ' ') }

  /** The given indent and two spaces for every open container. */
  function Pad(indent: string, depth: nat): string { indent + Spaces(2 * depth) }

  function Opening(kind: Kind): string {
    match kind
    case Array(_) => "array [\n"
    case Struct => "struct {\n"
    case DictEntry => "dict entry {\n"
    case Variant(_) => "variant "
  }

  function Closing(kind: Kind): string {
    match kind case Array(_) => "]\n" case Struct => "}\n" case DictEntry => "}\n" case Variant(_) => ""
  }

  /** What one token prints, inside these open containers. The end of a variant prints nothing. */
  function Piece(f: Format, indent: string, t: Token, open: seq<Kind>): string {
    match t
    case Item(b) => Pad(indent, |open|) + Text(f, b) + "\n"
    case Begin(kind) => Pad(indent, |open|) + Opening(kind)
    case End =>
      if open == [] || open[|open| - 1].Variant? then ""
      else Pad(indent, |open| - 1) + Closing(open[|open| - 1])
  }

  function After(t: Token, open: seq<Kind>): seq<Kind> {
    match t
    case Item(_) => open
    case Begin(kind) => open + [kind]
    case End => if open == [] then [] else open[..|open| - 1]
  }

  /** What each token prints inside given open containers. */
  type Printer = (Token, seq<Kind>) -> string

  function Pieces(f: Format, indent: string): Printer { (t, open) => Piece(f, indent, t, open) }

  /** The tape printed from left to right, with a stack of the open containers. */
  function PrintTape(p: Printer, tape: seq<Token>, open: seq<Kind>): string {
    if tape == [] then "" else p(tape[0], open) + PrintTape(p, tape[1..], After(tape[0], open))
  }

  lemma TapeStep(p: Printer, t: Token, rest: seq<Token>, open: seq<Kind>)
    ensures PrintTape(p, [t] + rest, open) == p(t, open) + PrintTape(p, rest, After(t, open))
  {
    assert ([t] + rest)[1..] == rest;
  }

  lemma PadMore(indent: string, depth: nat)
    ensures Pad(indent, depth + 1) == Pad(indent, depth) + "  "
  {
    assert Spaces(2 * (depth + 1)) == Spaces(2 * depth) + "  ";
  }

  lemma {:induction false} TapePrintsOne(f: Format, indent: string, v: Value, rest: seq<Token>, open: seq<Kind>)
    ensures PrintTape(Pieces(f, indent), Encode(v) + rest, open)
         == Render(f, Pad(indent, |open|), v) + PrintTape(Pieces(f, indent), rest, open)
    decreases v, 1
  {
    match v
    case Leaf(b) => TapeStep(Pieces(f, indent), Item(b), rest, open);
    case Container(kind, items) =>
      TapePrintsAll(f, indent, items, [End] + rest, open + [kind]);
      PadMore(indent, |open|);
      var text := RenderAll(f, Pad(indent, |open| + 1), items);
      AroundContainer(Pieces(f, indent), kind, EncodeAll(items), text, rest, open);
      ContainerText(f, Pad(indent, |open|), kind, items, PrintTape(Pieces(f, indent), rest, open));
  }

  lemma AroundContainer(p: Printer, kind: Kind, inner: seq<Token>, text: string, rest: seq<Token>, open: seq<Kind>)
    requires PrintTape(p, inner + ([End] + rest), open + [kind]) == text + PrintTape(p, [End] + rest, open + [kind])
    ensures PrintTape(p, [Begin(kind)] + inner + [End] + rest, open)
         == p(Begin(kind), open) + (text + (p(End, open + [kind]) + PrintTape(p, rest, open)))
  {
    assert [Begin(kind)] + inner + [End] + rest == [Begin(kind)] + (inner + ([End] + rest));
    TapeStep(p, Begin(kind), inner + ([End] + rest), open);
    TapeStep(p, End, rest, open + [kind]);
    assert (open + [kind])[..|open|] == open;
  }

  lemma ContainerText(f: Format, pad: string, kind: Kind, items: seq<Value>, rest: string)
    ensures var inner := RenderAll(f, pad + "  ", items);
            Render(f, pad, Container(kind, items)) + rest
            == (pad + Opening(kind)) + (inner + ((if kind.Variant? then "" else pad + Closing(kind)) + rest))
  {}

  lemma {:induction false} TapePrintsAll(
    f: Format, indent: string, vs: seq<Value>, rest: seq<Token>, open: seq<Kind>)
    ensures PrintTape(Pieces(f, indent), EncodeAll(vs) + rest, open)
         == RenderAll(f, Pad(indent, |open|), vs) + PrintTape(Pieces(f, indent), rest, open)
    decreases vs, 0
  {
    if vs == [] {
      assert EncodeAll(vs) + rest == rest;
    } else {
      var tail := EncodeAll(vs[1..]) + rest;
      assert EncodeAll(vs) + rest == Encode(vs[0]) + tail;
      TapePrintsOne(f, indent, vs[0], tail, open);
      TapePrintsAll(f, indent, vs[1..], rest, open);
    }
  }

  /** The recursive renderer prints what the left-to-right walk over the tape prints. */
  lemma RendererPrintsTape(f: Format, indent: string, vs: seq<Value>)
    ensures RenderAll(f, indent, vs) == PrintTape(Pieces(f, indent), EncodeAll(vs), [])
  {
    TapePrintsAll(f, indent, vs, [], []);
    assert EncodeAll(vs) + [] == EncodeAll(vs);
    assert Pad(indent, 0) == indent;
  }

  // ----- the printer -----

  /** One round of the loop of ToStringInternal. A pop that did not match the type just seen would print BROKEN. */
  method PrintNext(f: Format, indent: string, reader: MessageReader) returns (output: string)
    requires reader.Valid() && reader.items != []
    modifies reader
    ensures reader.Valid() && reader.items == old(reader.items)[1..]
    ensures output == Render(f, indent, old(reader.items)[0])
    decreases |EncodeAll(reader.items)|, 0
  {
    ghost var all := reader.items;
    var code := reader.GetDataType();
    if BasicCode(code) {
      var ok, b := reader.PopBasic(code);
      return if ok then indent + Text(f, b) + "\n" else BROKEN;
    }
    ContainerIsLarger(all);
    var sub := new MessageReader.Unplaced();
    var ok := reader.PopContainer(code, sub);
    var inner := ToStringInternal(f, indent + "  ", sub);
    return if !ok then BROKEN
           else if code == 'a' then indent + "array [\n" + inner + indent + "]\n"
           else if code == 'r' then indent + "struct {\n" + inner + indent + "}\n"
           else if code == 'e' then indent + "dict entry {\n" + inner + indent + "}\n"
           else indent + "variant " + inner;
  }

  /** What is printed so far, and what the rest will print, make up the whole. */
  ghost predicate Printed(f: Format, indent: string, all: seq<Value>, output: string, rest: seq<Value>) {
    RenderAll(f, indent, all) == output + RenderAll(f, indent, rest) && |EncodeAll(rest)| <= |EncodeAll(all)|
  }

  lemma PrintedMore(f: Format, indent: string, all: seq<Value>, output: string, rest: seq<Value>)
    requires Printed(f, indent, all, output, rest) && rest != []
    ensures Printed(f, indent, all, output + Render(f, indent, rest[0]), rest[1..])
  {
    var head, tail := Render(f, indent, rest[0]), RenderAll(f, indent, rest[1..]);
    assert output + (head + tail) == output + head + tail;
  }

  /** ToStringInternal terminates on every well-formed message and prints the tape token by token, which is what
      the renderer prints and never the text for a broken message. */
  method ToStringInternal(f: Format, indent: string, reader: MessageReader) returns (output: string)
    requires reader.Valid()
    modifies reader
    ensures reader.Valid() && reader.items == []
    ensures output == PrintTape(Pieces(f, indent), EncodeAll(old(reader.items)), [])
    ensures output == RenderAll(f, indent, old(reader.items)) && output != BROKEN
    decreases |EncodeAll(reader.items)|, 1
  {
    RenderAllEndsLine(f, indent, reader.items);
    RendererPrintsTape(f, indent, reader.items);
    output := "";
    ghost var all := reader.items;
    var more := reader.HasMoreData();
    while more
      invariant reader.Valid() && more == (reader.items != [])
      invariant Printed(f, indent, all, output, reader.items)
      decreases |reader.items|
    {
      PrintedMore(f, indent, all, output, reader.items);
      var text := PrintNext(f, indent, reader);
      output := output + text;
      more := reader.HasMoreData();
    }
  }
}
