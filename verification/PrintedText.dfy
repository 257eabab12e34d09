/** What the text of a printed message says: how its lines are indented, and which values it stands for. */
module PrintedText {
  import opened Wrappers
  import opened MessageCodec
  import opened MessagePrinter

  // ----- lines -----

  /** The basic value prints on one line. */
  predicate OneLine(f: Format, b: Basic) { '\n' !in Text(f, b) }

  ghost predicate TapeOneLine(f: Format, tape: seq<Token>) {
    forall t | t in tape && t.Item? :: OneLine(f, t.basic)
  }

  /** How many containers are open behind these tokens, counted without looking at their kinds. */
  function Depth(tokens: seq<Token>, depth: nat): nat {
    if tokens == [] then depth else Depth(tokens[1..], Deeper(tokens[0], depth))
  }

  /** The token that ends a container belongs to the depth of the one that began it. */
  function Level(t: Token, depth: nat): nat { if t.End? && depth > 0 then depth - 1 else depth }

  function Deeper(t: Token, depth: nat): nat {
    match t case Item(_) => depth case Begin(_) => depth + 1 case End => if depth == 0 then 0 else depth - 1
  }

  predicate LineStart(s: string, k: nat) { k < |s| && (k == 0 || s[k - 1] == '\n') }

  /** A position in a text. */
  datatype Place = Place(text: string, at: nat)

  /** From here on, the text goes on with the indent, two spaces a level, and something that is no space. */
  predicate Indented(p: Place, indent: string, depth: nat) {
    match p
    case Place(s, k) =>
      var pad := Pad(indent, depth);
      k + |pad| < |s| && s[k..k + |pad|] == pad && s[k + |pad|] != ' '
  }

  /** A piece begins with its indent, has a newline only at its end, and has one unless it begins a variant. */
  lemma PieceShape(f: Format, indent: string, t: Token, open: seq<Kind>)
    requires '\n' !in indent && (t.Item? ==> OneLine(f, t.basic))
    ensures var s, depth := Piece(f, indent, t, open), Level(t, |open|);
            s != "" ==>
              && Indented(Place(s, 0), indent, depth)
              && (forall i | 0 <= i < |s| - 1 :: s[i] != '\n')
              && (s[|s| - 1] == '\n' <==> !(t.Begin? && t.kind.Variant?))
  {
    WordShape(f, t, open);
    if Piece(f, indent, t, open) != "" {
      PieceIsPadded(f, indent, t, open);
      PaddedWord(indent, Level(t, |open|), Word(f, t, open));
    }
  }

  lemma PieceIsPadded(f: Format, indent: string, t: Token, open: seq<Kind>)
    requires Piece(f, indent, t, open) != ""
    ensures Word(f, t, open) != ""
    ensures Piece(f, indent, t, open) == Pad(indent, Level(t, |open|)) + Word(f, t, open)
  {
    match t
    case Item(b) => Associative(Pad(indent, |open|), Text(f, b), "\n");
    case Begin(_) =>
    case End =>
  }

  lemma PaddedWord(indent: string, depth: nat, word: string)
    requires '\n' !in indent && word != "" && word[0] != ' ' && forall i | 0 <= i < |word| - 1 :: word[i] != '\n'
    ensures var s := Pad(indent, depth) + word;
            && Indented(Place(s, 0), indent, depth)
            && (forall i | 0 <= i < |s| - 1 :: s[i] != '\n') && s[|s| - 1] == word[|word| - 1]
  {
    var pad := Pad(indent, depth);
    var s := pad + word;
    assert s[0..0 + |pad|] == pad && s[|pad|] == word[0];
    assert forall i | 0 <= i < |pad| :: s[i] == pad[i] != '\n';
    assert forall i | |pad| <= i < |s| :: s[i] == word[i - |pad|];
  }

  /** The word behind the indent. */
  function Word(f: Format, t: Token, open: seq<Kind>): string {
    match t
    case Item(b) => Text(f, b) + "\n"
    case Begin(kind) => Opening(kind)
    case End => if open == [] || open[|open| - 1].Variant? then "" else Closing(open[|open| - 1])
  }

  lemma WordShape(f: Format, t: Token, open: seq<Kind>)
    requires t.Item? ==> OneLine(f, t.basic)
    ensures var s := Word(f, t, open);
            s != "" ==>
              && s[0] != ' '
              && (forall i | 0 <= i < |s| - 1 :: s[i] != '\n')
              && (s[|s| - 1] == '\n' <==> !(t.Begin? && t.kind.Variant?))
  {
    if t.Item? { assert forall i | 0 <= i < |Text(f, t.basic)| :: Text(f, t.basic)[i] in Text(f, t.basic); }
  }

  /** A piece begins with its indent and has a newline only at its end. */
  ghost predicate Shaped(p: Printer, indent: string, t: Token, open: seq<Kind>) {
    p(t, open) != "" ==> Indented(Place(p(t, open), 0), indent, Level(t, |open|)) && OnlyLastEnds(p(t, open))
  }

  predicate OnlyLastEnds(s: string) { forall i | 0 <= i < |s| - 1 :: s[i] != '\n' }

  ghost predicate AllShaped(p: Printer, indent: string, tape: seq<Token>) {
    forall t, open | t in tape :: Shaped(p, indent, t, open)
  }

  /** The containers open behind these tokens. */
  function Behind(tokens: seq<Token>, open: seq<Kind>): seq<Kind> {
    if tokens == [] then open else Behind(tokens[1..], After(tokens[0], open))
  }

  lemma {:induction false} DepthBehind(tokens: seq<Token>, open: seq<Kind>)
    ensures |Behind(tokens, open)| == Depth(tokens, |open|)
    decreases |tokens|
  {
    if tokens != [] {
      assert |After(tokens[0], open)| == Deeper(tokens[0], |open|);
      DepthBehind(tokens[1..], After(tokens[0], open));
    }
  }

  lemma {:induction false} TapeThen(p: Printer, tokens: seq<Token>, t: Token, open: seq<Kind>)
    ensures PrintTape(p, tokens + [t], open) == PrintTape(p, tokens, open) + p(t, Behind(tokens, open))
    decreases |tokens|
  {
    if tokens == [] {
      assert tokens + [t] == [t] && [t][1..] == [];
    } else {
      var inside := After(tokens[0], open);
      assert (tokens + [t])[1..] == tokens[1..] + [t];
      TapeThen(p, tokens[1..], t, inside);
      Associative(p(tokens[0], open), PrintTape(p, tokens[1..], inside), p(t, Behind(tokens[1..], inside)));
    }
  }

  /** A token of the tape, with the tokens before it, begins at this position of the text with its indent. */
  ghost predicate BegunBy(p: Printer, indent: string, at: Place, before: seq<Token>, t: Token) {
    match at
    case Place(s, k) => k == |PrintTape(p, before, [])| && Indented(at, indent, Level(t, Depth(before, 0)))
  }

  lemma {:induction false} LinesOfTape(p: Printer, indent: string, tape: seq<Token>, k: nat)
    returns (before: seq<Token>, t: Token)
    requires AllShaped(p, indent, tape) && LineStart(PrintTape(p, tape, []), k)
    ensures before + [t] <= tape && BegunBy(p, indent, Place(PrintTape(p, tape, []), k), before, t)
    decreases |tape|
  {
    var n := |tape| - 1;
    var front, last := tape[..n], tape[n];
    assert tape == front + [last];
    var s, piece := PrintTape(p, front, []), p(last, Behind(front, []));
    TapeThen(p, front, last, []);
    if k < |s| {
      StartBefore(s, piece, k);
      before, t := LinesOfTape(p, indent, front, k);
      BegunStays(p, indent, s, piece, k, before, t);
    } else {
      before, t := front, last;
      BegunLast(p, indent, front, last, k);
    }
  }

  lemma StartBefore(s: string, piece: string, k: nat)
    requires LineStart(s + piece, k) && k < |s|
    ensures LineStart(s, k)
  {
    if k > 0 { assert (s + piece)[k - 1] == s[k - 1]; }
  }

  lemma BegunStays(p: Printer, indent: string, s: string, piece: string, k: nat, before: seq<Token>, t: Token)
    requires BegunBy(p, indent, Place(s, k), before, t)
    ensures BegunBy(p, indent, Place(s + piece, k), before, t)
  {
    var pad := Pad(indent, Level(t, Depth(before, 0)));
    assert (s + piece)[k..k + |pad|] == s[k..k + |pad|];
  }

  lemma BegunLast(p: Printer, indent: string, front: seq<Token>, t: Token, k: nat)
    requires Shaped(p, indent, t, Behind(front, []))
    requires var s := PrintTape(p, front, []); k >= |s| && LineStart(s + p(t, Behind(front, [])), k)
    ensures BegunBy(p, indent, Place(PrintTape(p, front, []) + p(t, Behind(front, [])), k), front, t)
  {
    var s, piece := PrintTape(p, front, []), p(t, Behind(front, []));
    DepthBehind(front, []);
    StartsPiece(s, piece, k);
    ShiftIndented(s, piece, 0, indent, Level(t, Depth(front, 0)));
  }

  lemma StartsPiece(s: string, piece: string, k: nat)
    requires LineStart(s + piece, k) && k >= |s| && OnlyLastEnds(piece)
    ensures k == |s|
  {
    assert forall i | |s| <= i < |s + piece| - 1 :: (s + piece)[i] == piece[i - |s|];
  }

  lemma ShiftIndented(s: string, rest: string, k: nat, indent: string, depth: nat)
    requires Indented(Place(rest, k), indent, depth)
    ensures Indented(Place(s + rest, |s| + k), indent, depth)
  {
    var pad := Pad(indent, depth);
    assert (s + rest)[|s| + k..|s| + k + |pad|] == rest[k..k + |pad|];
  }

  /** Every line of a printed message, if no text in it has a newline, is begun by one token of the message, behind what
      the tokens before it print, with the given indent and exactly two spaces for every container open there. */
  lemma EveryLineIndented(f: Format, indent: string, vs: seq<Value>, k: nat)
    requires '\n' !in indent && TapeOneLine(f, EncodeAll(vs)) && LineStart(RenderAll(f, indent, vs), k)
    ensures exists before, t ::
              && before + [t] <= EncodeAll(vs) && k == |PrintTape(Pieces(f, indent), before, [])|
              && Indented(Place(RenderAll(f, indent, vs), k), indent, Level(t, Depth(before, 0)))
  {
    RendererPrintsTape(f, indent, vs);
    forall t, open | t in EncodeAll(vs) ensures Shaped(Pieces(f, indent), indent, t, open) {
      PieceShape(f, indent, t, open);
    }
    var before, t := LinesOfTape(Pieces(f, indent), indent, EncodeAll(vs), k);
  }

  // ----- basic values -----

  /** Of one type, and with the same number, truth or text to show. */
  predicate PrintsAlike(f: Format, a: Basic, b: Basic) {
    match (a, b)
    case (Byte(_), Byte(_)) => f.number(a) == f.number(b)
    case (Bool(x), Bool(y)) => x == y
    case (Int16(_), Int16(_)) => f.number(a) == f.number(b)
    case (Uint16(_), Uint16(_)) => f.number(a) == f.number(b)
    case (Int32(_), Int32(_)) => f.number(a) == f.number(b)
    case (Uint32(_), Uint32(_)) => f.number(a) == f.number(b)
    case (Int64(_), Int64(_)) => f.number(a) == f.number(b)
    case (Uint64(_), Uint64(_)) => f.number(a) == f.number(b)
    case (Double(_), Double(_)) => f.number(a) == f.number(b)
    case (String(s), String(t)) => Shown(f, s) == Shown(f, t)
    case (ObjectPath(p), ObjectPath(q)) => p == q
    case _ => false
  }

  /** The part of a string between the quotes: all of it below 100 characters. */
  function Shown(f: Format, s: string): string {
    if |s| < 100 then s else f.truncate(s) + "... (" + f.size(|s|) + " bytes in total)"
  }

  function TypeWord(b: Basic): string {
    match b
    case Byte(_) => "byte " case Bool(_) => "bool " case Int16(_) => "int16_t " case Uint16(_) => "uint16_t "
    case Int32(_) => "int32_t " case Uint32(_) => "uint32_t " case Int64(_) => "int64_t " case Uint64(_) => "uint64_t "
    case Double(_) => "double " case String(_) => "string " case ObjectPath(_) => "object_path "
  }

  function Payload(f: Format, b: Basic): string {
    match b
    case Bool(v) => if v then "true" else "false"
    case String(s) => "\"" + Shown(f, s) + "\""
    case ObjectPath(p) => "\"" + p + "\""
    case _ => f.number(b)
  }

  /** The literal text of every basic value. */
  lemma TextOf(f: Format, b: Basic)
    ensures Text(f, b) == TypeWord(b) + Payload(f, b)
  {
    match b
    case String(s) => assert "string " + ("\"" + Shown(f, s) + "\"") == Text(f, b);
    case ObjectPath(p) => assert "object_path " + ("\"" + p + "\"") == Text(f, b);
    case _ =>
  }

  lemma Unquoted(s: string, t: string)
    ensures "\"" + s + "\"" == "\"" + t + "\"" <==> s == t
  {
    var x, y := "\"" + s + "\"", "\"" + t + "\"";
    assert x[1..|x| - 1] == s && y[1..|y| - 1] == t;
  }

  lemma SameStart(x: string, s: string, t: string)
    ensures x + s == x + t <==> s == t
  {
    assert (x + s)[|x|..] == s && (x + t)[|x|..] == t;
  }

  /** Type words do not begin one another. */
  lemma WordsApart(a: Basic, b: Basic, s: string, t: string)
    requires TypeWord(a) + s == TypeWord(b) + t
    ensures Code(a) == Code(b)
  {
    var x, y := TypeWord(a) + s, TypeWord(b) + t;
    assert x[0] == TypeWord(a)[0] && x[1] == TypeWord(a)[1] && x[2] == TypeWord(a)[2];
    assert y[0] == TypeWord(b)[0] && y[1] == TypeWord(b)[1] && y[2] == TypeWord(b)[2];
    assert x[3] == TypeWord(a)[3] && y[3] == TypeWord(b)[3];
    assert x[4] == TypeWord(a)[4] && y[4] == TypeWord(b)[4];
  }

  /** Two basic values print alike exactly if they have one type and show the same. */
  lemma TextTells(f: Format, a: Basic, b: Basic)
    ensures Text(f, a) == Text(f, b) <==> PrintsAlike(f, a, b)
  {
    TextOf(f, a);
    TextOf(f, b);
    if Text(f, a) == Text(f, b) { WordsApart(a, b, Payload(f, a), Payload(f, b)); }
    if Code(a) == Code(b) {
      SameStart(TypeWord(a), Payload(f, a), Payload(f, b));
      PayloadTells(f, a, b);
    }
  }

  lemma PayloadTells(f: Format, a: Basic, b: Basic)
    requires Code(a) == Code(b)
    ensures TypeWord(a) == TypeWord(b) && (Payload(f, a) == Payload(f, b) <==> PrintsAlike(f, a, b))
  {
    if a.String? { Unquoted(Shown(f, a.text), Shown(f, b.text)); }
    if a.ObjectPath? { Unquoted(a.path, b.path); }
    if a.Bool? { assert "true"[0] == 't' && "false"[0] == 'f'; }
  }

  /** Short strings are shown whole. */
  lemma ShortStringsTold(f: Format, s: string, t: string)
    requires |s| < 100 && |t| < 100
    ensures Text(f, String(s)) == Text(f, String(t)) <==> s == t
  {
    TextTells(f, String(s), String(t));
  }

  // ----- whole messages -----

  /** The same tree of containers, with basic values that print alike. */
  predicate Same(f: Format, v: Value, w: Value)
    decreases v, 1
  {
    match (v, w)
    case (Leaf(a), Leaf(b)) => PrintsAlike(f, a, b)
    case (Container(k, vs), Container(l, ws)) => KindCode(k) == KindCode(l) && SameAll(f, vs, ws)
    case _ => false
  }

  predicate SameAll(f: Format, vs: seq<Value>, ws: seq<Value>)
    decreases vs, 0
  {
    if vs == [] || ws == [] then vs == ws else Same(f, vs[0], ws[0]) && SameAll(f, vs[1..], ws[1..])
  }

  ghost predicate Plain(f: Format, v: Value)
    decreases v, 1
  {
    WellTyped(v) && match v case Leaf(b) => OneLine(f, b) case Container(_, items) => AllPlain(f, items)
  }

  ghost predicate AllPlain(f: Format, vs: seq<Value>)
    decreases vs, 0
  {
    vs == [] || (Plain(f, vs[0]) && AllPlain(f, vs[1..]))
  }

  /** Behind the given indent: everything that is printed for one value. */
  function Body(f: Format, pad: string, v: Value): string {
    match v
    case Leaf(b) => Text(f, b) + "\n"
    case Container(kind, items) =>
      Opening(kind) + (RenderAll(f, pad + "  ", items) + if kind.Variant? then "" else pad + Closing(kind))
  }

  lemma RenderIs(f: Format, pad: string, v: Value)
    ensures Render(f, pad, v) == pad + Body(f, pad, v)
  {
    match v
    case Leaf(b) => Associative(pad, Text(f, b), "\n");
    case Container(kind, items) =>
      ContainerText(f, pad, kind, items, "");
      var inner := RenderAll(f, pad + "  ", items);
      assert Render(f, pad, v) + "" == Render(f, pad, v);
      var close := if kind.Variant? then "" else pad + Closing(kind);
      assert close + "" == close;
      Associative(pad, Opening(kind), inner + close);
  }

  /** The first line of a text. */
  lemma FirstLine(x: string, s: string, y: string, t: string)
    requires '\n' !in x && '\n' !in y && x + "\n" + s == y + "\n" + t
    ensures x == y && s == t
  {
    var a, b := x + "\n" + s, y + "\n" + t;
    assert a[|x|] == '\n' && b[|y|] == '\n';
    assert forall i | 0 <= i < |x| :: a[i] == x[i] && x[i] in x;
    assert forall i | 0 <= i < |y| :: b[i] == y[i] && y[i] in y;
    assert |x| == |y|;
    assert x == a[..|x|] && y == b[..|y|];
    assert s == a[|x| + 1..] && t == b[|y| + 1..];
  }

  predicate IsVariant(v: Value) { v.Container? && v.kind.Variant? }

  /** The first line of what is printed for a value that is no variant, and the lines below it. */
  function HeadLine(f: Format, v: Value): string
    requires !IsVariant(v)
  {
    match v
    case Leaf(b) => Text(f, b)
    case Container(Array(_), _) => "array ["
    case Container(Struct, _) => "struct {"
    case Container(DictEntry, _) => "dict entry {"
  }

  function Below(f: Format, pad: string, v: Value): string
    requires !IsVariant(v)
  {
    if v.Leaf? then "" else RenderAll(f, pad + "  ", v.items) + (pad + Closing(v.kind))
  }

  lemma BodyLines(f: Format, pad: string, v: Value)
    requires !IsVariant(v)
    ensures Body(f, pad, v) == HeadLine(f, v) + "\n" + Below(f, pad, v)
  {
    if v.Container? { assert Opening(v.kind) == HeadLine(f, v) + "\n"; }
  }

  /** The head line tells a basic value from a container, and which kind of container it is. */
  lemma HeadLineTells(f: Format, v: Value, w: Value)
    requires !IsVariant(v) && !IsVariant(w) && HeadLine(f, v) == HeadLine(f, w)
    ensures v.Leaf? <==> w.Leaf?
    ensures v.Container? ==> KindCode(v.kind) == KindCode(w.kind)
  {
    LeafHead(f, v);
    LeafHead(f, w);
    assert "array ["[0] == 'a' && "struct {"[0] == 's' && "struct {"[3] == 'u';
    assert "dict entry {"[0] == 'd' && "dict entry {"[1] == 'i';
  }

  lemma LeafHead(f: Format, v: Value)
    requires !IsVariant(v)
    ensures var h := HeadLine(f, v);
            && |h| > 4 && h[0] != 'v'
            && (v.Leaf? ==> h[0] != 'a' && !(h[0] == 's' && h[3] == 'u') && !(h[0] == 'd' && h[1] == 'i'))
  {
    if v.Leaf? { TextOf(f, v.basic); }
  }

  lemma SameShape(f: Format, pad: string, v: Value, w: Value, r: string, q: string)
    requires Plain(f, v) && Plain(f, w) && Body(f, pad, v) + r == Body(f, pad, w) + q
    ensures v.Leaf? <==> w.Leaf?
    ensures v.Container? ==> KindCode(v.kind) == KindCode(w.kind)
  {
    FirstLetter(f, pad, v, r);
    FirstLetter(f, pad, w, q);
    if !IsVariant(v) {
      BelowSame(f, pad, v, w, r, q);
      HeadLineTells(f, v, w);
    }
  }

  lemma FirstLetter(f: Format, pad: string, v: Value, r: string)
    ensures var s := Body(f, pad, v) + r; |s| > 0 && (s[0] == 'v' <==> IsVariant(v))
  {
    if IsVariant(v) {
      assert Opening(v.kind)[0] == 'v';
    } else {
      BodyLines(f, pad, v);
      LeafHead(f, v);
    }
  }

  lemma BelowSame(f: Format, pad: string, v: Value, w: Value, r: string, q: string)
    requires Plain(f, v) && Plain(f, w) && !IsVariant(v) && !IsVariant(w)
    requires Body(f, pad, v) + r == Body(f, pad, w) + q
    ensures HeadLine(f, v) == HeadLine(f, w) && Below(f, pad, v) + r == Below(f, pad, w) + q
  {
    BodyLines(f, pad, v);
    BodyLines(f, pad, w);
    Associative(HeadLine(f, v) + "\n", Below(f, pad, v), r);
    Associative(HeadLine(f, w) + "\n", Below(f, pad, w), q);
    FirstLine(HeadLine(f, v), Below(f, pad, v) + r, HeadLine(f, w), Below(f, pad, w) + q);
  }

  /** A text that cannot be the beginning of another item at this indent. */
  predicate Stops(pad: string, r: string) { r == "" || !(pad <= r) }

  lemma CloserStops(pad: string, kind: Kind, r: string)
    requires !kind.Variant?
    ensures Stops(pad + "  ", pad + Closing(kind) + r)
  {
    assert (pad + Closing(kind) + r)[|pad|] == Closing(kind)[0] != ' ';
    assert (pad + "  ")[|pad|] == ' ';
  }

  /** Printed text can be read in one way only: if two values, with anything behind them, give one text, they are the
      same tree with basic values that print alike, and the same is behind them. */
  lemma {:induction false} DecodeOne(f: Format, pad: string, v: Value, w: Value, r: string, q: string)
    requires Plain(f, v) && Plain(f, w) && Render(f, pad, v) + r == Render(f, pad, w) + q
    ensures Same(f, v, w) && r == q
    decreases v, 1
  {
    StripPad(f, pad, v, w, r, q);
    SameShape(f, pad, v, w, r, q);
    if v.Leaf? {
      BelowSame(f, pad, v, w, r, q);
      assert "" + r == r && "" + q == q;
      TextTells(f, v.basic, w.basic);
    } else if IsVariant(v) {
      VariantInside(f, pad, v, w, r, q);
      DecodeOne(f, pad + "  ", v.items[0], w.items[0], r, q);
      assert v.items[1..] == [] && w.items[1..] == [];
    } else {
      ContainerInside(f, pad, v, w, r, q);
      var close := pad + Closing(v.kind);
      DecodeAll(f, pad + "  ", v.items, w.items, close + r, close + q);
      SameStart(close, r, q);
    }
  }

  lemma StripPad(f: Format, pad: string, v: Value, w: Value, r: string, q: string)
    requires Render(f, pad, v) + r == Render(f, pad, w) + q
    ensures Body(f, pad, v) + r == Body(f, pad, w) + q
  {
    RenderIs(f, pad, v);
    RenderIs(f, pad, w);
    Associative(pad, Body(f, pad, v), r);
    Associative(pad, Body(f, pad, w), q);
    SameStart(pad, Body(f, pad, v) + r, Body(f, pad, w) + q);
  }

  lemma VariantInside(f: Format, pad: string, v: Value, w: Value, r: string, q: string)
    requires Plain(f, v) && Plain(f, w) && IsVariant(v) && IsVariant(w)
    requires Body(f, pad, v) + r == Body(f, pad, w) + q
    ensures |v.items| == 1 && |w.items| == 1 && Plain(f, v.items[0]) && Plain(f, w.items[0])
    ensures Render(f, pad + "  ", v.items[0]) + r == Render(f, pad + "  ", w.items[0]) + q
  {
    VariantBody(f, pad, v, r);
    VariantBody(f, pad, w, q);
    SameStart("variant ", Render(f, pad + "  ", v.items[0]) + r, Render(f, pad + "  ", w.items[0]) + q);
  }

  lemma VariantBody(f: Format, pad: string, v: Value, r: string)
    requires WellTyped(v) && IsVariant(v)
    ensures |v.items| == 1 && Body(f, pad, v) + r == "variant " + (Render(f, pad + "  ", v.items[0]) + r)
  {
    var x := Render(f, pad + "  ", v.items[0]);
    assert v.items[1..] == [];
    assert RenderAll(f, pad + "  ", v.items) == x + RenderAll(f, pad + "  ", []) == x;
    assert x + "" == x;
    Associative("variant ", x, r);
  }

  lemma ContainerInside(f: Format, pad: string, v: Value, w: Value, r: string, q: string)
    requires Plain(f, v) && Plain(f, w) && v.Container? && w.Container?
    requires !IsVariant(v) && KindCode(v.kind) == KindCode(w.kind)
    requires Body(f, pad, v) + r == Body(f, pad, w) + q
    ensures var close := pad + Closing(v.kind);
            && RenderAll(f, pad + "  ", v.items) + (close + r) == RenderAll(f, pad + "  ", w.items) + (close + q)
            && Stops(pad + "  ", close + r) && Stops(pad + "  ", close + q)
  {
    BelowSame(f, pad, v, w, r, q);
    var close := pad + Closing(v.kind);
    assert Closing(w.kind) == Closing(v.kind);
    Associative(RenderAll(f, pad + "  ", v.items), close, r);
    Associative(RenderAll(f, pad + "  ", w.items), close, q);
    CloserStops(pad, v.kind, r);
    CloserStops(pad, v.kind, q);
  }

  lemma {:induction false} DecodeAll(f: Format, pad: string, vs: seq<Value>, ws: seq<Value>, r: string, q: string)
    requires AllPlain(f, vs) && AllPlain(f, ws) && Stops(pad, r) && Stops(pad, q)
    requires RenderAll(f, pad, vs) + r == RenderAll(f, pad, ws) + q
    ensures SameAll(f, vs, ws) && r == q
    decreases vs, 0
  {
    if vs == [] || ws == [] {
      NoItemStops(f, pad, vs, ws, r, q);
    } else {
      Associative(Render(f, pad, vs[0]), RenderAll(f, pad, vs[1..]), r);
      Associative(Render(f, pad, ws[0]), RenderAll(f, pad, ws[1..]), q);
      DecodeOne(f, pad, vs[0], ws[0], RenderAll(f, pad, vs[1..]) + r, RenderAll(f, pad, ws[1..]) + q);
      DecodeAll(f, pad, vs[1..], ws[1..], r, q);
    }
  }

  lemma NoItemStops(f: Format, pad: string, vs: seq<Value>, ws: seq<Value>, r: string, q: string)
    requires Stops(pad, r) && Stops(pad, q) && (vs == [] || ws == [])
    requires RenderAll(f, pad, vs) + r == RenderAll(f, pad, ws) + q
    ensures vs == ws == [] && r == q
  {
    ItemsBegin(f, pad, vs, r);
    ItemsBegin(f, pad, ws, q);
  }

  lemma ItemsBegin(f: Format, pad: string, vs: seq<Value>, r: string)
    ensures vs == [] ==> RenderAll(f, pad, vs) + r == r
    ensures vs != [] ==> var s := RenderAll(f, pad, vs) + r; s != "" && pad <= s
  {
    if vs != [] {
      RenderIs(f, pad, vs[0]);
      var rest := RenderAll(f, pad, vs[1..]) + r;
      FirstLetter(f, pad, vs[0], rest);
      Associative(Render(f, pad, vs[0]), RenderAll(f, pad, vs[1..]), r);
      Associative(pad, Body(f, pad, vs[0]), rest);
    } else {
      assert "" + r == r;
    }
  }

  lemma {:induction false} SamePrints(f: Format, pad: string, v: Value, w: Value)
    requires Same(f, v, w)
    ensures Render(f, pad, v) == Render(f, pad, w)
    decreases v, 1
  {
    if v.Leaf? { TextTells(f, v.basic, w.basic); } else { SameAllPrint(f, pad + "  ", v.items, w.items); }
  }

  lemma {:induction false} SameAllPrint(f: Format, pad: string, vs: seq<Value>, ws: seq<Value>)
    requires SameAll(f, vs, ws)
    ensures RenderAll(f, pad, vs) == RenderAll(f, pad, ws)
    decreases vs, 0
  {
    if vs != [] {
      SamePrints(f, pad, vs[0], ws[0]);
      SameAllPrint(f, pad, vs[1..], ws[1..]);
    }
  }

  /** Two well-formed messages whose texts have no newlines give one text exactly if they are the same trees with basic
      values that print alike. */
  lemma TextDeterminesMessage(f: Format, indent: string, vs: seq<Value>, ws: seq<Value>)
    requires AllPlain(f, vs) && AllPlain(f, ws)
    ensures RenderAll(f, indent, vs) == RenderAll(f, indent, ws) <==> SameAll(f, vs, ws)
  {
    if RenderAll(f, indent, vs) == RenderAll(f, indent, ws) { DecodeAll(f, indent, vs, ws, "", ""); }
    if SameAll(f, vs, ws) { SameAllPrint(f, indent, vs, ws); }
  }

  // ----- literal texts -----

  lemma RenderOne(f: Format, indent: string, v: Value)
    ensures RenderAll(f, indent, [v]) == Render(f, indent, v)
  {
    assert [v][1..] == [];
    assert Render(f, indent, v) + "" == Render(f, indent, v);
  }

  /** The message of one basic value, for each type. */
  lemma BasicTexts(f: Format, n: int, b: bool, s: string, p: string)
    ensures RenderAll(f, "", [Leaf(Byte(n))]) == "byte " + f.number(Byte(n)) + "\n"
    ensures RenderAll(f, "", [Leaf(Bool(b))]) == if b then "bool true\n" else "bool false\n"
    ensures RenderAll(f, "", [Leaf(Int16(n))]) == "int16_t " + f.number(Int16(n)) + "\n"
    ensures RenderAll(f, "", [Leaf(Uint16(n))]) == "uint16_t " + f.number(Uint16(n)) + "\n"
    ensures RenderAll(f, "", [Leaf(Int32(n))]) == "int32_t " + f.number(Int32(n)) + "\n"
    ensures RenderAll(f, "", [Leaf(Uint32(n))]) == "uint32_t " + f.number(Uint32(n)) + "\n"
    ensures RenderAll(f, "", [Leaf(Int64(n))]) == "int64_t " + f.number(Int64(n)) + "\n"
    ensures RenderAll(f, "", [Leaf(Uint64(n))]) == "uint64_t " + f.number(Uint64(n)) + "\n"
    ensures RenderAll(f, "", [Leaf(Double(n))]) == "double " + f.number(Double(n)) + "\n"
    ensures RenderAll(f, "", [Leaf(ObjectPath(p))]) == "object_path \"" + p + "\"\n"
    ensures |s| < 100 ==> RenderAll(f, "", [Leaf(String(s))]) == "string \"" + s + "\"\n"
    ensures |s| >= 100 ==>
              RenderAll(f, "", [Leaf(String(s))])
              == "string \"" + f.truncate(s) + "... (" + f.size(|s|) + " bytes in total)\"\n"
  {
    BasicText(f, Byte(n));
    BasicText(f, Bool(b));
    BasicText(f, Int16(n));
    BasicText(f, Uint16(n));
    BasicText(f, Int32(n));
    BasicText(f, Uint32(n));
    BasicText(f, Int64(n));
    BasicText(f, Uint64(n));
    BasicText(f, Double(n));
    BasicText(f, ObjectPath(p));
    BasicText(f, String(s));
    PathText(f, p);
    StringText(f, s);
  }

  lemma BasicText(f: Format, b: Basic)
    ensures RenderAll(f, "", [Leaf(b)]) == Text(f, b) + "\n"
  {
    RenderOne(f, "", Leaf(b));
    assert "" + Text(f, b) == Text(f, b);
  }

  lemma PathText(f: Format, p: string)
    ensures Text(f, ObjectPath(p)) + "\n" == "object_path \"" + p + "\"\n"
  {
    Associative("object_path \"" + p, "\"", "\n");
  }

  lemma StringText(f: Format, s: string)
    ensures |s| < 100 ==> Text(f, String(s)) + "\n" == "string \"" + s + "\"\n"
    ensures |s| >= 100 ==>
              Text(f, String(s)) + "\n"
              == "string \"" + f.truncate(s) + "... (" + f.size(|s|) + " bytes in total)\"\n"
  {
    var shown := if |s| < 100 then s else f.truncate(s) + "... (" + f.size(|s|) + " bytes in total)";
    assert Text(f, String(s)) == "string " + ("\"" + shown + "\"");
    assert "string " + ("\"" + shown + "\"") + "\n" == "string \"" + shown + "\"\n";
  }

  /** The message of one container with a truth value in it, for each kind and any indent. */
  lemma ContainerTexts(f: Format, indent: string)
    ensures var items := [Leaf(Bool(true))];
            && RenderAll(f, indent, [Container(Array("b"), items)])
               == indent + "array [\n" + (indent + "  bool true\n") + (indent + "]\n")
            && RenderAll(f, indent, [Container(Struct, items)])
               == indent + "struct {\n" + (indent + "  bool true\n") + (indent + "}\n")
            && RenderAll(f, indent, [Container(DictEntry, items)])
               == indent + "dict entry {\n" + (indent + "  bool true\n") + (indent + "}\n")
            && RenderAll(f, indent, [Container(Variant("b"), items)])
               == indent + "variant " + (indent + "  bool true\n")
  {
    var items := [Leaf(Bool(true))];
    RenderOne(f, indent + "  ", Leaf(Bool(true)));
    assert Render(f, indent + "  ", Leaf(Bool(true))) == indent + "  bool true\n";
    RenderOne(f, indent, Container(Array("b"), items));
    RenderOne(f, indent, Container(Struct, items));
    RenderOne(f, indent, Container(DictEntry, items));
    RenderOne(f, indent, Container(Variant("b"), items));
    assert indent + "array [\n" + (indent + "  bool true\n") + indent + "]\n"
        == indent + "array [\n" + (indent + "  bool true\n") + (indent + "]\n");
    assert indent + "struct {\n" + (indent + "  bool true\n") + indent + "}\n"
        == indent + "struct {\n" + (indent + "  bool true\n") + (indent + "}\n");
    assert indent + "dict entry {\n" + (indent + "  bool true\n") + indent + "}\n"
        == indent + "dict entry {\n" + (indent + "  bool true\n") + (indent + "}\n");
  }

  /** A string with a newline may print like two items. */
  lemma NewlineForges(f: Format, a: string, b: string)
    requires |a| + |b| < 80
    ensures var one, two := [Leaf(String(a + "\"\nstring \"" + b))], [Leaf(String(a)), Leaf(String(b))];
            RenderAll(f, "", one) == RenderAll(f, "", two) && !SameAll(f, one, two)
  {
    var one, two := [Leaf(String(a + "\"\nstring \"" + b))], [Leaf(String(a)), Leaf(String(b))];
    assert one[1..] == [] && two[1..] == [Leaf(String(b))];
    BasicText(f, String(a + "\"\nstring \"" + b));
    BasicText(f, String(a));
    BasicText(f, String(b));
    RenderOne(f, "", Leaf(String(a)));
    StringText(f, a + "\"\nstring \"" + b);
    StringText(f, a);
    StringText(f, b);
    Split(a, b);
  }

  lemma Split(a: string, b: string)
    ensures "string \"" + (a + "\"\nstring \"" + b) + "\"\n" == "string \"" + a + "\"\n" + ("string \"" + b + "\"\n")
  {}
}
