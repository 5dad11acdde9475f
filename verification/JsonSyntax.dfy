/**
 JSON documents as RFC 8259 spells them: a tree that keeps every byte, including
 the insignificant whitespace, and the value it denotes.
 */
module JsonSyntax {
  import opened Basics

  const QUOTE: Byte := 0x22
  const BACKSLASH: Byte := 0x5C
  const OPEN_OBJECT: Byte := 0x7B
  const CLOSE_OBJECT: Byte := 0x7D
  const OPEN_ARRAY: Byte := 0x5B
  const CLOSE_ARRAY: Byte := 0x5D
  const COLON: Byte := 0x3A
  const COMMA: Byte := 0x2C
  const MINUS: Byte := 0x2D
  const PLUS: Byte := 0x2B
  const POINT: Byte := 0x2E

  // ---------------------------------------------------------------- characters

  predicate IsSpace(b: Byte) { b == 0x20 || b == 0x09 || b == 0x0A || b == 0x0D }
  predicate Spaces(w: Bytes) { forall b | b in w :: IsSpace(b) }
  predicate IsDigit(b: Byte) { 0x30 <= b <= 0x39 }
  predicate IsHex(b: Byte) { IsDigit(b) || 0x41 <= b <= 0x46 || 0x61 <= b <= 0x66 }
  predicate IsExponent(b: Byte) { b == 0x65 || b == 0x45 }

  /** The bytes that may follow a backslash on their own. */
  predicate IsShortEscape(b: Byte) { b == QUOTE || b == BACKSLASH || b in [0x2F, 0x62, 0x66, 0x6E, 0x72, 0x74] }

  /** One character of a string (section 7 of RFC 8259). */
  datatype Char = Plain(b: Byte) | Short(b: Byte) | Unicode(h0: Byte, h1: Byte, h2: Byte, h3: Byte)

  predicate ValidChar(c: Char) {
    match c
    case Plain(b) => b >= 0x20 && b != QUOTE && b != BACKSLASH
    case Short(b) => IsShortEscape(b)
    case Unicode(h0, h1, h2, h3) => IsHex(h0) && IsHex(h1) && IsHex(h2) && IsHex(h3)
  }

  function PrintChar(c: Char): (r: Bytes) {
    match c
    case Plain(b) => [b]
    case Short(b) => [BACKSLASH, b]
    case Unicode(h0, h1, h2, h3) => [BACKSLASH, 0x75, h0, h1, h2, h3]
  }

  function PrintChars(cs: seq<Char>): (r: Bytes) {
    if cs == [] then [] else PrintChar(cs[0]) + PrintChars(cs[1..])
  }

  /** A string token, quotes included. */
  function Quoted(cs: seq<Char>): (r: Bytes) { [QUOTE] + (PrintChars(cs) + [QUOTE]) }

  predicate ValidChars(cs: seq<Char>) { forall c | c in cs :: ValidChar(c) }

  // -------------------------------------------------------------------- numbers

  datatype Sign = NoSign | Positive | Negative
  datatype Exponent = Exponent(marker: Byte, sign: Sign, digits: Bytes)
  datatype Atom = Number(negative: bool, integer: Bytes, fraction: Option<Bytes>,
      exponent: Option<Exponent>) | True | False | Null

  predicate Digits(d: Bytes) { d != [] && forall b | b in d :: IsDigit(b) }

  /** Section 6 of RFC 8259: no leading zeros, and digits wherever a part is present. */
  predicate ValidAtom(a: Atom) {
    match a
    case Number(_, integer, fraction, exponent) =>
      && Digits(integer) && (|integer| > 1 ==> integer[0] != 0x30)
      && (fraction.Some? ==> Digits(fraction.value))
      && (exponent.Some? ==> IsExponent(exponent.value.marker) && Digits(exponent.value.digits))
    case _ => true
  }

  function PrintSign(s: Sign): (r: Bytes) {
    match s
    case NoSign => []
    case Positive => [PLUS]
    case Negative => [MINUS]
  }

  function PrintAtom(a: Atom): (r: Bytes) {
    match a
    case Number(negative, integer, fraction, exponent) =>
      (if negative then [MINUS] else []) + integer
      + (if fraction.Some? then [POINT] + fraction.value else [])
      + (if exponent.Some? then [exponent.value.marker] + PrintSign(exponent.value.sign) + exponent.value.digits
          else [])
    case True => [0x74, 0x72, 0x75, 0x65]
    case False => [0x66, 0x61, 0x6C, 0x73, 0x65]
    case Null => [0x6E, 0x75, 0x6C, 0x6C]
  }

  // --------------------------------------------------------------------- values

  datatype Value =
    | Text(chars: seq<Char>)
    | Scalar(atom: Atom)
    | EmptyObject(pad: Bytes)
    | Object(pad: Bytes, members: Members)
    | EmptyArray(pad: Bytes)
    | Array(pad: Bytes, items: Items)

  /** A member, the whitespace around its colon and after its value, and what follows. */
  datatype Members = Member(key: seq<Char>, beforeColon: Bytes, afterColon: Bytes, value: Value, after: Bytes,
      tail: MemberTail)
  datatype MemberTail = CloseObject | NextMember(pad: Bytes, members: Members)

  datatype Items = Item(value: Value, after: Bytes, tail: ItemTail)
  datatype ItemTail = CloseArray | NextItem(pad: Bytes, items: Items)

  predicate ValidValue(v: Value) {
    match v
    case Text(chars) => ValidChars(chars)
    case Scalar(atom) => ValidAtom(atom)
    case EmptyObject(pad) => Spaces(pad)
    case Object(pad, members) => Spaces(pad) && ValidMembers(members)
    case EmptyArray(pad) => Spaces(pad)
    case Array(pad, items) => Spaces(pad) && ValidItems(items)
  }

  predicate ValidMembers(m: Members) {
    && ValidChars(m.key) && Spaces(m.beforeColon) && Spaces(m.afterColon) && ValidValue(m.value) && Spaces(m.after)
    && (m.tail.NextMember? ==> Spaces(m.tail.pad) && ValidMembers(m.tail.members))
  }

  predicate ValidItems(i: Items) {
    && ValidValue(i.value) && Spaces(i.after)
    && (i.tail.NextItem? ==> Spaces(i.tail.pad) && ValidItems(i.tail.items))
  }

  function Print(v: Value): (r: Bytes) {
    match v
    case Text(chars) => Quoted(chars)
    case Scalar(atom) => PrintAtom(atom)
    case EmptyObject(pad) => [OPEN_OBJECT] + (pad + [CLOSE_OBJECT])
    case Object(pad, members) => [OPEN_OBJECT] + (pad + PrintMembers(members))
    case EmptyArray(pad) => [OPEN_ARRAY] + (pad + [CLOSE_ARRAY])
    case Array(pad, items) => [OPEN_ARRAY] + (pad + PrintItems(items))
  }

  /** The members and the brace that closes them. */
  function PrintMembers(m: Members): (r: Bytes) {
    Quoted(m.key) + (m.beforeColon
        + ([COLON] + (m.afterColon + (Print(m.value) + (m.after + PrintMemberTail(m.tail))))))
  }

  function PrintMemberTail(t: MemberTail): (r: Bytes) {
    match t
    case CloseObject => [CLOSE_OBJECT]
    case NextMember(pad, members) => [COMMA] + (pad + PrintMembers(members))
  }

  function PrintItems(i: Items): (r: Bytes) {
    Print(i.value) + (i.after + PrintItemTail(i.tail))
  }

  function PrintItemTail(t: ItemTail): (r: Bytes) {
    match t
    case CloseArray => [CLOSE_ARRAY]
    case NextItem(pad, items) => [COMMA] + (pad + PrintItems(items))
  }

  // -------------------------------------------------------------------- meaning

  /** How string tokens and text correspond. */
  datatype Codec = Codec(decode: Bytes -> string, encode: string -> seq<Char>)

  /** Encoding gives a valid token that decodes to the same text. */
  ghost predicate Lawful(codec: Codec) {
    forall text: string :: ValidChars(codec.encode(text)) && codec.decode(Quoted(codec.encode(text))) == text
  }

  /** The parsed document; objects keep the order and the repetition of their keys. */
  datatype Tree = Leaf(text: string) | Raw(atom: Atom) | Fields(fields: seq<(string, Tree)>) | List(elements: seq<Tree>)

  function Meaning(codec: Codec, v: Value): (t: Tree) {
    match v
    case Text(chars) => Leaf(codec.decode(Quoted(chars)))
    case Scalar(atom) => Raw(atom)
    case EmptyObject(_) => Fields([])
    case Object(_, members) => Fields(MembersMeaning(codec, members))
    case EmptyArray(_) => List([])
    case Array(_, items) => List(ItemsMeaning(codec, items))
  }

  function MembersMeaning(codec: Codec, m: Members): (fields: seq<(string, Tree)>) {
    [(codec.decode(Quoted(m.key)), Meaning(codec, m.value))]
    + match m.tail
      case CloseObject => []
      case NextMember(_, members) => MembersMeaning(codec, members)
  }

  function ItemsMeaning(codec: Codec, i: Items): (elements: seq<Tree>) {
    [Meaning(codec, i.value)]
    + match i.tail
      case CloseArray => []
      case NextItem(_, items) => ItemsMeaning(codec, items)
  }
}
