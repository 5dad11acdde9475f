/**
 The byte scanner: where whitespace, string tokens and whole values end, on any
 input. On the bytes of a valid value it ends exactly where the value does.
 */
module JsonScan {
  import opened Basics
  import opened JsonSyntax

  datatype ScanError = StringExpected | BadString | ColonExpected | SeparatorExpected | UnexpectedEnd
  datatype Scan = End(pos: nat) | Bad(error: ScanError)

  function SkipSpace(data: Bytes, pos: nat): (r: nat)
    requires pos <= |data|
    ensures pos <= r <= |data|
    ensures forall i | pos <= i < r :: IsSpace(data[i])
    ensures r < |data| ==> !IsSpace(data[r])
    decreases |data| - pos
  {
    if pos < |data| && IsSpace(data[pos]) then SkipSpace(data, pos + 1) else pos
  }

  predicate HexAt(data: Bytes, pos: nat) { pos < |data| && IsHex(data[pos]) }

  /** The end of a string whose opening quote has been read. */
  function StringEnd(data: Bytes, pos: nat): (r: Scan)
    requires pos <= |data|
    ensures r.End? ==> pos < r.pos <= |data|
    decreases |data| - pos
  {
    if pos == |data| then Bad(BadString)
    else if data[pos] == QUOTE then End(pos + 1)
    else if data[pos] == BACKSLASH then
      if pos + 1 == |data| then Bad(BadString)
      else if IsShortEscape(data[pos + 1]) then StringEnd(data, pos + 2)
      else if data[pos + 1] == 0x75 && HexAt(data, pos + 2) && HexAt(data, pos + 3) && HexAt(data, pos + 4)
          && HexAt(data, pos + 5)
      then StringEnd(data, pos + 6)
      else Bad(BadString)
    else if data[pos] < 0x20 then Bad(BadString)
    else StringEnd(data, pos + 1)
  }

  /** The end of the string token that follows optional whitespace. */
  function TokenEnd(data: Bytes, pos: nat): (r: Scan)
    requires pos <= |data|
    ensures r.End? ==> pos < r.pos <= |data|
  {
    var p := SkipSpace(data, pos);
    if p == |data| || data[p] != QUOTE then Bad(StringExpected) else StringEnd(data, p + 1)
  }

  predicate IsDelimiter(b: Byte) { IsSpace(b) || b == COMMA || b == CLOSE_ARRAY || b == CLOSE_OBJECT }

  function ScalarEnd(data: Bytes, pos: nat): (r: nat)
    requires pos <= |data|
    ensures pos <= r <= |data|
    ensures pos < |data| && !IsDelimiter(data[pos]) ==> pos < r
    decreases |data| - pos
  {
    if pos < |data| && !IsDelimiter(data[pos]) then ScalarEnd(data, pos + 1) else pos
  }

  /** The end of the value that follows optional whitespace. */
  function ValueEnd(data: Bytes, pos: nat): (r: Scan)
    requires pos <= |data|
    ensures r.End? ==> pos <= r.pos <= |data|
    decreases |data| - pos, 1
  {
    var p := SkipSpace(data, pos);
    if p == |data| then Bad(UnexpectedEnd)
    else if data[p] == QUOTE then TokenEnd(data, p)
    else if data[p] == OPEN_OBJECT then
      var q := SkipSpace(data, p + 1);
      if q < |data| && data[q] == CLOSE_OBJECT then End(q + 1) else MembersEnd(data, q)
    else if data[p] == OPEN_ARRAY then
      var q := SkipSpace(data, p + 1);
      if q < |data| && data[q] == CLOSE_ARRAY then End(q + 1) else ItemsEnd(data, q)
    else End(ScalarEnd(data, p))
  }

  /** The end of an object, from one of its keys. */
  function MembersEnd(data: Bytes, pos: nat): (r: Scan)
    requires pos <= |data|
    ensures r.End? ==> pos < r.pos <= |data|
    decreases |data| - pos, 0
  {
    match TokenEnd(data, pos)
    case Bad(e) => Bad(e)
    case End(keyEnd) =>
      var p := SkipSpace(data, keyEnd);
      if p == |data| || data[p] != COLON then Bad(ColonExpected)
      else match ValueEnd(data, p + 1)
        case Bad(e) => Bad(e)
        case End(end) =>
          var q := SkipSpace(data, end);
          if q < |data| && data[q] == CLOSE_OBJECT then End(q + 1)
          else if q == |data| || data[q] != COMMA then Bad(SeparatorExpected)
          else MembersEnd(data, SkipSpace(data, q + 1))
  }

  /** The end of an array, from one of its items. */
  function ItemsEnd(data: Bytes, pos: nat): (r: Scan)
    requires pos <= |data|
    ensures r.End? ==> pos < r.pos <= |data|
    decreases |data| - pos, 2
  {
    match ValueEnd(data, pos)
    case Bad(e) => Bad(e)
    case End(end) =>
      var q := SkipSpace(data, end);
      if q < |data| && data[q] == CLOSE_ARRAY then End(q + 1)
      else if q == |data| || data[q] != COMMA then Bad(SeparatorExpected)
      else ItemsEnd(data, SkipSpace(data, q + 1))
  }

  // -------------------------------------------------------------------- the loops

  method SkipJSONSpace(data: Bytes, start: nat) returns (pos: nat)
    requires start <= |data|
    ensures pos == SkipSpace(data, start)
  {
    pos := start;
    while pos < |data| && IsSpace(data[pos])
      invariant start <= pos <= |data| && SkipSpace(data, start) == SkipSpace(data, pos)
      decreases |data| - pos
    {
      pos := pos + 1;
    }
  }

  method SkipJSONValue(data: Bytes, start: nat) returns (r: Scan)
    requires start <= |data|
    ensures r == ValueEnd(data, start)
    decreases |data| - start, 1
  {
    hide MembersEnd, ItemsEnd, TokenEnd, SkipSpace, StringEnd;
    var pos := SkipJSONSpace(data, start);
    if pos == |data| { return Bad(UnexpectedEnd); }
    if data[pos] == QUOTE { return TokenEnd(data, pos); }
    if data[pos] == OPEN_OBJECT {
      pos := SkipJSONSpace(data, pos + 1);
      if pos < |data| && data[pos] == CLOSE_OBJECT { return End(pos + 1); }
      r := SkipJSONMembers(data, pos);
    } else if data[pos] == OPEN_ARRAY {
      pos := SkipJSONSpace(data, pos + 1);
      if pos < |data| && data[pos] == CLOSE_ARRAY { return End(pos + 1); }
      r := SkipJSONItems(data, pos);
    } else {
      var from := pos;
      while pos < |data| && !IsDelimiter(data[pos])
        invariant from <= pos <= |data| && ScalarEnd(data, from) == ScalarEnd(data, pos)
        decreases |data| - pos
      {
        pos := pos + 1;
      }
      r := End(pos);
    }
  }

  lemma MembersUnfold(data: Bytes, pos: nat)
    requires pos <= |data|
    ensures MembersEnd(data, pos)
         == match TokenEnd(data, pos)
            case Bad(e) => Bad(e)
            case End(keyEnd) =>
              var p := SkipSpace(data, keyEnd);
              if p == |data| || data[p] != COLON then Bad(ColonExpected)
              else match ValueEnd(data, p + 1)
                case Bad(e) => Bad(e)
                case End(end) =>
                  var q := SkipSpace(data, end);
                  if q < |data| && data[q] == CLOSE_OBJECT then End(q + 1)
                  else if q == |data| || data[q] != COMMA then Bad(SeparatorExpected)
                  else MembersEnd(data, SkipSpace(data, q + 1))
  {
    hide ValueEnd, ItemsEnd, TokenEnd, SkipSpace;
  }

  lemma ItemsUnfold(data: Bytes, pos: nat)
    requires pos <= |data|
    ensures ItemsEnd(data, pos)
         == match ValueEnd(data, pos)
            case Bad(e) => Bad(e)
            case End(end) =>
              var q := SkipSpace(data, end);
              if q < |data| && data[q] == CLOSE_ARRAY then End(q + 1)
              else if q == |data| || data[q] != COMMA then Bad(SeparatorExpected)
              else ItemsEnd(data, SkipSpace(data, q + 1))
  {
    hide ValueEnd, MembersEnd, TokenEnd, SkipSpace;
  }

  /** The object loop. */
  method SkipJSONMembers(data: Bytes, start: nat) returns (r: Scan)
    requires start <= |data|
    ensures r == MembersEnd(data, start)
    decreases |data| - start, 0
  {
    hide MembersEnd, ValueEnd, ItemsEnd, TokenEnd, SkipSpace;
    var pos := start;
    while true
      invariant start <= pos <= |data| && MembersEnd(data, start) == MembersEnd(data, pos)
      decreases |data| - pos
    {
      MembersUnfold(data, pos);
      var key := TokenEnd(data, pos);
      if key.Bad? { return key; }
      var colon := SkipJSONSpace(data, key.pos);
      if colon == |data| || data[colon] != COLON { return Bad(ColonExpected); }
      var end := SkipJSONValue(data, colon + 1);
      if end.Bad? { return end; }
      var next := SkipJSONSpace(data, end.pos);
      if next < |data| && data[next] == CLOSE_OBJECT { return End(next + 1); }
      if next == |data| || data[next] != COMMA { return Bad(SeparatorExpected); }
      pos := SkipJSONSpace(data, next + 1);
    }
  }

  /** The array loop. */
  method SkipJSONItems(data: Bytes, start: nat) returns (r: Scan)
    requires start <= |data|
    ensures r == ItemsEnd(data, start)
    decreases |data| - start, 2
  {
    hide MembersEnd, ValueEnd, ItemsEnd, TokenEnd, SkipSpace;
    var pos := start;
    while true
      invariant start <= pos <= |data| && ItemsEnd(data, start) == ItemsEnd(data, pos)
      decreases |data| - pos
    {
      ItemsUnfold(data, pos);
      var end := SkipJSONValue(data, pos);
      if end.Bad? { return end; }
      var next := SkipJSONSpace(data, end.pos);
      if next < |data| && data[next] == CLOSE_ARRAY { return End(next + 1); }
      if next == |data| || data[next] != COMMA { return Bad(SeparatorExpected); }
      pos := SkipJSONSpace(data, next + 1);
    }
  }

  // -------------------------------------------------------------------- exactness

  /** The bytes stand in the data at a position. */
  ghost predicate Spells(data: Bytes, pos: nat, text: Bytes) {
    pos + |text| <= |data| && data[pos..pos + |text|] == text
  }

  lemma SpellsParts(data: Bytes, pos: nat, a: Bytes, b: Bytes)
    requires Spells(data, pos, a + b)
    ensures Spells(data, pos, a) && Spells(data, pos + |a|, b)
  {
    assert data[pos..pos + |a + b|][..|a|] == a;
    assert data[pos..pos + |a + b|][|a|..] == b;
  }

  lemma SpellsOne(data: Bytes, pos: nat, b: Byte)
    requires Spells(data, pos, [b])
    ensures pos < |data| && data[pos] == b
  {
    assert data[pos..pos + 1][0] == b;
  }

  /** Whitespace followed by anything else is skipped to its end. */
  lemma {:induction false} SpaceIsExact(data: Bytes, pos: nat, pad: Bytes)
    requires Spells(data, pos, pad) && Spaces(pad)
    requires pos + |pad| < |data| ==> !IsSpace(data[pos + |pad|])
    ensures SkipSpace(data, pos) == pos + |pad|
    decreases |pad|
  {
    if pad != [] {
      assert pad == [pad[0]] + pad[1..];
      SpellsParts(data, pos, [pad[0]], pad[1..]);
      SpellsOne(data, pos, pad[0]);
      SpaceIsExact(data, pos + 1, pad[1..]);
    }
  }

  lemma CharsShape(cs: seq<Char>)
    requires cs != []
    ensures PrintChars(cs) + [QUOTE] == PrintChar(cs[0]) + (PrintChars(cs[1..]) + [QUOTE])
    ensures |PrintChars(cs)| == |PrintChar(cs[0])| + |PrintChars(cs[1..])|
  {
    hide PrintChar;
  }

  lemma {:induction false} CharsAreExact(data: Bytes, pos: nat, cs: seq<Char>)
    requires Spells(data, pos, PrintChars(cs) + [QUOTE]) && ValidChars(cs)
    ensures StringEnd(data, pos) == End(pos + |PrintChars(cs)| + 1)
    decreases |cs|
  {
    if cs == [] {
      assert PrintChars(cs) + [QUOTE] == [QUOTE];
      SpellsOne(data, pos, QUOTE);
    } else {
      var c := cs[0];
      hide PrintChar, ValidChar, Spells;
      CharsShape(cs);
      SpellsParts(data, pos, PrintChar(c), PrintChars(cs[1..]) + [QUOTE]);
      CharsAreExact(data, pos + |PrintChar(c)|, cs[1..]);
      CharIsStepped(data, pos, c);
    }
  }

  lemma CharIsStepped(data: Bytes, pos: nat, c: Char)
    requires Spells(data, pos, PrintChar(c)) && ValidChar(c)
    ensures StringEnd(data, pos) == StringEnd(data, pos + |PrintChar(c)|)
  {
    forall i | 0 <= i < |PrintChar(c)| ensures data[pos + i] == PrintChar(c)[i] {
      assert data[pos..pos + |PrintChar(c)|][i] == PrintChar(c)[i];
    }
  }

  lemma TokenIsExact(data: Bytes, pos: nat, cs: seq<Char>)
    requires Spells(data, pos, Quoted(cs)) && ValidChars(cs)
    ensures pos < |data| && data[pos] == QUOTE
    ensures TokenEnd(data, pos) == End(pos + |Quoted(cs)|)
  {
    SpellsParts(data, pos, [QUOTE], PrintChars(cs) + [QUOTE]);
    SpellsOne(data, pos, QUOTE);
    CharsAreExact(data, pos + 1, cs);
  }

  predicate NumberBytes(text: Bytes) {
    forall b | b in text :: IsDigit(b) || b == MINUS || b == PLUS || b == POINT || IsExponent(b)
  }

  lemma NumberJoins(a: Bytes, b: Bytes)
    requires NumberBytes(a) && NumberBytes(b)
    ensures NumberBytes(a + b)
  {
  }

  lemma ExponentBytes(e: Exponent)
    requires IsExponent(e.marker) && Digits(e.digits)
    ensures NumberBytes([e.marker] + PrintSign(e.sign) + e.digits)
  {
    NumberJoins([e.marker], PrintSign(e.sign));
    NumberJoins([e.marker] + PrintSign(e.sign), e.digits);
  }

  lemma NumberIsBytes(a: Atom)
    requires a.Number? && ValidAtom(a)
    ensures NumberBytes(PrintAtom(a)) && PrintAtom(a) != []
  {
    hide NumberBytes;
    var sign: Bytes := if a.negative then [MINUS] else [];
    var fraction: Bytes := if a.fraction.Some? then [POINT] + a.fraction.value else [];
    var exponent: Bytes := if a.exponent.Some?
        then [a.exponent.value.marker] + PrintSign(a.exponent.value.sign) + a.exponent.value.digits else [];
    NumberPieces(a);
    if a.exponent.Some? { ExponentBytes(a.exponent.value); }
    NumberJoins(sign, a.integer);
    NumberJoins(sign + a.integer, fraction);
    NumberJoins(sign + a.integer + fraction, exponent);
  }

  lemma NumberPieces(a: Atom)
    requires a.Number? && ValidAtom(a)
    ensures NumberBytes([]) && NumberBytes([MINUS]) && NumberBytes(a.integer)
    ensures a.fraction.Some? ==> NumberBytes([POINT] + a.fraction.value)
  {
  }

  lemma AtomBytes(a: Atom)
    requires ValidAtom(a)
    ensures PrintAtom(a) != []
    ensures forall b | b in PrintAtom(a) :: !IsDelimiter(b) && b != QUOTE && b != OPEN_OBJECT && b != OPEN_ARRAY
  {
    if a.Number? {
      hide PrintAtom;
      NumberIsBytes(a);
    }
  }

  lemma {:induction false} ScalarIsExact(data: Bytes, pos: nat, text: Bytes)
    requires Spells(data, pos, text) && forall b | b in text :: !IsDelimiter(b)
    requires pos + |text| < |data| ==> IsDelimiter(data[pos + |text|])
    ensures ScalarEnd(data, pos) == pos + |text|
    decreases |text|
  {
    if text != [] {
      assert text == [text[0]] + text[1..];
      SpellsParts(data, pos, [text[0]], text[1..]);
      SpellsOne(data, pos, text[0]);
      ScalarIsExact(data, pos + 1, text[1..]);
    }
  }

  /** The first byte of a value is never whitespace, a bracket that closes or a comma, and tells its kind. */
  lemma PrintStarts(v: Value)
    requires ValidValue(v)
    ensures Print(v) != [] && !IsDelimiter(Print(v)[0])
    ensures (Print(v)[0] == QUOTE) == v.Text?
    ensures (Print(v)[0] == OPEN_OBJECT) == (v.Object? || v.EmptyObject?)
    ensures (Print(v)[0] == OPEN_ARRAY) == (v.Array? || v.EmptyArray?)
  {
    if v.Scalar? {
      AtomBytes(v.atom);
    }
  }

  /** Whitespace and what comes after it. */
  lemma SpaceThen(data: Bytes, pos: nat, pad: Bytes, rest: Bytes)
    requires Spells(data, pos, pad + rest) && Spaces(pad) && rest != [] && !IsSpace(rest[0])
    ensures pos + |pad| < |data| && data[pos + |pad|] == rest[0] && Spells(data, pos + |pad|, rest)
    ensures SkipSpace(data, pos) == pos + |pad|
  {
    SpellsParts(data, pos, pad, rest);
    assert data[pos + |pad|..pos + |pad| + |rest|][0] == rest[0];
    SpaceIsExact(data, pos, pad);
  }

  /** One byte and what comes after it. */
  lemma ByteThen(data: Bytes, pos: nat, b: Byte, rest: Bytes)
    requires Spells(data, pos, [b] + rest)
    ensures pos < |data| && data[pos] == b && Spells(data, pos + 1, rest)
  {
    SpellsParts(data, pos, [b], rest);
    SpellsOne(data, pos, b);
  }

  /** What follows a value in a document: whitespace, a comma, a closing bracket, or nothing. */
  ghost predicate Delimited(data: Bytes, pos: nat) { pos < |data| ==> IsDelimiter(data[pos]) }

  /** Whitespace, possibly none, before a closing bracket or a comma. */
  lemma SpaceThenMark(data: Bytes, pos: nat, pad: Bytes, rest: Bytes)
    requires Spells(data, pos, pad + rest) && Spaces(pad) && rest != [] && !IsSpace(rest[0]) && IsDelimiter(rest[0])
    ensures pos + |pad| < |data| && data[pos + |pad|] == rest[0] && Spells(data, pos + |pad|, rest)
    ensures SkipSpace(data, pos) == pos + |pad| && Delimited(data, pos)
  {
    SpaceThen(data, pos, pad, rest);
  }

  // Where the parts of a member stand when its key starts at a position.
  ghost function ColonAt(m: Members, pos: nat): nat { pos + |Quoted(m.key)| + |m.beforeColon| }
  ghost function ChildAt(m: Members, pos: nat): nat { ColonAt(m, pos) + 1 + |m.afterColon| }
  ghost function ChildEnd(m: Members, pos: nat): nat { ChildAt(m, pos) + |Print(m.value)| }
  ghost function TailAt(m: Members, pos: nat): nat { ChildEnd(m, pos) + |m.after| }

  lemma KeyLayout(data: Bytes, pos: nat, m: Members)
    requires Spells(data, pos, PrintMembers(m)) && ValidMembers(m)
    ensures TokenEnd(data, pos) == End(pos + |Quoted(m.key)|) && pos < |data| && data[pos] == QUOTE
    ensures pos + |Quoted(m.key)| <= |data| && SkipSpace(data, pos + |Quoted(m.key)|) == ColonAt(m, pos)
    ensures ColonAt(m, pos) < |data| && data[ColonAt(m, pos)] == COLON
    ensures Spells(data, ColonAt(m, pos) + 1, m.afterColon + (Print(m.value) + (m.after + PrintMemberTail(m.tail))))
  {
    hide Spells, SkipSpace, TokenEnd, Quoted, ValidValue, Print, Spaces, ValidChars, PrintMemberTail;
    var rest := m.afterColon + (Print(m.value) + (m.after + PrintMemberTail(m.tail)));
    SpellsParts(data, pos, Quoted(m.key), m.beforeColon + ([COLON] + rest));
    TokenIsExact(data, pos, m.key);
    SpaceThen(data, pos + |Quoted(m.key)|, m.beforeColon, [COLON] + rest);
    ByteThen(data, ColonAt(m, pos), COLON, rest);
  }

  lemma ChildLayout(data: Bytes, pos: nat, m: Members)
    requires Spells(data, pos, PrintMembers(m)) && ValidMembers(m)
    ensures ColonAt(m, pos) < |data| && SkipSpace(data, ColonAt(m, pos) + 1) == ChildAt(m, pos)
    ensures Spells(data, ChildAt(m, pos), Print(m.value))
    ensures Spells(data, ChildEnd(m, pos), m.after + PrintMemberTail(m.tail))
  {
    hide Spells, SkipSpace, TokenEnd, Quoted, ValidValue, Print, Spaces, ValidChars, PrintMemberTail, PrintMembers;
    KeyLayout(data, pos, m);
    var rest := m.after + PrintMemberTail(m.tail);
    PrintStarts(m.value);
    SpaceThen(data, ColonAt(m, pos) + 1, m.afterColon, Print(m.value) + rest);
    SpellsParts(data, ChildAt(m, pos), Print(m.value), rest);
  }

  lemma MembersStart(m: Members)
    ensures PrintMembers(m) != [] && PrintMembers(m)[0] == QUOTE
  {
  }

  lemma MembersLength(m: Members, pos: nat)
    ensures pos + |PrintMembers(m)| == TailAt(m, pos) + |PrintMemberTail(m.tail)|
  {
  }

  lemma TailLayout(data: Bytes, pos: nat, m: Members)
    requires Spells(data, pos, PrintMembers(m)) && ValidMembers(m)
    ensures ChildEnd(m, pos) <= |data| && SkipSpace(data, ChildEnd(m, pos)) == TailAt(m, pos)
            && Delimited(data, ChildEnd(m, pos))
    ensures TailAt(m, pos) < |data| && data[TailAt(m, pos)] == (if m.tail.CloseObject? then CLOSE_OBJECT else COMMA)
    ensures m.tail.CloseObject? ==> TailAt(m, pos) + 1 == pos + |PrintMembers(m)|
    ensures m.tail.NextMember? ==>
              var more := TailAt(m, pos) + 1 + |m.tail.pad|;
              && SkipSpace(data, TailAt(m, pos) + 1) == more
              && Spells(data, more, PrintMembers(m.tail.members))
              && more + |PrintMembers(m.tail.members)| == pos + |PrintMembers(m)|
  {
    hide Spells, SkipSpace, TokenEnd, Quoted, ValidValue, Print, Spaces, ValidChars, PrintMembers, Delimited;
    ChildLayout(data, pos, m);
    MembersLength(m, pos);
    SpaceThenMark(data, ChildEnd(m, pos), m.after, PrintMemberTail(m.tail));
    if m.tail.NextMember? {
      var more := PrintMembers(m.tail.members);
      ByteThen(data, TailAt(m, pos), COMMA, m.tail.pad + more);
      MembersStart(m.tail.members);
      SpaceThen(data, TailAt(m, pos) + 1, m.tail.pad, more);
    }
  }

  ghost function ItemTailAt(i: Items, pos: nat): nat { pos + |Print(i.value)| + |i.after| }

  lemma ItemsStart(i: Items)
    requires ValidItems(i)
    ensures PrintItems(i) != [] && !IsDelimiter(PrintItems(i)[0])
  {
    PrintStarts(i.value);
  }

  lemma ItemsShape(i: Items)
    ensures PrintItems(i) == Print(i.value) + (i.after + PrintItemTail(i.tail))
  {
  }

  lemma ItemLayout(data: Bytes, pos: nat, i: Items)
    requires Spells(data, pos, PrintItems(i)) && ValidItems(i)
    ensures Spells(data, pos, Print(i.value)) && Delimited(data, pos + |Print(i.value)|)
    ensures pos + |Print(i.value)| <= |data| && SkipSpace(data, pos + |Print(i.value)|) == ItemTailAt(i, pos)
    ensures ItemTailAt(i, pos) < |data|
            && data[ItemTailAt(i, pos)] == (if i.tail.CloseArray? then CLOSE_ARRAY else COMMA)
    ensures Spells(data, ItemTailAt(i, pos), PrintItemTail(i.tail))
    ensures pos + |PrintItems(i)| == ItemTailAt(i, pos) + |PrintItemTail(i.tail)|
  {
    hide Spells, SkipSpace, ValidValue, Print, Spaces, Delimited, PrintItems;
    ItemsShape(i);
    SpellsParts(data, pos, Print(i.value), i.after + PrintItemTail(i.tail));
    SpaceThenMark(data, pos + |Print(i.value)|, i.after, PrintItemTail(i.tail));
  }

  lemma NextItemLayout(data: Bytes, pos: nat, i: Items)
    requires Spells(data, pos, PrintItems(i)) && ValidItems(i) && i.tail.NextItem?
    ensures var more := ItemTailAt(i, pos) + 1 + |i.tail.pad|;
            && ItemTailAt(i, pos) < |data| && SkipSpace(data, ItemTailAt(i, pos) + 1) == more
            && Spells(data, more, PrintItems(i.tail.items))
            && more + |PrintItems(i.tail.items)| == pos + |PrintItems(i)|
  {
    hide Spells, SkipSpace, ValidValue, Print, Spaces, Delimited, PrintItems;
    ItemLayout(data, pos, i);
    var more := PrintItems(i.tail.items);
    ByteThen(data, ItemTailAt(i, pos), COMMA, i.tail.pad + more);
    ItemsStart(i.tail.items);
    SpaceThen(data, ItemTailAt(i, pos) + 1, i.tail.pad, more);
  }

  lemma ValueEndPastSpace(data: Bytes, pos: nat)
    requires pos <= |data|
    ensures ValueEnd(data, pos) == ValueEnd(data, SkipSpace(data, pos))
  {
    hide MembersEnd, ItemsEnd, TokenEnd, ScalarEnd;
    SkipTwice(data, pos);
  }

  lemma SkipTwice(data: Bytes, pos: nat)
    requires pos <= |data|
    ensures SkipSpace(data, SkipSpace(data, pos)) == SkipSpace(data, pos)
  {
  }

  lemma ValueStarts(data: Bytes, pos: nat, v: Value)
    requires Spells(data, pos, Print(v)) && ValidValue(v)
    ensures pos < |data| && data[pos] == Print(v)[0] && SkipSpace(data, pos) == pos
  {
    PrintStarts(v);
    assert data[pos..pos + |Print(v)|][0] == Print(v)[0];
  }

  /** An object with its opening brace: where its members, or its closing brace, stand. */
  lemma ObjectLayout(data: Bytes, pos: nat, mark: Byte, pad: Bytes, rest: Bytes)
    requires Spells(data, pos, [mark] + (pad + rest)) && Spaces(pad) && rest != [] && !IsSpace(rest[0])
    ensures pos < |data| && data[pos] == mark && SkipSpace(data, pos + 1) == pos + 1 + |pad|
    ensures pos + 1 + |pad| < |data| && data[pos + 1 + |pad|] == rest[0] && Spells(data, pos + 1 + |pad|, rest)
  {
    ByteThen(data, pos, mark, pad + rest);
    SpaceThen(data, pos + 1, pad, rest);
  }

  /** On the bytes of a valid value, the scanner stops exactly at the value's end. */
  lemma {:induction false} ValueIsExact(data: Bytes, pos: nat, v: Value)
    requires Spells(data, pos, Print(v)) && ValidValue(v) && Delimited(data, pos + |Print(v)|)
    ensures ValueEnd(data, pos) == End(pos + |Print(v)|)
    decreases v
  {
    hide MembersEnd, ItemsEnd, StringEnd, SkipSpace, TokenEnd, Spells, Spaces, PrintMembers, PrintItems, Quoted,
        PrintAtom, ValidAtom;
    ValueStarts(data, pos, v);
    PrintStarts(v);
    match v {
      case Text(chars) => TokenIsExact(data, pos, chars);
      case Scalar(atom) =>
        AtomBytes(atom);
        ScalarIsExact(data, pos, Print(v));
      case EmptyObject(pad) => ObjectLayout(data, pos, OPEN_OBJECT, pad, [CLOSE_OBJECT]);
      case Object(pad, members) =>
        MembersStart(members);
        ObjectLayout(data, pos, OPEN_OBJECT, pad, PrintMembers(members));
        MembersAreExact(data, pos + 1 + |pad|, members);
      case EmptyArray(pad) => ObjectLayout(data, pos, OPEN_ARRAY, pad, [CLOSE_ARRAY]);
      case Array(pad, items) =>
        ItemsStart(items);
        ObjectLayout(data, pos, OPEN_ARRAY, pad, PrintItems(items));
        ItemsAreExact(data, pos + 1 + |pad|, items);
    }
  }

  lemma {:induction false} MembersAreExact(data: Bytes, pos: nat, m: Members)
    requires Spells(data, pos, PrintMembers(m)) && ValidMembers(m)
    ensures MembersEnd(data, pos) == End(pos + |PrintMembers(m)|)
    decreases m
  {
    hide MembersEnd, ValueEnd, ItemsEnd, TokenEnd, SkipSpace, StringEnd, PrintMembers, Spells, Spaces, Quoted, Print,
        ValidValue, ValidChars;
    KeyLayout(data, pos, m);
    ChildLayout(data, pos, m);
    TailLayout(data, pos, m);
    ValueEndPastSpace(data, ColonAt(m, pos) + 1);
    ValueIsExact(data, ChildAt(m, pos), m.value);
    MembersUnfold(data, pos);
    if m.tail.NextMember? {
      MembersAreExact(data, TailAt(m, pos) + 1 + |m.tail.pad|, m.tail.members);
    }
  }

  lemma {:induction false} ItemsAreExact(data: Bytes, pos: nat, i: Items)
    requires Spells(data, pos, PrintItems(i)) && ValidItems(i)
    ensures ItemsEnd(data, pos) == End(pos + |PrintItems(i)|)
    decreases i
  {
    hide ItemsEnd, ValueEnd, MembersEnd, SkipSpace, PrintItems, Spells, Spaces, Print, ValidValue;
    ItemLayout(data, pos, i);
    ValueIsExact(data, pos, i.value);
    ItemsUnfold(data, pos);
    if i.tail.NextItem? {
      NextItemLayout(data, pos, i);
      ItemsAreExact(data, ItemTailAt(i, pos) + 1 + |i.tail.pad|, i.tail.items);
    }
  }
}
