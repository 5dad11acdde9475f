/**
 Rewriting one string of a JSON document in place of its bytes. The walk works on
 bytes and positions; on the tree of the document it replaces one string, and the
 two agree byte for byte.
 */
module JsonRewrite {
  import opened Basics
  import opened JsonSyntax
  import opened JsonScan

  datatype RewriteError = Malformed(scan: ScanError) | Refused
  datatype Outcome<+T> = Same | Changed(value: T) | Failed(error: RewriteError)

  /** The text of a string is mapped to another, to itself, or refused. */
  type Mapping = string -> Option<string>

  // ------------------------------------------------------------------ on the bytes

  /** The parts of a dotted path. */
  function Split(path: string): (parts: seq<string>)
    ensures parts != []
  {
    if path == "" then [""]
    else if path[0] == '.' then [""] + Split(path[1..])
    else
      var rest := Split(path[1..]);
      [[path[0]] + rest[0]] + rest[1..]
  }

  function RewriteToken(codec: Codec, rewrite: Mapping, data: Bytes, child: nat): (r: Outcome<Bytes>)
    requires child <= |data|
  {
    match TokenEnd(data, child)
    case Bad(_) => Same
    case End(end) =>
      var raw := codec.decode(data[child..end]);
      match rewrite(raw)
      case None => Failed(Refused)
      case Some(mapped) =>
        if mapped != raw then Changed(data[..child] + Quoted(codec.encode(mapped)) + data[end..]) else Same
  }

  function Walk(codec: Codec, rewrite: Mapping, data: Bytes, pos: nat, parts: seq<string>): (r: Outcome<Bytes>)
    requires pos <= |data|
    decreases |parts|, |data| - pos, 1
  {
    var p := SkipSpace(data, pos);
    if p == |data| || parts == [] || data[p] != OPEN_OBJECT then Same
    else WalkMembers(codec, rewrite, data, p + 1, parts)
  }

  /** The value of a member whose key is the next part of the path. */
  function RewriteNamed(codec: Codec, rewrite: Mapping, data: Bytes, key: nat, keyEnd: nat, child: nat,
                        parts: seq<string>): (r: Outcome<Bytes>)
    requires key <= keyEnd <= child <= |data| && parts != []
    decreases |parts|, |data| - child, 0
  {
    if codec.decode(data[key..keyEnd]) != parts[0] then Same
    else if |parts| == 1 then RewriteToken(codec, rewrite, data, child)
    else Walk(codec, rewrite, data, child, parts[1..])
  }

  function WalkMembers(codec: Codec, rewrite: Mapping, data: Bytes, pos: nat, parts: seq<string>): (r: Outcome<Bytes>)
    requires pos <= |data| && parts != []
    decreases |parts|, |data| - pos, 0
  {
    var p := SkipSpace(data, pos);
    if p < |data| && data[p] == CLOSE_OBJECT then Same
    else match TokenEnd(data, p)
      case Bad(e) => Failed(Malformed(e))
      case End(keyEnd) =>
        var colon := SkipSpace(data, keyEnd);
        if colon == |data| || data[colon] != COLON then Failed(Malformed(ColonExpected))
        else
          var child := SkipSpace(data, colon + 1);
          match ValueEnd(data, child)
          case Bad(e) => Failed(Malformed(e))
          case End(childEnd) =>
            var hit := RewriteNamed(codec, rewrite, data, p, keyEnd, child, parts);
            if !hit.Same? then hit
            else
              var next := SkipSpace(data, childEnd);
              if next < |data| && data[next] == CLOSE_OBJECT then Same
              else if next == |data| || data[next] != COMMA then Failed(Malformed(SeparatorExpected))
              else WalkMembers(codec, rewrite, data, next + 1, parts)
  }

  method WalkJSON(codec: Codec, rewrite: Mapping, data: Bytes, start: nat, parts: seq<string>)
    returns (r: Outcome<Bytes>)
    requires start <= |data|
    ensures r == Walk(codec, rewrite, data, start, parts)
    decreases |parts|, |data| - start, 1
  {
    hide SkipSpace, WalkMembers;
    var pos := SkipJSONSpace(data, start);
    if pos == |data| || parts == [] || data[pos] != OPEN_OBJECT { return Same; }
    r := WalkJSONMembers(codec, rewrite, data, pos + 1, parts);
  }

  method RewriteJSONNamed(codec: Codec, rewrite: Mapping, data: Bytes, key: nat, keyEnd: nat, child: nat,
                          parts: seq<string>) returns (r: Outcome<Bytes>)
    requires key <= keyEnd <= child <= |data| && parts != []
    ensures r == RewriteNamed(codec, rewrite, data, key, keyEnd, child, parts)
    decreases |parts|, |data| - child, 0
  {
    if codec.decode(data[key..keyEnd]) != parts[0] { return Same; }
    if |parts| == 1 { return RewriteToken(codec, rewrite, data, child); }
    r := WalkJSON(codec, rewrite, data, child, parts[1..]);
  }

  lemma WalkUnfold(codec: Codec, rewrite: Mapping, data: Bytes, pos: nat, parts: seq<string>)
    requires pos <= |data| && parts != []
    ensures WalkMembers(codec, rewrite, data, pos, parts)
         == var p := SkipSpace(data, pos);
            if p < |data| && data[p] == CLOSE_OBJECT then Same
            else match TokenEnd(data, p)
              case Bad(e) => Failed(Malformed(e))
              case End(keyEnd) =>
                var colon := SkipSpace(data, keyEnd);
                if colon == |data| || data[colon] != COLON then Failed(Malformed(ColonExpected))
                else
                  var child := SkipSpace(data, colon + 1);
                  match ValueEnd(data, child)
                  case Bad(e) => Failed(Malformed(e))
                  case End(childEnd) =>
                    var hit := RewriteNamed(codec, rewrite, data, p, keyEnd, child, parts);
                    if !hit.Same? then hit
                    else
                      var next := SkipSpace(data, childEnd);
                      if next < |data| && data[next] == CLOSE_OBJECT then Same
                      else if next == |data| || data[next] != COMMA then Failed(Malformed(SeparatorExpected))
                      else WalkMembers(codec, rewrite, data, next + 1, parts)
  {
    hide RewriteNamed, SkipSpace, TokenEnd, ValueEnd;
  }

  /** The loop over the members of an object whose brace has been read. */
  method WalkJSONMembers(codec: Codec, rewrite: Mapping, data: Bytes, start: nat, parts: seq<string>)
    returns (r: Outcome<Bytes>)
    requires start <= |data| && parts != []
    ensures r == WalkMembers(codec, rewrite, data, start, parts)
    decreases |parts|, |data| - start, 0
  {
    hide TokenEnd, SkipSpace, ValueEnd, RewriteNamed, WalkMembers;
    var pos := start;
    while true
      invariant start <= pos <= |data|
      invariant WalkMembers(codec, rewrite, data, start, parts) == WalkMembers(codec, rewrite, data, pos, parts)
      decreases |data| - pos
    {
      WalkUnfold(codec, rewrite, data, pos, parts);
      var p := SkipJSONSpace(data, pos);
      if p < |data| && data[p] == CLOSE_OBJECT { return Same; }
      var key := TokenEnd(data, p);
      if key.Bad? { return Failed(Malformed(key.error)); }
      var colon := SkipJSONSpace(data, key.pos);
      if colon == |data| || data[colon] != COLON { return Failed(Malformed(ColonExpected)); }
      var child := SkipJSONSpace(data, colon + 1);
      var childEnd := SkipJSONValue(data, child);
      if childEnd.Bad? { return Failed(Malformed(childEnd.error)); }
      r := RewriteJSONNamed(codec, rewrite, data, p, key.pos, child, parts);
      if !r.Same? { return; }
      var next := SkipJSONSpace(data, childEnd.pos);
      if next < |data| && data[next] == CLOSE_OBJECT { return Same; }
      if next == |data| || data[next] != COMMA { return Failed(Malformed(SeparatorExpected)); }
      pos := next + 1;
    }
  }

  function RewritePath(codec: Codec, rewrite: Mapping, data: Bytes, path: string): (r: Outcome<Bytes>) {
    if Split(path)[0] == "" then Same else Walk(codec, rewrite, data, 0, Split(path))
  }

  method RewriteJSONPath(codec: Codec, rewrite: Mapping, data: Bytes, path: string) returns (r: Outcome<Bytes>)
    ensures r == RewritePath(codec, rewrite, data, path)
  {
    var parts := Split(path);
    if parts[0] == "" { return Same; }
    r := WalkJSON(codec, rewrite, data, 0, parts);
  }

  // ------------------------------------------------------------------- on the tree

  /** The first string at the path that the mapping changes, replaced. */
  function RewriteValue(codec: Codec, rewrite: Mapping, v: Value, parts: seq<string>): (r: Outcome<Value>)
    decreases v
  {
    if parts == [] || !v.Object? then Same
    else match RewriteMembers(codec, rewrite, v.members, parts)
      case Same => Same
      case Failed(e) => Failed(e)
      case Changed(m) => Changed(v.(members := m))
  }

  function RewriteChild(codec: Codec, rewrite: Mapping, m: Members, parts: seq<string>): (r: Outcome<Value>)
    requires parts != []
    decreases m, 0
  {
    if codec.decode(Quoted(m.key)) != parts[0] then Same
    else if |parts| > 1 then RewriteValue(codec, rewrite, m.value, parts[1..])
    else if !m.value.Text? then Same
    else
      var raw := codec.decode(Quoted(m.value.chars));
      match rewrite(raw)
      case None => Failed(Refused)
      case Some(mapped) => if mapped != raw then Changed(Text(codec.encode(mapped))) else Same
  }

  function RewriteMembers(codec: Codec, rewrite: Mapping, m: Members, parts: seq<string>): (r: Outcome<Members>)
    requires parts != []
    decreases m, 1
  {
    match RewriteChild(codec, rewrite, m, parts)
    case Failed(e) => Failed(e)
    case Changed(v) => Changed(m.(value := v))
    case Same =>
      if m.tail.CloseObject? then Same
      else match RewriteMembers(codec, rewrite, m.tail.members, parts)
        case Same => Same
        case Failed(e) => Failed(e)
        case Changed(rest) => Changed(m.(tail := NextMember(m.tail.pad, rest)))
  }

  // ---------------------------------------------------------------------- agreement

  /** The data with a stretch of it replaced. */
  function Splice(data: Bytes, pos: nat, length: nat, text: Bytes): (r: Bytes)
    requires pos + length <= |data|
  {
    data[..pos] + text + data[pos + length..]
  }

  /** Replacing the middle of a stretch is replacing the stretch by one with another middle. */
  lemma SpliceMiddle(data: Bytes, pos: nat, a: Bytes, b: Bytes, c: Bytes, b': Bytes)
    requires Spells(data, pos, a + b + c)
    ensures Splice(data, pos + |a|, |b|, b') == Splice(data, pos, |a + b + c|, a + b' + c)
  {
    SpellsParts(data, pos, a + b, c);
    SpellsParts(data, pos, a, b);
    assert data[..pos + |a|] == data[..pos] + a;
    assert data[pos + |a| + |b|..] == c + data[pos + |a + b + c|..];
  }

  /** What an outcome on the tree means for the bytes that spell it. */
  ghost function Respelled(data: Bytes, pos: nat, length: nat, r: Outcome<Bytes>): Outcome<Bytes>
    requires pos + length <= |data|
  {
    match r
    case Same => Same
    case Failed(e) => Failed(e)
    case Changed(text) => Changed(Splice(data, pos, length, text))
  }

  ghost function PrintedValue(r: Outcome<Value>): Outcome<Bytes> {
    match r
    case Same => Same
    case Failed(e) => Failed(e)
    case Changed(v) => Changed(Print(v))
  }

  ghost function PrintedMembers(r: Outcome<Members>): Outcome<Bytes> {
    match r
    case Same => Same
    case Failed(e) => Failed(e)
    case Changed(m) => Changed(PrintMembers(m))
  }

  lemma SpelledToken(data: Bytes, pos: nat, text: Bytes)
    requires Spells(data, pos, text)
    ensures pos + |text| <= |data| && data[pos..pos + |text|] == text
  {
  }

  /** A child that is a string: the same text is mapped, and the token is replaced. */
  lemma TokenAgrees(codec: Codec, rewrite: Mapping, data: Bytes, child: nat, v: Value)
    requires Spells(data, child, Print(v)) && ValidValue(v)
    ensures child <= |data|
    ensures !v.Text? ==> RewriteToken(codec, rewrite, data, child) == Same
    ensures v.Text? ==>
              var raw := codec.decode(Quoted(v.chars));
              RewriteToken(codec, rewrite, data, child)
              == match rewrite(raw)
                 case None => Failed(Refused)
                 case Some(mapped) =>
                   if mapped != raw then Changed(Splice(data, child, |Print(v)|, Quoted(codec.encode(mapped))))
                       else Same
  {
    hide StringEnd;
    ValueStarts(data, child, v);
    PrintStarts(v);
    if v.Text? {
      TokenIsExact(data, child, v.chars);
      SpelledToken(data, child, Quoted(v.chars));
    }
  }

  /** The bytes of a member around its value. */
  ghost function Before(m: Members): Bytes { Quoted(m.key) + m.beforeColon + [COLON] + m.afterColon }
  ghost function After(m: Members): Bytes { m.after + PrintMemberTail(m.tail) }

  lemma MemberAround(m: Members)
    ensures PrintMembers(m) == Before(m) + Print(m.value) + After(m)
    ensures forall pos: nat :: ChildAt(m, pos) == pos + |Before(m)|
  {
  }

  /** The bytes of a member up to the next one. */
  ghost function Ahead(m: Members): Bytes
    requires m.tail.NextMember?
  {
    Before(m) + Print(m.value) + m.after + [COMMA] + m.tail.pad
  }

  lemma MemberAhead(m: Members)
    requires m.tail.NextMember?
    ensures PrintMembers(m) == Ahead(m) + PrintMembers(m.tail.members)
    ensures forall pos: nat :: TailAt(m, pos) + 1 + |m.tail.pad| == pos + |Ahead(m)|
  {
    hide Before, Print, PrintMembers;
    MemberAround(m);
    assert After(m) == m.after + [COMMA] + m.tail.pad + PrintMembers(m.tail.members);
  }

  /** The walk over bytes that spell a value does what the tree says. */
  lemma {:induction false} WalkAgrees(codec: Codec, rewrite: Mapping, data: Bytes, pos: nat, v: Value,
                                      parts: seq<string>)
    requires Spells(data, pos, Print(v)) && ValidValue(v)
    ensures pos + |Print(v)| <= |data|
    ensures Walk(codec, rewrite, data, pos, parts)
         == Respelled(data, pos, |Print(v)|, PrintedValue(RewriteValue(codec, rewrite, v, parts)))
    decreases |parts|, v
  {
    hide SkipSpace, RewriteMembers, PrintMembers, WalkMembers, Spaces, ValidMembers, ValidItems, PrintItems, PrintAtom,
        Quoted, PrintedMembers, Splice;
    SpelledToken(data, pos, Print(v));
    ValueStarts(data, pos, v);
    PrintStarts(v);
    if parts != [] && v.EmptyObject? {
      ObjectLayout(data, pos, OPEN_OBJECT, v.pad, [CLOSE_OBJECT]);
      EmptyWalk(codec, rewrite, data, pos + 1, parts);
    } else if parts != [] && v.Object? {
      MembersStart(v.members);
      ObjectLayout(data, pos, OPEN_OBJECT, v.pad, PrintMembers(v.members));
      MembersAgree(codec, rewrite, data, pos + 1, pos + 1 + |v.pad|, v.members, parts);
      ObjectRespelled(codec, rewrite, data, pos, v, parts);
    }
  }

  lemma EmptyWalk(codec: Codec, rewrite: Mapping, data: Bytes, pos: nat, parts: seq<string>)
    requires pos <= |data| && parts != [] && SkipSpace(data, pos) < |data| && data[SkipSpace(data, pos)] == CLOSE_OBJECT
    ensures WalkMembers(codec, rewrite, data, pos, parts) == Same
  {
  }

  lemma ObjectRespelled(codec: Codec, rewrite: Mapping, data: Bytes, pos: nat, v: Value, parts: seq<string>)
    requires v.Object? && parts != [] && Spells(data, pos, Print(v))
    ensures pos + |Print(v)| <= |data| && |Print(v)| == 1 + |v.pad| + |PrintMembers(v.members)|
    ensures Respelled(data, pos + 1 + |v.pad|, |PrintMembers(v.members)|,
            PrintedMembers(RewriteMembers(codec, rewrite, v.members, parts)))
         == Respelled(data, pos, |Print(v)|, PrintedValue(RewriteValue(codec, rewrite, v, parts)))
  {
    hide RewriteMembers, PrintMembers;
    var r := RewriteMembers(codec, rewrite, v.members, parts);
    if r.Changed? {
      var a := [OPEN_OBJECT] + v.pad;
      assert Print(v) == a + PrintMembers(v.members) + [];
      assert Print(v.(members := r.value)) == a + PrintMembers(r.value) + [];
      SpliceMiddle(data, pos, a, PrintMembers(v.members), [], PrintMembers(r.value));
    }
  }

  lemma {:induction false} MembersAgree(codec: Codec, rewrite: Mapping, data: Bytes, pos: nat, p: nat, m: Members,
                                        parts: seq<string>)
    requires pos <= |data| && SkipSpace(data, pos) == p && Spells(data, p, PrintMembers(m)) && ValidMembers(m)
             && parts != []
    ensures p + |PrintMembers(m)| <= |data|
    ensures WalkMembers(codec, rewrite, data, pos, parts)
         == Respelled(data, p, |PrintMembers(m)|, PrintedMembers(RewriteMembers(codec, rewrite, m, parts)))
    decreases |parts|, m, 1
  {
    hide SkipSpace, TokenEnd, ValueEnd, PrintMembers, WalkMembers, Spaces, Spells, ValidValue, ValidChars, Print,
        Quoted,
         RewriteNamed, RewriteChild, Splice, PrintMemberTail, ColonAt, ChildAt, ChildEnd, TailAt, Ahead;
    SpelledToken(data, p, PrintMembers(m));
    KeyLayout(data, p, m);
    ChildLayout(data, p, m);
    TailLayout(data, p, m);
    ChildIsExact(data, p, m);
    WalkUnfold(codec, rewrite, data, pos, parts);
    NamedAgrees(codec, rewrite, data, p, m, parts);
    if RewriteChild(codec, rewrite, m, parts).Same? && m.tail.NextMember? {
      MembersAgree(codec, rewrite, data, TailAt(m, p) + 1, TailAt(m, p) + 1 + |m.tail.pad|, m.tail.members, parts);
      TailRespelled(codec, rewrite, data, p, m, parts);
    }
  }

  lemma ChildIsExact(data: Bytes, pos: nat, m: Members)
    requires Spells(data, pos, PrintMembers(m)) && ValidMembers(m)
    ensures ChildAt(m, pos) <= |data| && ValueEnd(data, ChildAt(m, pos)) == End(ChildEnd(m, pos))
  {
    hide SkipSpace, ValueEnd, PrintMembers, Spaces, Spells, Print, Quoted;
    ChildLayout(data, pos, m);
    TailLayout(data, pos, m);
    ValueIsExact(data, ChildAt(m, pos), m.value);
  }

  lemma TailRespelled(codec: Codec, rewrite: Mapping, data: Bytes, p: nat, m: Members, parts: seq<string>)
    requires Spells(data, p, PrintMembers(m)) && parts != [] && RewriteChild(codec, rewrite, m, parts).Same?
             && m.tail.NextMember?
    ensures p + |PrintMembers(m)| <= |data|
    ensures TailAt(m, p) + 1 + |m.tail.pad| + |PrintMembers(m.tail.members)| == p + |PrintMembers(m)|
    ensures Respelled(data, TailAt(m, p) + 1 + |m.tail.pad|, |PrintMembers(m.tail.members)|,
                      PrintedMembers(RewriteMembers(codec, rewrite, m.tail.members, parts)))
         == Respelled(data, p, |PrintMembers(m)|, PrintedMembers(RewriteMembers(codec, rewrite, m, parts)))
  {
    hide PrintMembers, RewriteChild, Ahead, TailAt, Splice;
    SpelledToken(data, p, PrintMembers(m));
    MemberAhead(m);
    var r := RewriteMembers(codec, rewrite, m.tail.members, parts);
    if r.Changed? {
      var m' := m.(tail := NextMember(m.tail.pad, r.value));
      MemberAhead(m');
      AheadKept(m, r.value);
      assert PrintMembers(m) == Ahead(m) + PrintMembers(m.tail.members) + [];
      assert PrintMembers(m') == Ahead(m) + PrintMembers(r.value) + [];
      SpliceMiddle(data, p, Ahead(m), PrintMembers(m.tail.members), [], PrintMembers(r.value));
    }
  }

  lemma AheadKept(m: Members, rest: Members)
    requires m.tail.NextMember?
    ensures Ahead(m.(tail := NextMember(m.tail.pad, rest))) == Ahead(m)
  {
  }

  /** The value of one member: where it changes, the whole member list is respelled with it. */
  lemma {:induction false} NamedAgrees(codec: Codec, rewrite: Mapping, data: Bytes, p: nat, m: Members,
                                       parts: seq<string>)
    requires Spells(data, p, PrintMembers(m)) && ValidMembers(m) && parts != []
    ensures p + |Quoted(m.key)| <= ChildAt(m, p) <= |data| && p + |PrintMembers(m)| <= |data|
    ensures var child := RewriteChild(codec, rewrite, m, parts);
            RewriteNamed(codec, rewrite, data, p, p + |Quoted(m.key)|, ChildAt(m, p), parts)
            == Respelled(data, p, |PrintMembers(m)|,
                         match child
                         case Same => Same
                         case Failed(e) => Failed(e)
                         case Changed(v) => Changed(PrintMembers(m.(value := v))))
    decreases |parts|, m, 0
  {
    hide SkipSpace, TokenEnd, ValueEnd, PrintMembers, Spaces, Spells, Print, Quoted, RewriteToken, Walk, Before, After,
        Splice;
    SpelledToken(data, p, PrintMembers(m));
    ChildLayout(data, p, m);
    KeySpelled(data, p, m);
    MemberAround(m);
    if codec.decode(Quoted(m.key)) == parts[0] {
      if |parts| == 1 {
        TokenAgrees(codec, rewrite, data, ChildAt(m, p), m.value);
      } else {
        WalkAgrees(codec, rewrite, data, ChildAt(m, p), m.value, parts[1..]);
      }
    }
    var child := RewriteChild(codec, rewrite, m, parts);
    if child.Changed? {
      if |parts| == 1 { PrintText(child.value.chars); }
      ValueRespelled(data, p, m, child.value);
    }
  }

  lemma PrintText(chars: seq<Char>)
    ensures Print(Text(chars)) == Quoted(chars)
  {
  }

  lemma KeySpelled(data: Bytes, p: nat, m: Members)
    requires Spells(data, p, PrintMembers(m))
    ensures p + |Quoted(m.key)| <= |data| && data[p..p + |Quoted(m.key)|] == Quoted(m.key)
  {
    SpellsParts(data, p, Quoted(m.key),
        m.beforeColon + ([COLON] + (m.afterColon + (Print(m.value) + (m.after + PrintMemberTail(m.tail))))));
  }

  lemma ValueRespelled(data: Bytes, p: nat, m: Members, v: Value)
    requires Spells(data, p, PrintMembers(m))
    ensures p + |PrintMembers(m)| <= |data| && ChildAt(m, p) + |Print(m.value)| <= |data|
    ensures Splice(data, ChildAt(m, p), |Print(m.value)|, Print(v))
            == Splice(data, p, |PrintMembers(m)|, PrintMembers(m.(value := v)))
  {
    hide PrintMembers, Before, After, Print, Splice;
    SpelledToken(data, p, PrintMembers(m));
    MemberAround(m);
    MemberAround(m.(value := v));
    AroundKept(m, v);
    SpliceMiddle(data, p, Before(m), Print(m.value), After(m), Print(v));
  }

  lemma AroundKept(m: Members, v: Value)
    ensures Before(m.(value := v)) == Before(m) && After(m.(value := v)) == After(m)
  {
  }
}
