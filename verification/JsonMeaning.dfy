/**
 What rewriting a path means: on the parsed document it changes one string, the
 first at that path that the mapping moves, and on the bytes one string token.
 */
module JsonMeaning {
  import opened Basics
  import opened JsonSyntax
  import opened JsonScan
  import opened JsonRewrite

  /** The strings at a path, in document order; keys may repeat. */
  function StringsAt(t: Tree, parts: seq<string>): (texts: seq<string>)
    decreases |parts|, 1, 0
  {
    if parts == [] then (if t.Leaf? then [t.text] else [])
    else if t.Fields? then FieldStrings(t.fields, parts) else []
  }

  function FieldStrings(fields: seq<(string, Tree)>, parts: seq<string>): (texts: seq<string>)
    requires parts != []
    decreases |parts|, 0, |fields|
  {
    if fields == [] then [] else HeadStrings(fields[0], parts) + FieldStrings(fields[1..], parts)
  }

  function HeadStrings(field: (string, Tree), parts: seq<string>): (texts: seq<string>)
    requires parts != []
    decreases |parts|, 0, 0
  {
    if field.0 == parts[0] then StringsAt(field.1, parts[1..]) else []
  }

  /** The document with one of the strings at a path replaced. */
  function Updated(t: Tree, parts: seq<string>, i: nat, text: string): (r: Tree)
    requires i < |StringsAt(t, parts)|
    decreases |parts|, 1, 0
  {
    if parts == [] then Leaf(text) else Fields(UpdatedFields(t.fields, parts, i, text))
  }

  function UpdatedFields(fields: seq<(string, Tree)>, parts: seq<string>, i: nat, text: string)
    : (r: seq<(string, Tree)>)
    requires parts != [] && i < |FieldStrings(fields, parts)|
    decreases |parts|, 0, |fields|
  {
    var here := |HeadStrings(fields[0], parts)|;
    if i < here then [(fields[0].0, Updated(fields[0].1, parts[1..], i, text))] + fields[1..]
    else [fields[0]] + UpdatedFields(fields[1..], parts, i - here, text)
  }

  /** The strings at the path change in one place. */
  lemma {:induction false} UpdatedAt(t: Tree, parts: seq<string>, i: nat, text: string)
    requires i < |StringsAt(t, parts)|
    ensures StringsAt(Updated(t, parts, i, text), parts) == StringsAt(t, parts)[i := text]
    decreases |parts|, 1, 0
  {
    if parts != [] {
      UpdatedFieldsAt(t.fields, parts, i, text);
    }
  }

  lemma {:induction false} UpdatedFieldsAt(fields: seq<(string, Tree)>, parts: seq<string>, i: nat, text: string)
    requires parts != [] && i < |FieldStrings(fields, parts)|
    ensures FieldStrings(UpdatedFields(fields, parts, i, text), parts) == FieldStrings(fields, parts)[i := text]
    decreases |parts|, 0, |fields|
  {
    var here := HeadStrings(fields[0], parts);
    var r := UpdatedFields(fields, parts, i, text);
    if i < |here| {
      UpdatedAt(fields[0].1, parts[1..], i, text);
      assert r[1..] == fields[1..];
    } else {
      UpdatedFieldsAt(fields[1..], parts, i - |here|, text);
      assert r[1..] == UpdatedFields(fields[1..], parts, i - |here|, text);
    }
  }

  /** At every other path the strings stay. */
  lemma {:induction false} UpdatedElsewhere(t: Tree, parts: seq<string>, i: nat, text: string, other: seq<string>)
    requires i < |StringsAt(t, parts)| && other != parts
    ensures StringsAt(Updated(t, parts, i, text), other) == StringsAt(t, other)
    decreases |parts|, 1, 0
  {
    if parts != [] && other != [] {
      UpdatedFieldsElsewhere(t.fields, parts, i, text, other);
    }
  }

  lemma {:induction false} UpdatedFieldsElsewhere(fields: seq<(string, Tree)>, parts: seq<string>, i: nat,
                                                  text: string, other: seq<string>)
    requires parts != [] && other != [] && other != parts && i < |FieldStrings(fields, parts)|
    ensures FieldStrings(UpdatedFields(fields, parts, i, text), other) == FieldStrings(fields, other)
    decreases |parts|, 0, |fields|
  {
    var here := HeadStrings(fields[0], parts);
    var r := UpdatedFields(fields, parts, i, text);
    if i < |here| {
      if other[0] == parts[0] {
        assert other == [other[0]] + other[1..] && parts == [parts[0]] + parts[1..];
        UpdatedElsewhere(fields[0].1, parts[1..], i, text, other[1..]);
      }
      assert r[1..] == fields[1..];
    } else {
      UpdatedFieldsElsewhere(fields[1..], parts, i - |here|, text, other);
      assert r[1..] == UpdatedFields(fields[1..], parts, i - |here|, text);
    }
  }

  /** The position of the first text that the mapping does not keep; the length if there is none. */
  function FirstMoved(rewrite: Mapping, texts: seq<string>): (i: nat)
    ensures i <= |texts|
    ensures forall j | 0 <= j < i :: rewrite(texts[j]) == Some(texts[j])
    ensures i < |texts| ==> rewrite(texts[i]) != Some(texts[i])
  {
    if texts == [] || rewrite(texts[0]) != Some(texts[0]) then 0 else 1 + FirstMoved(rewrite, texts[1..])
  }

  lemma {:induction false} FirstMovedJoins(rewrite: Mapping, a: seq<string>, b: seq<string>)
    ensures FirstMoved(rewrite, a + b)
            == if FirstMoved(rewrite, a) < |a| then FirstMoved(rewrite, a) else |a| + FirstMoved(rewrite, b)
    decreases |a|
  {
    if a == [] {
      assert a + b == b;
    } else {
      assert (a + b)[1..] == a[1..] + b;
      FirstMovedJoins(rewrite, a[1..], b);
    }
  }

  /** What a rewrite must do to a parsed document, and to nothing else. */
  ghost predicate Fulfils(codec: Codec, rewrite: Mapping, before: Tree, parts: seq<string>, r: Outcome<Tree>) {
    var texts := StringsAt(before, parts);
    var i := FirstMoved(rewrite, texts);
    if i == |texts| then r == Same
    else if rewrite(texts[i]).None? then r == Failed(Refused)
    else r == Changed(Updated(before, parts, i, rewrite(texts[i]).value))
  }

  ghost function TreeOf(codec: Codec, r: Outcome<Value>): Outcome<Tree> {
    match r
    case Same => Same
    case Failed(e) => Failed(e)
    case Changed(v) => Changed(Meaning(codec, v))
  }

  /** The rewritten tree is the parsed document with its first moved string replaced. */
  lemma {:induction false} RewriteMeans(codec: Codec, rewrite: Mapping, v: Value, parts: seq<string>)
    requires Lawful(codec) && parts != []
    ensures Fulfils(codec, rewrite, Meaning(codec, v), parts, TreeOf(codec, RewriteValue(codec, rewrite, v, parts)))
    decreases v
  {
    if v.Object? {
      MembersMean(codec, rewrite, v.members, parts);
    }
  }

  ghost predicate FieldsFulfil(codec: Codec, rewrite: Mapping, before: seq<(string, Tree)>, parts: seq<string>,
                               r: Outcome<Members>)
    requires parts != []
  {
    var texts := FieldStrings(before, parts);
    var i := FirstMoved(rewrite, texts);
    if i == |texts| then r == Same
    else if rewrite(texts[i]).None? then r == Failed(Refused)
    else r.Changed? && MembersMeaning(codec, r.value) == UpdatedFields(before, parts, i, rewrite(texts[i]).value)
  }

  ghost predicate ChildFulfils(codec: Codec, rewrite: Mapping, m: Members, parts: seq<string>, r: Outcome<Value>)
    requires parts != []
  {
    var field := (codec.decode(Quoted(m.key)), Meaning(codec, m.value));
    var texts := HeadStrings(field, parts);
    var i := FirstMoved(rewrite, texts);
    if i == |texts| then r == Same
    else if rewrite(texts[i]).None? then r == Failed(Refused)
    else r.Changed? && Meaning(codec, r.value) == Updated(field.1, parts[1..], i, rewrite(texts[i]).value)
  }

  lemma {:induction false} ChildMeans(codec: Codec, rewrite: Mapping, m: Members, parts: seq<string>)
    requires Lawful(codec) && parts != []
    ensures ChildFulfils(codec, rewrite, m, parts, RewriteChild(codec, rewrite, m, parts))
    decreases m, 0
  {
    if codec.decode(Quoted(m.key)) == parts[0] {
      if |parts| > 1 {
        RewriteMeans(codec, rewrite, m.value, parts[1..]);
      } else {
        assert parts[1..] == [];
        if m.value.Text? {
          var raw := codec.decode(Quoted(m.value.chars));
          assert StringsAt(Meaning(codec, m.value), []) == [raw];
          assert FirstMoved(rewrite, [raw]) == if rewrite(raw) == Some(raw) then 1 else 0;
        }
      }
    }
  }

  lemma {:induction false} MembersMean(codec: Codec, rewrite: Mapping, m: Members, parts: seq<string>)
    requires Lawful(codec) && parts != []
    ensures FieldsFulfil(codec, rewrite, MembersMeaning(codec, m), parts, RewriteMembers(codec, rewrite, m, parts))
    decreases m, 1
  {
    var fields := MembersMeaning(codec, m);
    var field := (codec.decode(Quoted(m.key)), Meaning(codec, m.value));
    var rest := if m.tail.CloseObject? then [] else MembersMeaning(codec, m.tail.members);
    assert fields == [field] + rest && fields[1..] == rest;
    ChildMeans(codec, rewrite, m, parts);
    FirstMovedJoins(rewrite, HeadStrings(field, parts), FieldStrings(rest, parts));
    if m.tail.NextMember? {
      MembersMean(codec, rewrite, m.tail.members, parts);
    }
  }

  // --------------------------------------------------------------------- one token

  /** A rewrite replaces one string token by the encoding of the mapped text; every other byte stays. */
  lemma {:induction false} OneToken(codec: Codec, rewrite: Mapping, v: Value, parts: seq<string>)
    returns (ahead: Bytes, chars: seq<Char>, text: string, behind: Bytes)
    requires Lawful(codec) && ValidValue(v) && RewriteValue(codec, rewrite, v, parts).Changed?
    ensures ValidChars(chars) && rewrite(codec.decode(Quoted(chars))) == Some(text)
            && text != codec.decode(Quoted(chars))
    ensures var v' := RewriteValue(codec, rewrite, v, parts).value;
            && ValidValue(v')
            && Print(v) == ahead + Quoted(chars) + behind
            && Print(v') == ahead + Quoted(codec.encode(text)) + behind
    decreases v
  {
    hide Quoted, PrintMembers, RewriteMembers, Lawful, Spaces, ValidChars, ValidItems, PrintItems;
    var inside: Bytes;
    inside, chars, text, behind := OneMemberToken(codec, rewrite, v.members, parts);
    ahead := [OPEN_OBJECT] + v.pad + inside;
    Regroup(v.pad, inside, Quoted(chars), behind);
    Regroup(v.pad, inside, Quoted(codec.encode(text)), behind);
  }

  lemma Regroup(pad: Bytes, inside: Bytes, token: Bytes, behind: Bytes)
    ensures [OPEN_OBJECT] + (pad + (inside + token + behind)) == [OPEN_OBJECT] + pad + inside + token + behind
  {
  }

  lemma {:induction false} OneChildToken(codec: Codec, rewrite: Mapping, m: Members, parts: seq<string>)
    returns (ahead: Bytes, chars: seq<Char>, text: string, behind: Bytes)
    requires Lawful(codec) && parts != [] && ValidValue(m.value) && RewriteChild(codec, rewrite, m, parts).Changed?
    ensures ValidChars(chars) && rewrite(codec.decode(Quoted(chars))) == Some(text)
            && text != codec.decode(Quoted(chars))
    ensures var v' := RewriteChild(codec, rewrite, m, parts).value;
            && ValidValue(v')
            && Print(m.value) == ahead + Quoted(chars) + behind
            && Print(v') == ahead + Quoted(codec.encode(text)) + behind
    decreases m, 0
  {
    if |parts| > 1 {
      ahead, chars, text, behind := OneToken(codec, rewrite, m.value, parts[1..]);
    } else {
      ahead, chars, behind := [], m.value.chars, [];
      text := rewrite(codec.decode(Quoted(chars))).value;
    }
  }

  lemma {:induction false} OneMemberToken(codec: Codec, rewrite: Mapping, m: Members, parts: seq<string>)
    returns (ahead: Bytes, chars: seq<Char>, text: string, behind: Bytes)
    requires Lawful(codec) && parts != [] && ValidMembers(m) && RewriteMembers(codec, rewrite, m, parts).Changed?
    ensures ValidChars(chars) && rewrite(codec.decode(Quoted(chars))) == Some(text)
            && text != codec.decode(Quoted(chars))
    ensures var m' := RewriteMembers(codec, rewrite, m, parts).value;
            && ValidMembers(m')
            && PrintMembers(m) == ahead + Quoted(chars) + behind
            && PrintMembers(m') == ahead + Quoted(codec.encode(text)) + behind
    decreases m, 1
  {
    hide Quoted, RewriteChild, Lawful, PrintMembers, Print, Before, After, Ahead;
    var m' := RewriteMembers(codec, rewrite, m, parts).value;
    if RewriteChild(codec, rewrite, m, parts).Changed? {
      ahead, chars, text, behind := OneChildToken(codec, rewrite, m, parts);
      ahead, behind := Before(m) + ahead, behind + After(m);
      MemberAround(m);
      MemberAround(m');
      AroundKept(m, m'.value);
    } else {
      ahead, chars, text, behind := OneMemberToken(codec, rewrite, m.tail.members, parts);
      ahead := Ahead(m) + ahead;
      MemberAhead(m);
      MemberAhead(m');
      AheadKept(m, m'.tail.members);
    }
  }

  // --------------------------------------------------------------------- documents

  /** A document: a value with whitespace around it (section 2 of RFC 8259). */
  function Document(lead: Bytes, v: Value, trail: Bytes): (r: Bytes) { lead + (Print(v) + trail) }

  lemma DocumentLayout(lead: Bytes, v: Value, trail: Bytes)
    requires Spaces(lead) && Spaces(trail) && ValidValue(v)
    ensures var data := Document(lead, v, trail);
            SkipSpace(data, 0) == |lead| && Spells(data, |lead|, Print(v)) && Delimited(data, |lead| + |Print(v)|)
  {
    hide Print, ValidValue;
    var data := Document(lead, v, trail);
    assert data[0..|data|] == data;
    PrintStarts(v);
    SpaceThen(data, 0, lead, Print(v) + trail);
    SpellsParts(data, |lead|, Print(v), trail);
    assert trail != [] ==> data[|lead| + |Print(v)|] == trail[0];
  }

  /** The scanner ends where the value of a document does. */
  lemma DocumentEnd(lead: Bytes, v: Value, trail: Bytes)
    requires Spaces(lead) && Spaces(trail) && ValidValue(v)
    ensures ValueEnd(Document(lead, v, trail), 0) == End(|lead| + |Print(v)|)
  {
    hide Print, ValidValue, Spells, ValueEnd, Document;
    DocumentLayout(lead, v, trail);
    ValueIsExact(Document(lead, v, trail), |lead|, v);
    ValueEndPastSpace(Document(lead, v, trail), 0);
  }

  /**
   Rewriting the bytes of a document is rewriting its tree: the same bytes, a
   refusal of the mapping, or the bytes of the rewritten document; never a
   complaint about the document.
   */
  lemma DocumentRewrite(codec: Codec, rewrite: Mapping, lead: Bytes, v: Value, trail: Bytes, path: string)
    requires Spaces(lead) && Spaces(trail) && ValidValue(v) && Split(path)[0] != ""
    ensures RewritePath(codec, rewrite, Document(lead, v, trail), path)
         == match RewriteValue(codec, rewrite, v, Split(path))
            case Same => Same
            case Failed(e) => Failed(e)
            case Changed(v') => Changed(Document(lead, v', trail))
  {
    hide Print, ValidValue, Spells, Walk, RewriteValue, SkipSpace, Split;
    var data := Document(lead, v, trail);
    DocumentLayout(lead, v, trail);
    WalkPastSpace(codec, rewrite, data, 0, Split(path));
    WalkAgrees(codec, rewrite, data, |lead|, v, Split(path));
    var r := RewriteValue(codec, rewrite, v, Split(path));
    if r.Changed? {
      assert data[..|lead|] == lead && data[|lead| + |Print(v)|..] == trail;
      assert lead + Print(r.value) + trail == Document(lead, r.value, trail);
    }
  }

  /** The bytes differ in one string token, whose text the mapping moves. */
  ghost predicate OneTokenApart(codec: Codec, rewrite: Mapping, before: Bytes, after: Bytes) {
    exists ahead: Bytes, chars, text, behind: Bytes ::
      && ValidChars(chars) && rewrite(codec.decode(Quoted(chars))) == Some(text) && text != codec.decode(Quoted(chars))
      && before == ahead + Quoted(chars) + behind && after == ahead + Quoted(codec.encode(text)) + behind
  }

  /** The document of a rewritten tree: one string token apart, and the parsed tree updated at the path. */
  ghost predicate RewrittenTo(codec: Codec, rewrite: Mapping, lead: Bytes, v: Value, trail: Bytes, parts: seq<string>,
                              i: nat, v': Value)
    requires i < |StringsAt(Meaning(codec, v), parts)| && rewrite(StringsAt(Meaning(codec, v), parts)[i]).Some?
  {
    && ValidValue(v')
    && Meaning(codec, v') == Updated(Meaning(codec, v), parts, i, rewrite(StringsAt(Meaning(codec, v), parts)[i]).value)
    && OneTokenApart(codec, rewrite, Document(lead, v, trail), Document(lead, v', trail))
  }

  /**
   The rewrite of any valid document: the same bytes when the mapping keeps every
   string at the path, a refusal when it refuses the first one that it does not
   keep, and otherwise the bytes of a document that is one string token apart and
   whose tree has that string replaced.
   */
  lemma DocumentMeans(codec: Codec, rewrite: Mapping, lead: Bytes, v: Value, trail: Bytes, path: string)
    requires Lawful(codec) && Spaces(lead) && Spaces(trail) && ValidValue(v)
    ensures var parts := Split(path);
            var r := RewritePath(codec, rewrite, Document(lead, v, trail), path);
            var texts := StringsAt(Meaning(codec, v), parts);
            var i := FirstMoved(rewrite, texts);
            if parts[0] == "" || i == |texts| then r == Same
            else if rewrite(texts[i]).None? then r == Failed(Refused)
            else exists v' ::
              r == Changed(Document(lead, v', trail)) && RewrittenTo(codec, rewrite, lead, v, trail, parts, i, v')
  {
    hide Lawful, StringsAt, FirstMoved, Updated, Meaning, Document, RewriteValue, ValidValue, Split, OneTokenApart,
        Walk;
    var parts := Split(path);
    if parts[0] != "" {
      DocumentRewrite(codec, rewrite, lead, v, trail, path);
      RewriteMeans(codec, rewrite, v, parts);
      var r := RewriteValue(codec, rewrite, v, parts);
      if r.Changed? {
        ApartInDocument(codec, rewrite, lead, v, trail, parts);
        assert RewrittenTo(codec, rewrite, lead, v, trail, parts,
               FirstMoved(rewrite, StringsAt(Meaning(codec, v), parts)), r.value);
      }
    }
  }

  lemma ApartInDocument(codec: Codec, rewrite: Mapping, lead: Bytes, v: Value, trail: Bytes, parts: seq<string>)
    requires Lawful(codec) && ValidValue(v) && RewriteValue(codec, rewrite, v, parts).Changed?
    ensures var v' := RewriteValue(codec, rewrite, v, parts).value;
            ValidValue(v') && OneTokenApart(codec, rewrite, Document(lead, v, trail), Document(lead, v', trail))
  {
    hide Lawful, ValidValue, RewriteValue, Print, Quoted, ValidChars;
    var ahead, chars, text, behind := OneToken(codec, rewrite, v, parts);
    var v' := RewriteValue(codec, rewrite, v, parts).value;
    Enclosed(lead, ahead, Quoted(chars), behind, trail);
    Enclosed(lead, ahead, Quoted(codec.encode(text)), behind, trail);
    assert Document(lead, v, trail) == (lead + ahead) + Quoted(chars) + (behind + trail);
    assert Document(lead, v', trail) == (lead + ahead) + Quoted(codec.encode(text)) + (behind + trail);
  }

  lemma Enclosed(lead: Bytes, ahead: Bytes, token: Bytes, behind: Bytes, trail: Bytes)
    ensures lead + ((ahead + token + behind) + trail) == (lead + ahead) + token + (behind + trail)
    ensures lead + (ahead + token + behind) + trail == (lead + ahead) + token + (behind + trail)
  {
  }

  lemma WalkPastSpace(codec: Codec, rewrite: Mapping, data: Bytes, pos: nat, parts: seq<string>)
    requires pos <= |data|
    ensures Walk(codec, rewrite, data, pos, parts) == Walk(codec, rewrite, data, SkipSpace(data, pos), parts)
  {
    assert SkipSpace(data, SkipSpace(data, pos)) == SkipSpace(data, pos);
  }

  /** A path is its parts with dots between them, and no part holds a dot. */
  function Join(parts: seq<string>): (path: string)
    requires parts != []
  {
    if |parts| == 1 then parts[0] else parts[0] + "." + Join(parts[1..])
  }

  lemma JoinAfterDot(parts: seq<string>)
    requires parts != []
    ensures Join([""] + parts) == ['.'] + Join(parts)
  {
    assert ([""] + parts)[1..] == parts;
  }

  lemma JoinGrows(c: char, parts: seq<string>)
    requires parts != []
    ensures Join([[c] + parts[0]] + parts[1..]) == [c] + Join(parts)
  {
    assert ([[c] + parts[0]] + parts[1..])[1..] == parts[1..];
  }

  lemma {:induction false} SplitJoins(path: string)
    ensures Join(Split(path)) == path && forall part | part in Split(path) :: '.' !in part
  {
    if path != "" {
      SplitJoins(path[1..]);
      hide Join;
      var rest := Split(path[1..]);
      JoinAfterDot(rest);
      JoinGrows(path[0], rest);
      assert path == [path[0]] + path[1..];
    }
  }
}
