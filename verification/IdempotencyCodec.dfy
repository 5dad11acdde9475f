/**
 The stored form of a completed response: a magic word, the status, the header
 names in order with their values, and the body, each behind its length.
 */
module IdempotencyCodec {
  import opened Basics
  import opened ByteStrings
  import opened HeaderText
  import opened Sums

  const MAX_BODY := 0x200_0000
  const MAX_HEADERS := 128
  const MAX_VALUES := 512
  const MAX_HEADER_BYTES := 0x1_0000
  const MAX_NAME := 256
  const MAX_VALUE := 0x4000
  const MAGIC: Bytes := [0x48, 0x49, 0x44, 0x31]

  type Header = map<Bytes, seq<Bytes>>
  datatype Response = Response(status: int, header: Header, body: Bytes)

  // --------------------------------------------------------------- what is accepted

  function Lengths(values: seq<Bytes>): (n: nat) {
    if values == [] then 0 else |values[0]| + Lengths(values[1..])
  }

  function Identity(): (f: int -> int) { x => x }

  ghost function Sizes(h: Header, names: set<Bytes>): map<Bytes, int> {
    map name | name in names && name in h :: |name| + Lengths(h[name])
  }

  ghost function Counts(h: Header, names: set<Bytes>): map<Bytes, int> {
    map name | name in names && name in h :: |h[name]|
  }

  /** The bytes of some of the names together with their values. */
  ghost function HeaderBytes(h: Header, names: set<Bytes>): int { Sum(Sizes(h, names), Identity()) }

  ghost function HeaderValues(h: Header, names: set<Bytes>): int { Sum(Counts(h, names), Identity()) }

  predicate NameAccepted(raw: Bytes) {
    Canonical(raw) != [] && Canonical(raw) == Trim(raw) && CleanText(raw) && |Canonical(raw)| <= MAX_NAME
  }

  predicate ValueAccepted(value: Bytes) { |value| <= MAX_VALUE && CleanText(value) }

  predicate ValuesAccepted(values: seq<Bytes>) { forall value | value in values :: ValueAccepted(value) }

  ghost predicate HeadersAccepted(h: Header) {
    && |h| <= MAX_HEADERS
    && (forall name | name in h :: NameAccepted(name) && ValuesAccepted(h[name]))
    && HeaderValues(h, h.Keys) <= MAX_VALUES && HeaderBytes(h, h.Keys) <= MAX_HEADER_BYTES
  }

  /** Exactly the responses that can be stored. */
  ghost predicate Accepted(r: Response) {
    100 <= r.status <= 599 && |r.body| <= MAX_BODY && HeadersAccepted(r.header)
  }

  // ----------------------------------------------------------------------- encoding

  function EncodeValues(values: seq<Bytes>): (r: Bytes) {
    if values == [] then [] else Uint32(|values[0]|) + values[0] + EncodeValues(values[1..])
  }

  function ValuesText(values: seq<Bytes>): (r: Bytes) { EncodeValues(values) }

  function EncodeHeader(name: Bytes, values: seq<Bytes>): (r: Bytes) {
    Uint16(|name|) + Uint16(|values|) + name + ValuesText(values)
  }

  function EncodeHeaders(h: Header, names: seq<Bytes>): (r: Bytes)
    requires forall name | name in names :: name in h
  {
    if names == [] then [] else EncodeHeader(names[0], h[names[0]]) + EncodeHeaders(h, names[1..])
  }

  ghost function Encoded(r: Response): Bytes {
    ListingDistinct(r.header.Keys);
    MAGIC + Uint16(if r.status < 0 then 0 else r.status) + Uint16(|r.header|) + Uint32(|r.body|)
    + EncodeHeaders(r.header, Listing(r.header.Keys)) + r.body
  }

  // ----------------------------------------------------------------------- decoding

  datatype Values = Values(values: seq<Bytes>, rest: Bytes, bytes: nat)
  datatype Headers = Headers(header: Header, rest: Bytes, values: nat, bytes: nat)

  function DecodeValue(v: Values): (r: Option<Values>) {
    if |v.rest| < 4 then None
    else
      var length := ReadUint(v.rest[..4]);
      var rest := v.rest[4..];
      if length > MAX_VALUE || length > |rest| || v.bytes > MAX_HEADER_BYTES - length then None
      else
        var value := rest[..length];
        if !CleanText(value) then None else Some(Values(v.values + [value], rest[length..], v.bytes + length))
  }

  function DecodeValues(count: nat, v: Values): (r: Option<Values>)
    decreases count
  {
    if count == 0 then Some(v)
    else match DecodeValue(v)
      case None => None
      case Some(next) => DecodeValues(count - 1, next)
  }

  /** The values of one name. */
  function TakeValues(count: nat, rest: Bytes, bytes: nat): (r: Option<Values>) {
    DecodeValues(count, Values([], rest, bytes))
  }

  /** One name with its values, taken off the front. */
  function DecodeHeader(h: Headers): (r: Option<Headers>) {
    if |h.rest| < 4 then None
    else
      var length := ReadUint(h.rest[..2]);
      var count := ReadUint(h.rest[2..4]);
      var rest := h.rest[4..];
      if length == 0 || length > MAX_NAME || count > MAX_VALUES || h.values > MAX_VALUES - count || length > |rest|
          then None
      else
        var name := rest[..length];
        if Canonical(name) != name || !CleanText(name) || name in h.header || h.bytes > MAX_HEADER_BYTES - length
            then None
        else match TakeValues(count, rest[length..], h.bytes + length)
          case None => None
          case Some(v) => Some(Headers(h.header[name := v.values], v.rest, h.values + count, v.bytes))
  }

  function DecodeHeaders(count: nat, h: Headers): (r: Option<Headers>)
    decreases count
  {
    if count == 0 then Some(h)
    else match DecodeHeader(h)
      case None => None
      case Some(next) => DecodeHeaders(count - 1, next)
  }

  /** All the headers. */
  function TakeHeaders(count: nat, rest: Bytes): (r: Option<Headers>) {
    DecodeHeaders(count, Headers(map[], rest, 0, 0))
  }

  function Decode(plain: Bytes): (r: Option<Response>) {
    if |plain| < 12 || plain[..4] != MAGIC then None
    else
      var status := ReadUint(plain[4..6]);
      var count := ReadUint(plain[6..8]);
      var body := ReadUint(plain[8..12]);
      if status < 100 || status > 599 || count > MAX_HEADERS || body > MAX_BODY then None
      else match TakeHeaders(count, plain[12..])
        case None => None
        case Some(h) => if body != |h.rest| then None else Some(Response(status, h.header, h.rest))
  }

  // --------------------------------------------------------------------- round trip

  function Restricted(h: Header, names: seq<Bytes>): (r: Header) {
    map name | name in h && name in names :: h[name]
  }

  function NamedValues(h: Header, names: seq<Bytes>): (n: nat)
    requires forall name | name in names :: name in h
  {
    if names == [] then 0 else |h[names[0]]| + NamedValues(h, names[1..])
  }

  function NamedBytes(h: Header, names: seq<Bytes>): (n: nat)
    requires forall name | name in names :: name in h
  {
    if names == [] then 0 else |names[0]| + Lengths(h[names[0]]) + NamedBytes(h, names[1..])
  }

  lemma Regroup(a: Bytes, b: Bytes, c: Bytes, d: Bytes, e: Bytes)
    ensures a + b + c + d + e == a + (b + (c + (d + e)))
  {
  }

  lemma EncodedValuesThen(values: seq<Bytes>, rest: Bytes)
    requires values != []
    ensures EncodeValues(values) + rest == Uint32(|values[0]|) + (values[0] + (EncodeValues(values[1..]) + rest))
  {
    hide Uint16, Uint32;
    Regroup([], Uint32(|values[0]|), values[0], EncodeValues(values[1..]), rest);
  }

  lemma EncodedHeaderThen(name: Bytes, values: seq<Bytes>, rest: Bytes)
    ensures EncodeHeader(name, values) + rest
            == Uint16(|name|) + (Uint16(|values|) + (name + (ValuesText(values) + rest)))
  {
    hide Uint16, Uint32, ValuesText;
    Regroup(Uint16(|name|), Uint16(|values|), name, ValuesText(values), rest);
  }

  lemma Front(a: Bytes, b: Bytes)
    ensures (a + b)[..|a|] == a && (a + b)[|a|..] == b
  {
  }

  lemma ValueStep(v: Values, value: Bytes, more: Bytes)
    requires v.rest == Uint32(|value|) + (value + more) && ValueAccepted(value) && v.bytes + |value| <= MAX_HEADER_BYTES
    ensures DecodeValue(v) == Some(Values(v.values + [value], more, v.bytes + |value|))
  {
    hide CleanText, Uint16, Uint32, ReadUint;
    Front(Uint32(|value|), value + more);
    Read32(|value|);
    Front(value, more);
  }

  lemma NoValues()
    ensures EncodeValues([]) == []
  {
  }

  lemma {:induction false} ValuesRoundTrip(values: seq<Bytes>, v: Values, rest: Bytes)
    requires v.rest == EncodeValues(values) + rest
    requires ValuesAccepted(values)
    requires v.bytes + Lengths(values) <= MAX_HEADER_BYTES
    ensures DecodeValues(|values|, v) == Some(Values(v.values + values, rest, v.bytes + Lengths(values)))
    decreases |values|
  {
    hide ValueAccepted, Uint16, Uint32, EncodeValues, DecodeValue;
    if values == [] {
      assert EncodeValues(values) == [] by { NoValues(); }
      assert v.rest == rest && v.values + values == v.values;
    } else {
      var value := values[0];
      var more := EncodeValues(values[1..]) + rest;
      EncodedValuesThen(values, rest);
      ValueStep(v, value, more);
      ValuesUnfold(|values|, v);
      ValuesRoundTrip(values[1..], Values(v.values + [value], more, v.bytes + |value|), rest);
      assert v.values + [value] + values[1..] == v.values + values;
    }
  }

  lemma AllValuesRoundTrip(values: seq<Bytes>, start: nat, after: Bytes, rest: Bytes, total: nat)
    requires ValuesAccepted(values) && after == ValuesText(values) + rest
             && start + Lengths(values) == total <= MAX_HEADER_BYTES
    ensures TakeValues(|values|, after, start) == Some(Values(values, rest, total))
  {
    hide ValuesAccepted;
    ValuesRoundTrip(values, Values([], after, start), rest);
    assert [] + values == values;
  }

  lemma HeaderFields(name: Bytes, count: nat, text: Bytes, after: Bytes)
    requires text == Uint16(|name|) + (Uint16(count) + (name + after)) && |name| <= MAX_NAME && count <= MAX_VALUES
    ensures |text| >= 4 && ReadUint(text[..2]) == |name| && ReadUint(text[2..4]) == count && text[4..] == name + after
  {
    hide Uint16, Uint32, ReadUint;
    assert text[..2] == Uint16(|name|);
    assert text[2..4] == Uint16(count);
    Read16(|name|);
    Read16(count);
  }

  lemma HeaderStep(h: Headers, name: Bytes, count: nat, after: Bytes, bytes: nat, v: Values)
    requires |h.rest| >= 4 && ReadUint(h.rest[..2]) == |name| && ReadUint(h.rest[2..4]) == count
             && h.rest[4..] == name + after
    requires name != [] && |name| <= MAX_NAME && Canonical(name) == name && CleanText(name) && name !in h.header
    requires h.values + count <= MAX_VALUES && h.bytes + |name| == bytes <= MAX_HEADER_BYTES
    requires TakeValues(count, after, bytes) == Some(v)
    ensures DecodeHeader(h) == Some(Headers(h.header[name := v.values], v.rest, h.values + count, v.bytes))
  {
    hide CleanText, ReadUint, Canonical, TakeValues;
    Front(name, after);
  }

  /** The name and the counts are read back; what is left are the values. */
  lemma HeaderParsed(name: Bytes, count: nat, h: Headers, after: Bytes, start: nat, v: Values)
    requires h.rest == Uint16(|name|) + (Uint16(count) + (name + after)) && name !in h.header && NameAccepted(name)
    requires h.values + count <= MAX_VALUES && h.bytes + |name| == start <= MAX_HEADER_BYTES
    requires TakeValues(count, after, start) == Some(v)
    ensures DecodeHeader(h) == Some(Headers(h.header[name := v.values], v.rest, h.values + count, v.bytes))
  {
    hide CleanText, Uint16, Uint32, ReadUint, Canonical, Trim, DecodeHeader, TakeValues;
    CanonicalIsKept(name);
    HeaderFields(name, count, h.rest, after);
    HeaderStep(h, name, count, after, start, v);
  }

  lemma HeaderGiven(name: Bytes, values: seq<Bytes>, h: Headers, after: Bytes, rest: Bytes, start: nat, total: nat)
    requires h.rest == Uint16(|name|) + (Uint16(|values|) + (name + after)) && name !in h.header && NameAccepted(name)
    requires h.values + |values| <= MAX_VALUES && h.bytes + |name| == start <= MAX_HEADER_BYTES
    requires TakeValues(|values|, after, start) == Some(Values(values, rest, total))
    ensures DecodeHeader(h) == Some(Headers(h.header[name := values], rest, h.values + |values|, total))
  {
    hide DecodeHeader, NameAccepted, Uint16, Uint32, TakeValues;
    HeaderParsed(name, |values|, h, after, start, Values(values, rest, total));
  }

  lemma HeaderWithValues(name: Bytes, values: seq<Bytes>, h: Headers, after: Bytes, rest: Bytes, start: nat, total: nat)
    requires h.rest == Uint16(|name|) + (Uint16(|values|) + (name + after)) && after == ValuesText(values) + rest
    requires name !in h.header && NameAccepted(name) && ValuesAccepted(values)
    requires h.values + |values| <= MAX_VALUES && h.bytes + |name| == start
             && start + Lengths(values) == total <= MAX_HEADER_BYTES
    ensures DecodeHeader(h) == Some(Headers(h.header[name := values], rest, h.values + |values|, total))
  {
    hide DecodeHeader, NameAccepted, ValuesAccepted, Uint16, Uint32, TakeValues, ValuesText;
    AllValuesRoundTrip(values, start, after, rest, total);
    HeaderGiven(name, values, h, after, rest, start, total);
  }

  lemma HeaderRoundTrip(name: Bytes, values: seq<Bytes>, h: Headers, after: Bytes, rest: Bytes, start: nat, total: nat)
    requires h.rest == EncodeHeader(name, values) + rest && after == ValuesText(values) + rest
    requires name !in h.header && NameAccepted(name) && ValuesAccepted(values)
    requires h.values + |values| <= MAX_VALUES && h.bytes + |name| == start
             && start + Lengths(values) == total <= MAX_HEADER_BYTES
    ensures DecodeHeader(h) == Some(Headers(h.header[name := values], rest, h.values + |values|, total))
  {
    hide DecodeHeader, EncodeHeader, NameAccepted, ValuesAccepted, Uint16, Uint32, ValuesText;
    EncodedHeaderThen(name, values, rest);
    HeaderWithValues(name, values, h, after, rest, start, total);
  }

  /** The names are different, not taken yet, and may be stored. */
  ghost predicate Storable(header: Header, names: seq<Bytes>, taken: Header) {
    && (forall name | name in names ::
          name in header && name !in taken && NameAccepted(name) && ValuesAccepted(header[name]))
    && (forall i, j | 0 <= i < j < |names| :: names[i] != names[j])
  }

  lemma StorableTail(header: Header, names: seq<Bytes>, taken: Header)
    requires Storable(header, names, taken) && names != []
    ensures Storable(header, names[1..], taken[names[0] := header[names[0]]])
  {
    hide NameAccepted, ValuesAccepted;
    assert names == [names[0]] + names[1..];
  }

  lemma RestrictedTail(header: Header, names: seq<Bytes>, taken: Header)
    requires names != [] && names[0] in header
    ensures taken[names[0] := header[names[0]]] + Restricted(header, names[1..]) == taken + Restricted(header, names)
  {
    assert names == [names[0]] + names[1..];
    assert forall name :: name in names <==> name == names[0] || name in names[1..];
  }

  lemma {:induction false} HeadersRoundTrip(header: Header, names: seq<Bytes>, h: Headers, last: Headers)
    requires Storable(header, names, h.header) && h.rest == EncodeHeaders(header, names) + last.rest
    requires last.header == h.header + Restricted(header, names)
    requires last.values == h.values + NamedValues(header, names) <= MAX_VALUES
    requires last.bytes == h.bytes + NamedBytes(header, names) <= MAX_HEADER_BYTES
    ensures DecodeHeaders(|names|, h) == Some(last)
    decreases |names|
  {
    hide DecodeHeader, NameAccepted, ValuesAccepted, EncodeHeader;
    if names == [] {
      assert h.rest == last.rest && h.header + Restricted(header, names) == h.header;
    } else {
      var name, values := names[0], header[names[0]];
      var after := EncodeHeaders(header, names[1..]) + last.rest;
      Regroup([], [], EncodeHeader(name, values), EncodeHeaders(header, names[1..]), last.rest);
      var start := h.bytes + |name|;
      var total := start + Lengths(values);
      var next := Headers(h.header[name := values], after, h.values + |values|, total);
      HeaderRoundTrip(name, values, h, ValuesText(values) + after, after, start, total);
      StorableTail(header, names, h.header);
      RestrictedTail(header, names, h.header);
      hide Storable, Restricted;
      HeadersRoundTrip(header, names[1..], next, last);
    }
  }

  // ------------------------------------------------------------------------- totals

  lemma BytesAdd(h: Header, names: set<Bytes>, name: Bytes, size: int)
    requires name in h && name !in names && size == |name| + Lengths(h[name])
    ensures HeaderBytes(h, names + {name}) == HeaderBytes(h, names) + size
  {
    assert Sizes(h, names + {name}) == Sizes(h, names)[name := size];
    SumUpdate(Sizes(h, names), name, size, Identity());
  }

  lemma ValuesAdd(h: Header, names: set<Bytes>, name: Bytes, count: int)
    requires name in h && name !in names && count == |h[name]|
    ensures HeaderValues(h, names + {name}) == HeaderValues(h, names) + count
  {
    assert Counts(h, names + {name}) == Counts(h, names)[name := count];
    SumUpdate(Counts(h, names), name, count, Identity());
  }

  lemma TotalsAdd(h: Header, names: set<Bytes>, name: Bytes)
    requires name in h && name !in names
    ensures HeaderBytes(h, names + {name}) == HeaderBytes(h, names) + |name| + Lengths(h[name])
    ensures HeaderValues(h, names + {name}) == HeaderValues(h, names) + |h[name]|
  {
    hide HeaderBytes, HeaderValues;
    BytesAdd(h, names, name, |name| + Lengths(h[name]));
    ValuesAdd(h, names, name, |h[name]|);
  }

  lemma TotalsSkip(h: Header, names: set<Bytes>, name: Bytes)
    requires name !in h
    ensures HeaderBytes(h, names + {name}) == HeaderBytes(h, names)
            && HeaderValues(h, names + {name}) == HeaderValues(h, names)
  {
    assert Sizes(h, names + {name}) == Sizes(h, names);
    assert Counts(h, names + {name}) == Counts(h, names);
  }

  lemma TotalsNonNegative(h: Header, names: set<Bytes>)
    ensures 0 <= HeaderBytes(h, names) && 0 <= HeaderValues(h, names)
  {
    SumNonNegative(Sizes(h, names), Identity());
    SumNonNegative(Counts(h, names), Identity());
  }

  lemma {:induction false} TotalsGrow(h: Header, some: set<Bytes>, all: set<Bytes>)
    requires some <= all
    ensures 0 <= HeaderBytes(h, some) <= HeaderBytes(h, all) && 0 <= HeaderValues(h, some) <= HeaderValues(h, all)
    decreases |all - some|
  {
    hide HeaderBytes, HeaderValues;
    if all - some == {} {
      assert some == all;
      TotalsNonNegative(h, some);
    } else {
      var name :| name in all - some;
      assert all - (some + {name}) == all - some - {name};
      TotalsGrow(h, some + {name}, all);
      if name in h {
        TotalsAdd(h, some, name);
      } else {
        TotalsSkip(h, some, name);
      }
      TotalsNonNegative(h, some);
    }
  }

  lemma {:induction false} NamedTotals(h: Header, names: seq<Bytes>)
    requires forall name | name in names :: name in h
    requires forall i, j | 0 <= i < j < |names| :: names[i] != names[j]
    ensures NamedBytes(h, names) == HeaderBytes(h, set name | name in names)
    ensures NamedValues(h, names) == HeaderValues(h, set name | name in names)
    decreases |names|
  {
    var all := set name | name in names;
    if names == [] {
      assert Sizes(h, all) == map[] && Counts(h, all) == map[];
    } else {
      var rest := set name | name in names[1..];
      assert all == rest + {names[0]} by {
        assert names == [names[0]] + names[1..];
      }
      NamedTotals(h, names[1..]);
      TotalsAdd(h, rest, names[0]);
    }
  }

  lemma ListingTotals(h: Header)
    ensures forall name | name in Listing(h.Keys) :: name in h
    ensures NamedBytes(h, Listing(h.Keys)) == HeaderBytes(h, h.Keys)
            && NamedValues(h, Listing(h.Keys)) == HeaderValues(h, h.Keys)
  {
    hide Listing, NamedBytes, NamedValues, HeaderBytes, HeaderValues;
    ListingDistinct(h.Keys);
    NamedTotals(h, Listing(h.Keys));
    assert (set name | name in Listing(h.Keys)) == h.Keys;
  }

  lemma StorableAll(header: Header)
    requires HeadersAccepted(header)
    ensures Storable(header, Listing(header.Keys), map[]) && map[] + Restricted(header, Listing(header.Keys)) == header
  {
    hide NameAccepted, ValuesAccepted, HeaderBytes, HeaderValues, Listing;
    ListingDistinct(header.Keys);
    assert map[] + Restricted(header, Listing(header.Keys)) == header;
  }

  lemma AllHeadersRoundTrip(header: Header, text: Bytes, last: Headers)
    requires HeadersAccepted(header) && last.header == header
    requires forall name | name in Listing(header.Keys) :: name in header
    requires text == EncodeHeaders(header, Listing(header.Keys)) + last.rest
    requires last.values == HeaderValues(header, header.Keys) && last.bytes == HeaderBytes(header, header.Keys)
    ensures TakeHeaders(|header|, text) == Some(last)
  {
    hide NameAccepted, ValuesAccepted;
    var names := Listing(header.Keys);
    ListingDistinct(header.Keys);
    ListingTotals(header);
    StorableAll(header);
    hide Storable, Restricted, HeadersAccepted, HeaderBytes, HeaderValues;
    HeadersRoundTrip(header, names, Headers(map[], text, 0, 0), last);
  }

  /** Whatever is accepted comes back: the same status, headers and body. */
  lemma RoundTrip(r: Response)
    requires Accepted(r)
    ensures Decode(Encoded(r)) == Some(r)
  {
    hide HeaderBytes, HeaderValues, Uint16, Uint32, TakeHeaders, NameAccepted, ValuesAccepted, Encoded, Decode;
    ListingDistinct(r.header.Keys);
    TotalsGrow(r.header, {}, r.header.Keys);
    EncodedShape(r);
    var after := EncodeHeaders(r.header, Listing(r.header.Keys)) + r.body;
    var last := Headers(r.header, r.body, HeaderValues(r.header, r.header.Keys), HeaderBytes(r.header, r.header.Keys));
    PrefixFields(r.status, |r.header|, |r.body|, Encoded(r), after);
    AllHeadersRoundTrip(r.header, after, last);
    DecodeStep(Encoded(r), r, last);
  }

  lemma DecodeStep(text: Bytes, r: Response, last: Headers)
    requires |text| >= 12 && text[..4] == MAGIC && 100 <= r.status <= 599 && |r.header| <= MAX_HEADERS
             && |r.body| <= MAX_BODY
    requires ReadUint(text[4..6]) == r.status && ReadUint(text[6..8]) == |r.header| && ReadUint(text[8..12]) == |r.body|
    requires TakeHeaders(|r.header|, text[12..]) == Some(last) && last.header == r.header && last.rest == r.body
    ensures Decode(text) == Some(r)
  {
    hide ReadUint, TakeHeaders;
  }

  lemma EncodedShape(r: Response)
    requires Accepted(r)
    ensures forall name | name in Listing(r.header.Keys) :: name in r.header
    ensures Encoded(r) == MAGIC + (Uint16(r.status) + (Uint16(|r.header|) + (Uint32(|r.body|)
                          + (EncodeHeaders(r.header, Listing(r.header.Keys)) + r.body))))
  {
    hide Uint16, Uint32, HeadersAccepted;
    ListingDistinct(r.header.Keys);
    var names := Listing(r.header.Keys);
    Regroup6(MAGIC, Uint16(r.status), Uint16(|r.header|), Uint32(|r.body|), EncodeHeaders(r.header, names), r.body);
  }

  lemma Regroup6(a: Bytes, b: Bytes, c: Bytes, d: Bytes, e: Bytes, f: Bytes)
    ensures a + b + c + d + e + f == a + (b + (c + (d + (e + f))))
  {
  }

  lemma PrefixFields(status: nat, count: nat, body: nat, text: Bytes, after: Bytes)
    requires status < 0x1_0000 && count < 0x1_0000 && body < 0x1_0000_0000
    requires text == MAGIC + (Uint16(status) + (Uint16(count) + (Uint32(body) + after)))
    ensures |text| >= 12 && text[..4] == MAGIC && text[12..] == after
    ensures ReadUint(text[4..6]) == status && ReadUint(text[6..8]) == count && ReadUint(text[8..12]) == body
  {
    hide Uint16, Uint32, ReadUint;
    assert text[..4] == MAGIC;
    assert text[4..6] == Uint16(status);
    assert text[6..8] == Uint16(count);
    assert text[8..12] == Uint32(body);
    Read16(status);
    Read16(count);
    Read32(body);
  }

  // ---------------------------------------------------------------------- the loops

  function Size(raw: Bytes, values: seq<Bytes>): (n: nat) { |raw| + Lengths(values) }

  /** One more header can be counted in. */
  predicate Fits(raw: Bytes, values: seq<Bytes>, count: nat, bytes: nat) {
    NameAccepted(raw) && ValuesAccepted(values) && count + |values| <= MAX_VALUES
        && bytes + Size(raw, values) <= MAX_HEADER_BYTES
  }

  method CheckHeader(raw: Bytes, values: seq<Bytes>, count: nat, bytes: nat) returns (total: Option<nat>)
    requires count <= MAX_VALUES && bytes <= MAX_HEADER_BYTES
    ensures total.Some? <==> Fits(raw, values, count, bytes)
    ensures total.Some? ==> total.value == bytes + Size(raw, values)
  {
    hide NameAccepted, ValuesAccepted;
    if !NameAccepted(raw) { return None; }
    if |values| > MAX_VALUES || count > MAX_VALUES - |values| { return None; }
    if bytes > MAX_HEADER_BYTES - |raw| { return None; }
    total := CheckValues(values, bytes + |raw|);
  }

  /** Some of the headers have been checked, counted and listed. */
  ghost predicate Checked(h: Header, done: set<Bytes>, found: seq<Bytes>, count: int, bytes: int) {
    && done <= h.Keys && multiset(found) == multiset(done)
    && count == HeaderValues(h, done) <= MAX_VALUES && bytes == HeaderBytes(h, done) <= MAX_HEADER_BYTES
    && forall name | name in done :: NameAccepted(name) && ValuesAccepted(h[name])
  }

  lemma CheckedNone(h: Header)
    ensures Checked(h, {}, [], 0, 0)
  {
    assert Sizes(h, {}) == map[] && Counts(h, {}) == map[];
  }

  lemma CheckedMore(h: Header, done: set<Bytes>, found: seq<Bytes>, count: nat, bytes: nat, raw: Bytes, count': int,
                    bytes': int)
    requires Checked(h, done, found, count, bytes) && raw in h && raw !in done && Fits(raw, h[raw], count, bytes)
    requires count' == count + |h[raw]| && bytes' == bytes + Size(raw, h[raw])
    ensures Checked(h, done + {raw}, found + [raw], count', bytes')
  {
    hide NameAccepted, ValuesAccepted, HeaderBytes, HeaderValues;
    TotalsAdd(h, done, raw);
    AddedToSet(done, raw);
  }

  lemma CheckedBounds(h: Header, done: set<Bytes>, found: seq<Bytes>, count: int, bytes: int)
    requires Checked(h, done, found, count, bytes)
    ensures 0 <= count <= MAX_VALUES && 0 <= bytes <= MAX_HEADER_BYTES
  {
    TotalsNonNegative(h, done);
  }

  /** A header that does not fit with those already counted is one the whole map is refused for. */
  lemma CheckedFails(h: Header, done: set<Bytes>, found: seq<Bytes>, count: nat, bytes: nat, raw: Bytes)
    requires Checked(h, done, found, count, bytes) && raw in h && raw !in done && !Fits(raw, h[raw], count, bytes)
    ensures !HeadersAccepted(h)
  {
    hide NameAccepted, ValuesAccepted, HeaderBytes, HeaderValues;
    TotalsAdd(h, done, raw);
    TotalsGrow(h, done + {raw}, h.Keys);
  }

  lemma CheckedAll(h: Header, found: seq<Bytes>, count: int, bytes: int)
    requires Checked(h, h.Keys, found, count, bytes) && |h| <= MAX_HEADERS
    ensures HeadersAccepted(h) && Sort(found) == Listing(h.Keys) && bytes == HeaderBytes(h, h.Keys)
  {
    SortedNames(found, h.Keys);
  }

  /** Checks the headers in whatever order the map gives them. */
  method GatherHeaders(h: Header) returns (names: Option<seq<Bytes>>, count: nat, bytes: nat)
    ensures names.None? ==> !HeadersAccepted(h)
    ensures names.Some? ==> Checked(h, h.Keys, names.value, count, bytes)
  {
    hide Checked, HeadersAccepted, Fits, Size;
    count, bytes := 0, 0;
    var rest := h.Keys;
    ghost var done: set<Bytes> := {};
    var found: seq<Bytes> := [];
    CheckedNone(h);
    while rest != {}
      invariant rest <= h.Keys && done == h.Keys - rest && Checked(h, done, found, count, bytes)
      decreases rest
    {
      var raw :| raw in rest;
      CheckedBounds(h, done, found, count, bytes);
      var total := CheckHeader(raw, h[raw], count, bytes);
      if total.None? {
        CheckedFails(h, done, found, count, bytes, raw);
        return None, 0, 0;
      }
      var values := count + |h[raw]|;
      CheckedMore(h, done, found, count, bytes, raw, values, total.value);
      count, bytes, found := values, total.value, found + [raw];
      rest, done := rest - {raw}, done + {raw};
    }
    assert done == h.Keys;
    return Some(found), count, bytes;
  }

  /** Checks the headers and lists their names in order. */
  method NormalizeHeaders(h: Header) returns (names: Option<seq<Bytes>>, bytes: nat)
    ensures names.Some? <==> HeadersAccepted(h)
    ensures names.Some? ==> names.value == Listing(h.Keys) && bytes == HeaderBytes(h, h.Keys)
  {
    if |h| > MAX_HEADERS { return None, 0; }
    hide Checked, HeadersAccepted, HeaderBytes, Listing, Sort;
    var found, count, size := GatherHeaders(h);
    if found.None? { return None, 0; }
    CheckedAll(h, found.value, count, size);
    return Some(Sort(found.value)), size;
  }

  lemma SortedNames(found: seq<Bytes>, names: set<Bytes>)
    requires multiset(found) == multiset(names)
    ensures Sort(found) == Listing(names)
  {
    SortSorts(found);
    ListingSorted(names);
    SortedIsUnique(Sort(found), Listing(names));
  }

  lemma AddedToSet(done: set<Bytes>, raw: Bytes)
    requires raw !in done
    ensures multiset(done + {raw}) == multiset(done) + multiset{raw}
  {
  }

  method CheckValues(values: seq<Bytes>, start: nat) returns (bytes: Option<nat>)
    requires start <= MAX_HEADER_BYTES
    ensures bytes.Some? <==> ValuesAccepted(values) && start + Lengths(values) <= MAX_HEADER_BYTES
    ensures bytes.Some? ==> bytes.value == start + Lengths(values)
  {
    hide CleanText;
    var total := start;
    for i := 0 to |values|
      invariant total <= MAX_HEADER_BYTES && total + Lengths(values[i..]) == start + Lengths(values)
      invariant forall j | 0 <= j < i :: ValueAccepted(values[j])
    {
      assert values[i..][0] == values[i] && values[i..][1..] == values[i + 1..];
      assert values[i] in values;
      if |values[i]| > MAX_VALUE || !CleanText(values[i]) || total > MAX_HEADER_BYTES - |values[i]| { return None; }
      total := total + |values[i]|;
    }
    return Some(total);
  }

  /** Nothing else is refused: the size check of the encoder never fires. */
  method EncodeResponse(r: Response) returns (out: Option<Bytes>)
    ensures out.Some? <==> Accepted(r)
    ensures out.Some? ==> out.value == Encoded(r)
  {
    hide HeaderBytes, HeaderValues, NameAccepted, ValueAccepted, Listing;
    if r.status < 100 || r.status > 599 || |r.body| > MAX_BODY { return None; }
    var names, headerBytes := NormalizeHeaders(r.header);
    if names.None? { return None; }
    ListingDistinct(r.header.Keys);
    ListingTotals(r.header);
    var size := EncodedSize(r.header, names.value);
    if |names.value| > 0xFFFF || size > MAX_BODY + MAX_HEADER_BYTES + 12 || headerBytes > MAX_HEADER_BYTES {
      return None;
    }
    var text := MAGIC + Uint16(r.status) + Uint16(|names.value|) + Uint32(|r.body|);
    text := AppendHeaders(text, r.header, names.value);
    return Some(text + r.body);
  }

  method EncodedSize(h: Header, names: seq<Bytes>) returns (size: nat)
    requires forall name | name in names :: name in h
    ensures size == 12 + 4 * |names| + NamedBytes(h, names) + 4 * NamedValues(h, names)
  {
    size := 12;
    for i := 0 to |names|
      invariant size + 4 * (|names| - i) + NamedBytes(h, names[i..]) + 4 * NamedValues(h, names[i..])
             == 12 + 4 * |names| + NamedBytes(h, names) + 4 * NamedValues(h, names)
    {
      assert names[i..][0] == names[i] && names[i..][1..] == names[i + 1..];
      var values := h[names[i]];
      size := size + 4 + |names[i]|;
      ghost var before := size;
      for j := 0 to |values|
        invariant size + Lengths(values[j..]) + 4 * (|values| - j) == before + Lengths(values) + 4 * |values|
      {
        assert values[j..][0] == values[j] && values[j..][1..] == values[j + 1..];
        size := size + 4 + |values[j]|;
      }
    }
  }

  method AppendHeaders(start: Bytes, h: Header, names: seq<Bytes>) returns (out: Bytes)
    requires forall name | name in names :: name in h
    ensures out == start + EncodeHeaders(h, names)
  {
    out := start;
    for i := 0 to |names|
      invariant out + EncodeHeaders(h, names[i..]) == start + EncodeHeaders(h, names)
    {
      assert names[i..][0] == names[i] && names[i..][1..] == names[i + 1..];
      out := AppendHeader(out, names[i], h[names[i]]);
    }
  }

  method AppendHeader(start: Bytes, name: Bytes, values: seq<Bytes>) returns (out: Bytes)
    ensures out == start + EncodeHeader(name, values)
  {
    hide Uint16, Uint32;
    out := start + Uint16(|name|) + Uint16(|values|) + name;
    ghost var before := out;
    for i := 0 to |values|
      invariant out + EncodeValues(values[i..]) == before + EncodeValues(values)
    {
      assert values[i..][0] == values[i] && values[i..][1..] == values[i + 1..];
      out := out + Uint32(|values[i]|) + values[i];
    }
    assert out == before + EncodeValues(values);
    Regroup([], start, Uint16(|name|) + Uint16(|values|), name, EncodeValues(values));
  }

  method DecodeResponse(plain: Bytes) returns (out: Option<Response>)
    ensures out == Decode(plain)
  {
    hide DecodeHeader, ReadUint;
    if |plain| < 12 || plain[..4] != MAGIC { return None; }
    var status := ReadUint(plain[4..6]);
    var count := ReadUint(plain[6..8]);
    var body := ReadUint(plain[8..12]);
    if status < 100 || status > 599 || count > MAX_HEADERS || body > MAX_BODY { return None; }
    var h := Headers(map[], plain[12..], 0, 0);
    ghost var goal := DecodeHeaders(count, h);
    for i := 0 to count
      invariant goal == DecodeHeaders(count - i, h)
    {
      var next := TakeHeader(h);
      if next.None? { return None; }
      h := next.value;
    }
    if body != |h.rest| { return None; }
    return Some(Response(status, h.header, h.rest));
  }

  method TakeHeader(h: Headers) returns (r: Option<Headers>)
    ensures r == DecodeHeader(h)
  {
    hide CleanText, Canonical, ReadUint;
    if |h.rest| < 4 { return None; }
    var length := ReadUint(h.rest[..2]);
    var count := ReadUint(h.rest[2..4]);
    var rest := h.rest[4..];
    if length == 0 || length > MAX_NAME || count > MAX_VALUES || h.values > MAX_VALUES - count || length > |rest| {
      return None;
    }
    var name := rest[..length];
    if Canonical(name) != name || !CleanText(name) || name in h.header || h.bytes > MAX_HEADER_BYTES - length {
      return None;
    }
    hide TakeValues;
    var v := TakeValueList(count, rest[length..], h.bytes + length);
    if v.None? { return None; }
    return Some(Headers(h.header[name := v.value.values], v.value.rest, h.values + count, v.value.bytes));
  }

  method TakeValueList(count: nat, rest: Bytes, bytes: nat) returns (r: Option<Values>)
    ensures r == TakeValues(count, rest, bytes)
  {
    var v := Values([], rest, bytes);
    for i := 0 to count
      invariant TakeValues(count, rest, bytes) == DecodeValues(count - i, v)
    {
      var next := TakeValue(v);
      ValuesUnfold(count - i, v);
      if next.None? { return None; }
      v := next.value;
    }
    return Some(v);
  }

  /** One value, taken off the front. */
  method TakeValue(v: Values) returns (r: Option<Values>)
    ensures r == DecodeValue(v)
  {
    hide CleanText, ReadUint;
    if |v.rest| < 4 { return None; }
    var size := ReadUint(v.rest[..4]);
    var tail := v.rest[4..];
    if size > MAX_VALUE || size > |tail| || v.bytes > MAX_HEADER_BYTES - size { return None; }
    var value := tail[..size];
    if !CleanText(value) { return None; }
    return Some(Values(v.values + [value], tail[size..], v.bytes + size));
  }

  lemma ValuesUnfold(count: nat, v: Values)
    requires count > 0
    ensures DecodeValues(count, v) == match DecodeValue(v)
                                      case None => None
                                      case Some(next) => DecodeValues(count - 1, next)
  {
    hide DecodeValue;
  }
}
