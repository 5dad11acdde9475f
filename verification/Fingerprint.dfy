/**
 The request fingerprint: what is fed to the hash. Every part is written behind
 its kind and its length, so the input determines the request up to the order of
 headers and values; the hash itself and the case folding are parameters.
 */
module Fingerprint {
  import opened Basics
  import opened ByteStrings

  /** Lengths are 64-bit integers. */
  const WORD := 0x1_0000_0000_0000_0000

  /** A header name with its values. */
  datatype Header = Header(name: Bytes, values: seq<Bytes>)

  /** A captured file or binary body is read when the fingerprint is taken; nothing stands for a read that fails. */
  datatype Content = Field(value: Bytes) | File(content: Option<Bytes>)
  datatype Part = Part(name: Bytes, filename: Bytes, contentType: Bytes, content: Content)
  datatype Body = Raw(data: Bytes) | Multipart(parts: seq<Part>) | Binary(content: Option<Bytes>)

  predicate Readable(body: Body) {
    match body
    case Raw(_) => true
    case Multipart(parts) => ReadableParts(parts)
    case Binary(content) => content.Some?
  }

  predicate ReadablePart(p: Part) { p.content.File? ==> p.content.content.Some? }

  predicate ReadableParts(parts: seq<Part>) { forall p | p in parts :: ReadablePart(p) }

  /** A request; the headers are listed in the order in which the header map is visited. */
  datatype Request = Request(method_: Bytes, path: Bytes, query: Bytes, headers: seq<Header>, body: Body)

  datatype Tools = Tools(lower: Bytes -> Bytes, digest: Bytes -> Bytes)

  /** The contents that enter the fingerprint by their digest. */
  ghost function Contents(body: Body): set<Bytes> {
    match body
    case Raw(_) => {}
    case Multipart(parts) => set p | p in parts && p.content.File? && p.content.content.Some? :: p.content.content.value
    case Binary(content) => if content.Some? then {content.value} else {}
  }

  /** No two of these contents share a digest. */
  ghost predicate CollisionFree(tools: Tools, contents: set<Bytes>) {
    forall x, y | x in contents && y in contents :: tools.digest(x) == tools.digest(y) ==> x == y
  }

  // ------------------------------------------------------------------------- headers

  const IGNORED: seq<Bytes> := [
    [0x61, 0x75, 0x74, 0x68, 0x6F, 0x72, 0x69, 0x7A, 0x61, 0x74, 0x69, 0x6F, 0x6E],
    [0x78, 0x2D, 0x61, 0x70, 0x69, 0x2D, 0x6B, 0x65, 0x79],
    [0x78, 0x2D, 0x67, 0x6F, 0x6F, 0x67, 0x2D, 0x61, 0x70, 0x69, 0x2D, 0x6B, 0x65, 0x79],
    [0x63, 0x6F, 0x6F, 0x6B, 0x69, 0x65],
    [0x69, 0x64, 0x65, 0x6D, 0x70, 0x6F, 0x74, 0x65, 0x6E, 0x63, 0x79, 0x2D, 0x6B, 0x65, 0x79],
    [0x78, 0x2D, 0x72, 0x65, 0x71, 0x75, 0x65, 0x73, 0x74, 0x2D, 0x69, 0x64]]

  predicate Kept(name: Bytes) { name !in IGNORED }

  /** The lower-cased names that are not ignored. */
  function Names(tools: Tools, headers: seq<Header>): (names: set<Bytes>) {
    if headers == [] then {}
    else
      var last := tools.lower(headers[|headers| - 1].name);
      Names(tools, headers[..|headers| - 1]) + (if Kept(last) then {last} else {})
  }

  /** The values of every spelling of a name, in the order of the visit. */
  function Merged(tools: Tools, headers: seq<Header>, name: Bytes): (values: seq<Bytes>) {
    if headers == [] then []
    else
      var last := headers[|headers| - 1];
      Merged(tools, headers[..|headers| - 1], name) + (if tools.lower(last.name) == name then last.values else [])
  }

  // -------------------------------------------------------------------------- frames

  datatype Frame = Frame(kind: Byte, data: Bytes)

  function Text(b: Bytes): (f: Frame) { Frame(1, b) }
  function Data(b: Bytes): (f: Frame) { Frame(2, b) }
  function Count(n: nat): (f: Frame) { Frame(3, Uint64(n)) }
  function Digest(tools: Tools, content: Bytes): (f: Frame) { Frame(4, Uint64(|content|) + tools.digest(content)) }

  function ValueFrames(values: seq<Bytes>): (fs: seq<Frame>) {
    if values == [] then [] else [Text(values[0])] + ValueFrames(values[1..])
  }

  function NameFrames(name: Bytes, values: seq<Bytes>): (fs: seq<Frame>) {
    [Text(name), Count(|values|)] + ValueFrames(values)
  }

  function HeaderFrames(tools: Tools, headers: seq<Header>, names: seq<Bytes>): (fs: seq<Frame>) {
    if names == [] then []
    else NameFrames(names[0], Sort(Merged(tools, headers, names[0]))) + HeaderFrames(tools, headers, names[1..])
  }

  const BODY: Bytes := [0x62, 0x6F, 0x64, 0x79]
  const RAW: Bytes := [0x72, 0x61, 0x77]
  const MULTIPART: Bytes := [0x6D, 0x75, 0x6C, 0x74, 0x69, 0x70, 0x61, 0x72, 0x74]
  const FIELD: Bytes := [0x66, 0x69, 0x65, 0x6C, 0x64]
  const FILE: Bytes := [0x66, 0x69, 0x6C, 0x65]
  const BINARY: Bytes := [0x62, 0x69, 0x6E, 0x61, 0x72, 0x79]

  function PartFrames(tools: Tools, p: Part): (fs: seq<Frame>)
    requires ReadablePart(p)
  {
    [Text(p.name), Text(p.filename), Text(p.contentType)]
    + match p.content
      case Field(value) => [Text(FIELD), Data(value)]
      case File(content) => [Text(FILE), Digest(tools, content.value)]
  }

  function PartsFrames(tools: Tools, parts: seq<Part>): (fs: seq<Frame>)
    requires ReadableParts(parts)
  {
    if parts == [] then [] else PartFrames(tools, parts[0]) + PartsFrames(tools, parts[1..])
  }

  function BodyFrames(tools: Tools, body: Body): (fs: seq<Frame>)
    requires Readable(body)
  {
    match body
    case Raw(data) => [Text(RAW), Data(data)]
    case Multipart(parts) => [Text(MULTIPART), Count(|parts|)] + PartsFrames(tools, parts)
    case Binary(content) => [Text(BINARY), Digest(tools, content.value)]
  }

  ghost function Frames(tools: Tools, r: Request): seq<Frame>
    requires Readable(r.body)
  {
    var names := Listing(Names(tools, r.headers));
    [Text(r.method_), Text(r.path), Text(r.query), Count(|names|)]
    + (HeaderFrames(tools, r.headers, names) + ([Text(BODY)] + BodyFrames(tools, r.body)))
  }

  function WriteFrame(f: Frame): (b: Bytes) { [f.kind] + Uint64(|f.data|) + f.data }

  function WriteFrames(fs: seq<Frame>): (b: Bytes) {
    if fs == [] then [] else WriteFrame(fs[0]) + WriteFrames(fs[1..])
  }

  /** The version string that every fingerprint starts with. */
  const PREFIX: Bytes := [
    0x68, 0x6F, 0x6F, 0x72, 0x69, 0x66, 0x69, 0x63, 0x2F, 0x69, 0x64, 0x65, 0x6D, 0x70, 0x6F, 0x74, 0x65, 0x6E,
    0x63, 0x79, 0x2D, 0x66, 0x69, 0x6E, 0x67, 0x65, 0x72, 0x70, 0x72, 0x69, 0x6E, 0x74, 0x2F, 0x76, 0x32, 0x00]

  ghost function HashInput(tools: Tools, r: Request): Bytes
    requires Readable(r.body)
  {
    PREFIX + WriteFrames(Frames(tools, r))
  }

  // ----------------------------------------------------------------- what is identified

  /** The same head, up to letter case of names, the order of headers and of values, and ignored headers. */
  ghost predicate SameHead(tools: Tools, a: Request, b: Request) {
    && a.method_ == b.method_ && a.path == b.path && a.query == b.query
    && Names(tools, a.headers) == Names(tools, b.headers)
    && forall name | name in Names(tools, a.headers) ::
         multiset(Merged(tools, a.headers, name)) == multiset(Merged(tools, b.headers, name))
  }

  ghost predicate SameContent(tools: Tools, a: Content, b: Content) {
    match (a, b)
    case (Field(x), Field(y)) => x == y
    case (File(x), File(y)) => x.Some? && y.Some? && SameDigest(tools, x.value, y.value)
    case _ => false
  }

  ghost predicate SameDigest(tools: Tools, x: Bytes, y: Bytes) { |x| == |y| && tools.digest(x) == tools.digest(y) }

  ghost predicate SamePart(tools: Tools, p: Part, q: Part) {
    p.name == q.name && p.filename == q.filename && p.contentType == q.contentType
        && SameContent(tools, p.content, q.content)
  }

  /** The same body description: raw bytes and fields as they are, files and binaries by length and digest. */
  ghost predicate SameBody(tools: Tools, a: Body, b: Body) {
    match (a, b)
    case (Raw(x), Raw(y)) => x == y
    case (Multipart(ps), Multipart(qs)) => |ps| == |qs| && forall i | 0 <= i < |ps| :: SamePart(tools, ps[i], qs[i])
    case (Binary(x), Binary(y)) => x.Some? && y.Some? && SameDigest(tools, x.value, y.value)
    case _ => false
  }

  /** Every length in the request is that of a string or slice in memory. */
  ghost predicate Fits(tools: Tools, r: Request)
    requires Readable(r.body)
  {
    && |Names(tools, r.headers)| < WORD
    && (forall name | name in Names(tools, r.headers) :: |Merged(tools, r.headers, name)| < WORD)
    && (forall f | f in Frames(tools, r) :: |f.data| < WORD)
    && (r.body.Multipart? ==> |r.body.parts| < WORD)
    && (forall content | content in Contents(r.body) :: |content| < WORD)
  }

  // --------------------------------------------------------------------- injectivity

  lemma Cut<T>(a: seq<T>, x: seq<T>, b: seq<T>, y: seq<T>)
    requires a + x == b + y && |a| == |b|
    ensures a == b && x == y
  {
    assert (a + x)[..|a|] == a && (a + x)[|a|..] == x;
    assert (b + y)[..|b|] == b && (b + y)[|b|..] == y;
  }

  lemma Uint64Injective(m: nat, n: nat)
    requires m < WORD && n < WORD && Uint64(m) == Uint64(n)
    ensures m == n
  {
    Read64(m);
    Read64(n);
  }

  /** A frame ends where its length says: what is written first is told from what follows. */
  lemma FrameCut(f: Frame, x: Bytes, g: Frame, y: Bytes)
    requires WriteFrame(f) + x == WriteFrame(g) + y && |f.data| < WORD && |g.data| < WORD
    ensures f == g && x == y
  {
    hide Uint64;
    assert WriteFrame(f) + x == [f.kind] + (Uint64(|f.data|) + (f.data + x));
    assert WriteFrame(g) + y == [g.kind] + (Uint64(|g.data|) + (g.data + y));
    Cut([f.kind], Uint64(|f.data|) + (f.data + x), [g.kind], Uint64(|g.data|) + (g.data + y));
    assert f.kind == [f.kind][0] == [g.kind][0];
    Cut(Uint64(|f.data|), f.data + x, Uint64(|g.data|), g.data + y);
    Uint64Injective(|f.data|, |g.data|);
    Cut(f.data, x, g.data, y);
  }

  ghost predicate Short(fs: seq<Frame>) { forall f | f in fs :: |f.data| < WORD }

  lemma {:induction false} WriteFramesInjective(fs: seq<Frame>, gs: seq<Frame>)
    requires WriteFrames(fs) == WriteFrames(gs) && Short(fs) && Short(gs)
    ensures fs == gs
  {
    hide WriteFrame;
    if fs == [] || gs == [] {
      FramesEmpty(fs);
      FramesEmpty(gs);
    } else {
      FrameCut(fs[0], WriteFrames(fs[1..]), gs[0], WriteFrames(gs[1..]));
      WriteFramesInjective(fs[1..], gs[1..]);
      assert fs == [fs[0]] + fs[1..] && gs == [gs[0]] + gs[1..];
    }
  }

  lemma FramesEmpty(fs: seq<Frame>)
    ensures WriteFrames(fs) == [] <==> fs == []
  {
  }

  lemma {:induction false} ValueFramesCut(xs: seq<Bytes>, fs: seq<Frame>, ys: seq<Bytes>, gs: seq<Frame>)
    requires ValueFrames(xs) + fs == ValueFrames(ys) + gs && |xs| == |ys|
    ensures xs == ys && fs == gs
  {
    if xs == [] {
      assert ValueFrames(xs) + fs == fs && ValueFrames(ys) + gs == gs;
    } else {
      assert ValueFrames(xs) + fs == [Text(xs[0])] + (ValueFrames(xs[1..]) + fs);
      assert ValueFrames(ys) + gs == [Text(ys[0])] + (ValueFrames(ys[1..]) + gs);
      Cut([Text(xs[0])], ValueFrames(xs[1..]) + fs, [Text(ys[0])], ValueFrames(ys[1..]) + gs);
      assert Text(xs[0]) == [Text(xs[0])][0] == [Text(ys[0])][0];
      ValueFramesCut(xs[1..], fs, ys[1..], gs);
      assert xs == [xs[0]] + xs[1..] && ys == [ys[0]] + ys[1..];
    }
  }

  lemma NameFramesCut(m: Bytes, xs: seq<Bytes>, fs: seq<Frame>, n: Bytes, ys: seq<Bytes>, gs: seq<Frame>)
    requires NameFrames(m, xs) + fs == NameFrames(n, ys) + gs && |xs| < WORD && |ys| < WORD
    ensures m == n && xs == ys && fs == gs
  {
    hide Uint64, ValueFrames;
    var a, b := [Text(m), Count(|xs|)], [Text(n), Count(|ys|)];
    assert NameFrames(m, xs) + fs == a + (ValueFrames(xs) + fs);
    assert NameFrames(n, ys) + gs == b + (ValueFrames(ys) + gs);
    Cut(a, ValueFrames(xs) + fs, b, ValueFrames(ys) + gs);
    assert a[0] == b[0] && a[1] == b[1];
    Uint64Injective(|xs|, |ys|);
    ValueFramesCut(xs, fs, ys, gs);
  }

  ghost predicate Countable(tools: Tools, headers: seq<Header>, names: seq<Bytes>) {
    forall name | name in names :: |Merged(tools, headers, name)| < WORD
  }

  ghost predicate SameValues(tools: Tools, a: seq<Header>, b: seq<Header>, names: seq<Bytes>) {
    forall name | name in names :: multiset(Merged(tools, a, name)) == multiset(Merged(tools, b, name))
  }

  lemma {:induction false} HeaderFramesCut(tools: Tools, a: seq<Header>, ms: seq<Bytes>, fs: seq<Frame>,
                                           b: seq<Header>, ns: seq<Bytes>, gs: seq<Frame>)
    requires HeaderFrames(tools, a, ms) + fs == HeaderFrames(tools, b, ns) + gs && |ms| == |ns|
    requires Countable(tools, a, ms) && Countable(tools, b, ns)
    ensures ms == ns && fs == gs && SameValues(tools, a, b, ms)
    decreases |ms|
  {
    hide NameFrames, Sort;
    if ms == [] {
      assert HeaderFrames(tools, a, ms) + fs == fs && HeaderFrames(tools, b, ns) + gs == gs;
    } else {
      var xs, ys := Sort(Merged(tools, a, ms[0])), Sort(Merged(tools, b, ns[0]));
      var fs', gs' := HeaderFrames(tools, a, ms[1..]) + fs, HeaderFrames(tools, b, ns[1..]) + gs;
      assert HeaderFrames(tools, a, ms) + fs == NameFrames(ms[0], xs) + fs';
      assert HeaderFrames(tools, b, ns) + gs == NameFrames(ns[0], ys) + gs';
      SortKeepsLength(Merged(tools, a, ms[0]));
      SortKeepsLength(Merged(tools, b, ns[0]));
      NameFramesCut(ms[0], xs, fs', ns[0], ys, gs');
      HeaderFramesCut(tools, a, ms[1..], fs, b, ns[1..], gs);
      assert ms == [ms[0]] + ms[1..] && ns == [ns[0]] + ns[1..];
    }
  }

  lemma SortKeepsLength(xs: seq<Bytes>)
    ensures |Sort(xs)| == |xs|
  {
    assert |multiset(Sort(xs))| == |multiset(xs)|;
  }

  lemma DigestCut(tools: Tools, a: Bytes, b: Bytes)
    requires |a| < WORD && |b| < WORD && Digest(tools, a) == Digest(tools, b)
    ensures SameDigest(tools, a, b)
  {
    hide Uint64;
    Cut(Uint64(|a|), tools.digest(a), Uint64(|b|), tools.digest(b));
    Uint64Injective(|a|, |b|);
  }

  /** The contents of a part are those of a string or slice in memory. */
  ghost predicate FitsPart(p: Part) { p.content.File? && p.content.content.Some? ==> |p.content.content.value| < WORD }

  lemma PartFramesCut(tools: Tools, p: Part, fs: seq<Frame>, q: Part, gs: seq<Frame>)
    requires ReadablePart(p) && ReadablePart(q) && FitsPart(p) && FitsPart(q)
    requires PartFrames(tools, p) + fs == PartFrames(tools, q) + gs
    ensures SamePart(tools, p, q) && fs == gs
  {
    hide Digest;
    var a, b := PartFrames(tools, p), PartFrames(tools, q);
    assert |a| == |b| == 5;
    Cut(a, fs, b, gs);
    assert a[0] == b[0] && a[1] == b[1] && a[2] == b[2] && a[3] == b[3] && a[4] == b[4];
    if p.content.File? && q.content.File? {
      DigestCut(tools, p.content.content.value, q.content.content.value);
    }
  }

  lemma {:induction false} PartsFramesCut(tools: Tools, ps: seq<Part>, qs: seq<Part>)
    requires ReadableParts(ps) && ReadableParts(qs)
    requires (forall p | p in ps :: FitsPart(p)) && (forall q | q in qs :: FitsPart(q))
    requires PartsFrames(tools, ps) == PartsFrames(tools, qs) && |ps| == |qs|
    ensures forall i | 0 <= i < |ps| :: SamePart(tools, ps[i], qs[i])
  {
    hide PartFrames, SamePart, FitsPart, ReadablePart;
    if ps != [] {
      PartFramesCut(tools, ps[0], PartsFrames(tools, ps[1..]), qs[0], PartsFrames(tools, qs[1..]));
      PartsFramesCut(tools, ps[1..], qs[1..]);
      forall i | 0 <= i < |ps| ensures SamePart(tools, ps[i], qs[i]) {
        if i > 0 { assert ps[i] == ps[1..][i - 1] && qs[i] == qs[1..][i - 1]; }
      }
    }
  }

  ghost predicate FitsBody(body: Body) {
    (body.Multipart? ==> |body.parts| < WORD) && forall content | content in Contents(body) :: |content| < WORD
  }

  lemma PartsFit(body: Body)
    requires FitsBody(body) && body.Multipart?
    ensures forall p | p in body.parts :: FitsPart(p)
  {
  }

  lemma BodyFramesCut(tools: Tools, a: Body, b: Body)
    requires Readable(a) && Readable(b) && FitsBody(a) && FitsBody(b)
    requires BodyFrames(tools, a) == BodyFrames(tools, b)
    ensures SameBody(tools, a, b)
  {
    hide Digest, PartsFrames, Uint64, SamePart;
    var fs, gs := BodyFrames(tools, a), BodyFrames(tools, b);
    assert fs[0] == gs[0] && fs[1] == gs[1];
    match a {
      case Raw(_) =>
      case Multipart(parts) =>
        Uint64Injective(|parts|, |b.parts|);
        var head := [Text(MULTIPART), Count(|parts|)];
        Cut(head, PartsFrames(tools, parts), head, PartsFrames(tools, b.parts));
        PartsFit(a);
        PartsFit(b);
        PartsFramesCut(tools, parts, b.parts);
      case Binary(content) => DigestCut(tools, content.value, b.content.value);
    }
  }

  lemma {:induction false} SamePartsFrames(tools: Tools, ps: seq<Part>, qs: seq<Part>)
    requires ReadableParts(ps) && ReadableParts(qs) && |ps| == |qs|
    requires forall i | 0 <= i < |ps| :: SamePart(tools, ps[i], qs[i])
    ensures PartsFrames(tools, ps) == PartsFrames(tools, qs)
  {
    if ps != [] {
      assert SamePart(tools, ps[0], qs[0]);
      forall i | 0 <= i < |ps| - 1 ensures SamePart(tools, ps[1..][i], qs[1..][i]) {
        assert SamePart(tools, ps[i + 1], qs[i + 1]);
      }
      SamePartsFrames(tools, ps[1..], qs[1..]);
    }
  }

  lemma SameBodyFrames(tools: Tools, a: Body, b: Body)
    requires Readable(a) && Readable(b) && SameBody(tools, a, b)
    ensures BodyFrames(tools, a) == BodyFrames(tools, b)
  {
    hide SamePart;
    if a.Multipart? {
      SamePartsFrames(tools, a.parts, b.parts);
    }
  }

  lemma FramesDetermine(tools: Tools, a: Request, b: Request)
    requires Readable(a.body) && Readable(b.body) && Fits(tools, a) && Fits(tools, b)
    requires Frames(tools, a) == Frames(tools, b)
    ensures SameHead(tools, a, b) && SameBody(tools, a.body, b.body)
  {
    hide Listing, Uint64, HeaderFrames, BodyFrames, Merged, Names, SameBody;
    var ms, ns := Listing(Names(tools, a.headers)), Listing(Names(tools, b.headers));
    ListingDistinct(Names(tools, a.headers));
    ListingDistinct(Names(tools, b.headers));
    var fs, gs := [Text(BODY)] + BodyFrames(tools, a.body), [Text(BODY)] + BodyFrames(tools, b.body);
    var first := [Text(a.method_), Text(a.path), Text(a.query), Count(|ms|)];
    var second := [Text(b.method_), Text(b.path), Text(b.query), Count(|ns|)];
    Cut(first, HeaderFrames(tools, a.headers, ms) + fs, second, HeaderFrames(tools, b.headers, ns) + gs);
    assert first[0] == second[0] && first[1] == second[1] && first[2] == second[2] && first[3] == second[3];
    Uint64Injective(|ms|, |ns|);
    HeaderFramesCut(tools, a.headers, ms, fs, b.headers, ns, gs);
    Cut([Text(BODY)], BodyFrames(tools, a.body), [Text(BODY)], BodyFrames(tools, b.body));
    BodyFramesCut(tools, a.body, b.body);
    assert Names(tools, a.headers) == Names(tools, b.headers);
  }

  lemma {:induction false} SameHeaderFrames(tools: Tools, a: seq<Header>, b: seq<Header>, names: seq<Bytes>)
    requires SameValues(tools, a, b, names)
    ensures HeaderFrames(tools, a, names) == HeaderFrames(tools, b, names)
  {
    hide Sort, NameFrames;
    if names != [] {
      SameHeaderFrames(tools, a, b, names[1..]);
      SortSorts(Merged(tools, a, names[0]));
      SortSorts(Merged(tools, b, names[0]));
      SortedIsUnique(Sort(Merged(tools, a, names[0])), Sort(Merged(tools, b, names[0])));
    }
  }

  lemma SameFrames(tools: Tools, a: Request, b: Request)
    requires Readable(a.body) && Readable(b.body) && SameHead(tools, a, b) && SameBody(tools, a.body, b.body)
    ensures Frames(tools, a) == Frames(tools, b)
  {
    hide Listing, HeaderFrames, BodyFrames, SameBody;
    ListingDistinct(Names(tools, a.headers));
    SameHeaderFrames(tools, a.headers, b.headers, Listing(Names(tools, a.headers)));
    SameBodyFrames(tools, a.body, b.body);
  }

  /** Whatever the digest is: the hash input is the same exactly for the same head and body description. */
  lemma FingerprintDescribes(tools: Tools, a: Request, b: Request)
    requires Readable(a.body) && Readable(b.body) && Fits(tools, a) && Fits(tools, b)
    ensures HashInput(tools, a) == HashInput(tools, b) <==> SameHead(tools, a, b) && SameBody(tools, a.body, b.body)
  {
    hide Frames, SameHead, SameBody;
    if SameHead(tools, a, b) && SameBody(tools, a.body, b.body) {
      SameFrames(tools, a, b);
    }
    if HashInput(tools, a) == HashInput(tools, b) {
      Cut(PREFIX, WriteFrames(Frames(tools, a)), PREFIX, WriteFrames(Frames(tools, b)));
      WriteFramesInjective(Frames(tools, a), Frames(tools, b));
      FramesDetermine(tools, a, b);
    }
  }

  lemma SameAsItself(tools: Tools, body: Body)
    requires Readable(body)
    ensures SameBody(tools, body, body)
  {
    if body.Multipart? {
      forall i | 0 <= i < |body.parts| ensures SamePart(tools, body.parts[i], body.parts[i]) {
        assert ReadablePart(body.parts[i]);
      }
    }
  }

  /** Without a collision among the contents at hand, the same description is the same body. */
  lemma SameBodyIsEqual(tools: Tools, a: Body, b: Body)
    requires Readable(a) && Readable(b) && CollisionFree(tools, Contents(a) + Contents(b))
    ensures SameBody(tools, a, b) <==> a == b
  {
    if a == b {
      SameAsItself(tools, a);
    }
    if a.Multipart? && b.Multipart? && SameBody(tools, a, b) {
      forall i | 0 <= i < |a.parts| ensures a.parts[i] == b.parts[i] {
        assert SamePart(tools, a.parts[i], b.parts[i]);
        if a.parts[i].content.File? {
          assert a.parts[i] in a.parts && b.parts[i] in b.parts;
          assert a.parts[i].content.content.value in Contents(a) && b.parts[i].content.content.value in Contents(b);
        }
      }
      assert a.parts == b.parts;
    }
  }

  /**
   Where the digests of the contents at hand do not collide, the hash input is the
   same exactly for the same request.
   */
  lemma FingerprintIdentifies(tools: Tools, a: Request, b: Request)
    requires Readable(a.body) && Readable(b.body) && Fits(tools, a) && Fits(tools, b)
    requires CollisionFree(tools, Contents(a.body) + Contents(b.body))
    ensures HashInput(tools, a) == HashInput(tools, b) <==> SameHead(tools, a, b) && a.body == b.body
  {
    hide SameHead, SameBody, Fits, CollisionFree, HashInput;
    FingerprintDescribes(tools, a, b);
    SameBodyIsEqual(tools, a.body, b.body);
  }

  // -------------------------------------------------------------- order of the visit

  function Contribution(tools: Tools, h: Header, name: Bytes): (m: multiset<Bytes>) {
    if tools.lower(h.name) == name then multiset(h.values) else multiset{}
  }

  function Without(headers: seq<Header>, i: nat): (r: seq<Header>)
    requires i < |headers|
  {
    headers[..i] + headers[i + 1..]
  }

  lemma WithoutLast(headers: seq<Header>, i: nat)
    requires i < |headers| - 1
    ensures var n, rest := |headers| - 1, Without(headers, i);
            rest != [] && rest[..|rest| - 1] == Without(headers[..n], i) && rest[|rest| - 1] == headers[n]
                && headers[..n][i] == headers[i]
  {
  }

  lemma WithoutMultiset(headers: seq<Header>, i: nat)
    requires i < |headers|
    ensures multiset(Without(headers, i)) == multiset(headers) - multiset{headers[i]}
  {
    assert headers == headers[..i] + [headers[i]] + headers[i + 1..];
  }

  /** Any header can be visited last. */
  lemma {:induction false} ValuesVisitedLast(tools: Tools, headers: seq<Header>, i: nat, name: Bytes)
    requires i < |headers|
    ensures multiset(Merged(tools, headers, name))
            == multiset(Merged(tools, Without(headers, i), name)) + Contribution(tools, headers[i], name)
    decreases |headers|
  {
    var n := |headers| - 1;
    if i == n {
      assert Without(headers, i) == headers[..n];
    } else {
      WithoutLast(headers, i);
      hide Without;
      ValuesVisitedLast(tools, headers[..n], i, name);
    }
  }

  function NameOf(tools: Tools, h: Header): (names: set<Bytes>) {
    if Kept(tools.lower(h.name)) then {tools.lower(h.name)} else {}
  }

  lemma {:induction false} NamesVisitedLast(tools: Tools, headers: seq<Header>, i: nat)
    requires i < |headers|
    ensures Names(tools, headers) == Names(tools, Without(headers, i)) + NameOf(tools, headers[i])
    decreases |headers|
  {
    hide Kept;
    var n := |headers| - 1;
    if i == n {
      assert Without(headers, i) == headers[..n];
    } else {
      WithoutLast(headers, i);
      hide Without;
      NamesVisitedLast(tools, headers[..n], i);
    }
  }

  /** The order in which the header map is visited does not matter. */
  lemma {:induction false} VisitOrderIsIrrelevant(tools: Tools, a: seq<Header>, b: seq<Header>, name: Bytes)
    requires multiset(a) == multiset(b)
    ensures multiset(Merged(tools, a, name)) == multiset(Merged(tools, b, name)) && Names(tools, a) == Names(tools, b)
    decreases |a|
  {
    hide Kept, Without, NameOf, Contribution;
    assert |multiset(a)| == |a| && |multiset(b)| == |b|;
    if a != [] {
      var n := |a| - 1;
      assert a[n] in multiset(b);
      var i :| 0 <= i < |b| && b[i] == a[n];
      ValuesVisitedLast(tools, a, n, name);
      ValuesVisitedLast(tools, b, i, name);
      NamesVisitedLast(tools, a, n);
      NamesVisitedLast(tools, b, i);
      WithoutMultiset(a, n);
      WithoutMultiset(b, i);
      WithoutShorter(a, n);
      VisitOrderIsIrrelevant(tools, Without(a, n), Without(b, i), name);
    }
  }

  lemma WithoutShorter(headers: seq<Header>, i: nat)
    requires i < |headers|
    ensures |Without(headers, i)| < |headers|
  {
  }

  lemma SameInAnyOrder(tools: Tools, r: Request, headers: seq<Header>)
    requires multiset(headers) == multiset(r.headers) && Readable(r.body)
    ensures HashInput(tools, r.(headers := headers)) == HashInput(tools, r)
  {
    hide Frames;
    VisitOrderIsIrrelevant(tools, headers, r.headers, []);
    var other := r.(headers := headers);
    forall name | name in Names(tools, other.headers)
      ensures multiset(Merged(tools, other.headers, name)) == multiset(Merged(tools, r.headers, name))
    {
      VisitOrderIsIrrelevant(tools, headers, r.headers, name);
    }
    SameAsItself(tools, r.body);
    SameFrames(tools, other, r);
  }

  // ----------------------------------------------------------------------- the loops

  /** What has been written so far, frame by frame. */
  ghost predicate Wrote(out: Bytes, fs: seq<Frame>) { out == PREFIX + WriteFrames(fs) }

  lemma {:induction false} WriteFramesJoin(fs: seq<Frame>, gs: seq<Frame>)
    ensures WriteFrames(fs + gs) == WriteFrames(fs) + WriteFrames(gs)
    decreases |fs|
  {
    hide WriteFrame;
    if fs == [] {
      assert fs + gs == gs;
    } else {
      assert (fs + gs)[1..] == fs[1..] + gs;
      WriteFramesJoin(fs[1..], gs);
    }
  }

  method Write(out: Bytes, f: Frame, ghost fs: seq<Frame>) returns (r: Bytes)
    requires Wrote(out, fs)
    ensures Wrote(r, fs + [f])
  {
    r := out + [f.kind] + Uint64(|f.data|) + f.data;
    WriteFramesJoin(fs, [f]);
    assert WriteFrames([f]) == WriteFrame(f);
  }

  method GatherHeaders(tools: Tools, headers: seq<Header>) returns (values: map<Bytes, seq<Bytes>>)
    ensures values.Keys == Names(tools, headers)
    ensures forall name | name in values :: values[name] == Merged(tools, headers, name)
  {
    values := map[];
    for i := 0 to |headers|
      invariant values.Keys == Names(tools, headers[..i])
      invariant forall name | name in values :: Kept(name) && values[name] == Merged(tools, headers[..i], name)
    {
      hide Kept;
      forall name ensures Merged(tools, headers[..i + 1], name)
                       == Merged(tools, headers[..i], name)
                           + (if tools.lower(headers[i].name) == name then headers[i].values else []) {
        MergedNext(tools, headers, i, name);
      }
      NamesNext(tools, headers, i);
      var lower := tools.lower(headers[i].name);
      if Kept(lower) {
        if lower !in values { NotMerged(tools, headers[..i], lower); }
        var before := if lower in values then values[lower] else [];
        values := values[lower := before + headers[i].values];
      }
    }
    assert headers[..|headers|] == headers;
  }

  lemma MergedNext(tools: Tools, headers: seq<Header>, i: nat, name: Bytes)
    requires i < |headers|
    ensures Merged(tools, headers[..i + 1], name)
         == Merged(tools, headers[..i], name) + (if tools.lower(headers[i].name) == name then headers[i].values else [])
  {
    assert headers[..i + 1][..i] == headers[..i];
  }

  lemma NamesNext(tools: Tools, headers: seq<Header>, i: nat)
    requires i < |headers|
    ensures Names(tools, headers[..i + 1]) == Names(tools, headers[..i]) + NameOf(tools, headers[i])
  {
    assert headers[..i + 1][..i] == headers[..i];
  }

  lemma {:induction false} NotMerged(tools: Tools, headers: seq<Header>, name: Bytes)
    requires name !in Names(tools, headers) && Kept(name)
    ensures Merged(tools, headers, name) == []
  {
    if headers != [] {
      NotMerged(tools, headers[..|headers| - 1], name);
    }
  }

  method ListNames(values: map<Bytes, seq<Bytes>>) returns (names: seq<Bytes>)
    ensures names == Listing(values.Keys)
  {
    hide Listing, Sort;
    var rest := values.Keys;
    var found: seq<Bytes> := [];
    while rest != {}
      invariant rest <= values.Keys && multiset(found) == multiset(values.Keys - rest)
      decreases rest
    {
      var name :| name in rest;
      assert values.Keys - (rest - {name}) == (values.Keys - rest) + {name};
      found := found + [name];
      rest := rest - {name};
    }
    assert values.Keys - rest == values.Keys;
    SortSorts(found);
    ListingSorted(values.Keys);
    SortedIsUnique(Sort(found), Listing(values.Keys));
    names := Sort(found);
  }

  method WriteValues(out: Bytes, values: seq<Bytes>, ghost fs: seq<Frame>) returns (r: Bytes)
    requires Wrote(out, fs)
    ensures Wrote(r, fs + ValueFrames(values))
  {
    hide Wrote;
    r := out;
    ghost var written := fs;
    for i := 0 to |values|
      invariant Wrote(r, written) && written + ValueFrames(values[i..]) == fs + ValueFrames(values)
    {
      assert values[i..][0] == values[i] && values[i..][1..] == values[i + 1..];
      r := Write(r, Text(values[i]), written);
      written := written + [Text(values[i])];
    }
    assert written == fs + ValueFrames(values);
  }

  method WriteName(out: Bytes, name: Bytes, values: seq<Bytes>, ghost fs: seq<Frame>) returns (r: Bytes)
    requires Wrote(out, fs)
    ensures Wrote(r, fs + NameFrames(name, values))
  {
    hide Wrote, ValueFrames;
    r := Write(out, Text(name), fs);
    r := Write(r, Count(|values|), fs + [Text(name)]);
    r := WriteValues(r, values, fs + [Text(name)] + [Count(|values|)]);
    assert fs + [Text(name)] + [Count(|values|)] + ValueFrames(values) == fs + NameFrames(name, values);
  }

  lemma HeaderFramesNext(tools: Tools, headers: seq<Header>, names: seq<Bytes>, i: nat, written: seq<Frame>)
    requires i < |names|
    ensures written + HeaderFrames(tools, headers, names[i..])
         == written + NameFrames(names[i], Sort(Merged(tools, headers, names[i])))
             + HeaderFrames(tools, headers, names[i + 1..])
  {
    hide NameFrames, Sort;
    assert names[i..][0] == names[i] && names[i..][1..] == names[i + 1..];
  }

  method WriteHeaders(tools: Tools, out: Bytes, headers: seq<Header>, names: seq<Bytes>,
                      values: map<Bytes, seq<Bytes>>, ghost fs: seq<Frame>)
    returns (r: Bytes)
    requires Wrote(out, fs)
    requires forall name | name in names :: name in values && values[name] == Merged(tools, headers, name)
    ensures Wrote(r, fs + HeaderFrames(tools, headers, names))
  {
    hide Wrote, Sort, NameFrames;
    r := out;
    ghost var written := fs;
    assert names[0..] == names;
    for i := 0 to |names|
      invariant Wrote(r, written)
                && written + HeaderFrames(tools, headers, names[i..]) == fs + HeaderFrames(tools, headers, names)
    {
      HeaderFramesNext(tools, headers, names, i, written);
      var sorted := Sort(values[names[i]]);
      r := WriteName(r, names[i], sorted, written);
      written := written + NameFrames(names[i], sorted);
    }
    assert written == fs + HeaderFrames(tools, headers, names);
  }

  method WritePart(tools: Tools, out: Bytes, p: Part, ghost fs: seq<Frame>) returns (r: Option<Bytes>)
    requires Wrote(out, fs)
    ensures r.Some? <==> ReadablePart(p)
    ensures r.Some? ==> Wrote(r.value, fs + PartFrames(tools, p))
  {
    hide Wrote, Digest;
    var text := Write(out, Text(p.name), fs);
    text := Write(text, Text(p.filename), fs + [Text(p.name)]);
    text := Write(text, Text(p.contentType), fs + [Text(p.name)] + [Text(p.filename)]);
    ghost var three := fs + [Text(p.name)] + [Text(p.filename)] + [Text(p.contentType)];
    match p.content {
      case Field(value) =>
        text := Write(text, Text(FIELD), three);
        text := Write(text, Data(value), three + [Text(FIELD)]);
        assert three + [Text(FIELD)] + [Data(value)] == fs + PartFrames(tools, p);
      case File(content) =>
        text := Write(text, Text(FILE), three);
        if content.None? { return None; }
        text := Write(text, Digest(tools, content.value), three + [Text(FILE)]);
        assert three + [Text(FILE)] + [Digest(tools, content.value)] == fs + PartFrames(tools, p);
    }
    return Some(text);
  }

  lemma PartsFramesJoin(tools: Tools, parts: seq<Part>, i: nat)
    requires i < |parts| && ReadableParts(parts[..i + 1])
    ensures ReadableParts(parts[..i]) && ReadablePart(parts[i])
    ensures PartsFrames(tools, parts[..i + 1]) == PartsFrames(tools, parts[..i]) + PartFrames(tools, parts[i])
  {
    hide PartFrames, ReadablePart;
    var some := parts[..i + 1];
    assert some[i] == parts[i] && some[..i] == parts[..i];
    assert parts[i] in some;
    assert forall p | p in parts[..i] :: p in some;
    PartsFramesSnoc(tools, some[..i], parts[i]);
    assert some == some[..i] + [parts[i]];
  }

  lemma {:induction false} PartsFramesSnoc(tools: Tools, parts: seq<Part>, p: Part)
    requires ReadableParts(parts) && ReadablePart(p)
    ensures ReadableParts(parts + [p])
            && PartsFrames(tools, parts + [p]) == PartsFrames(tools, parts) + PartFrames(tools, p)
  {
    hide PartFrames, ReadablePart;
    if parts == [] {
      assert parts + [p] == [p] && [p][1..] == [];
    } else {
      assert (parts + [p])[1..] == parts[1..] + [p];
      PartsFramesSnoc(tools, parts[1..], p);
    }
  }

  method WriteParts(tools: Tools, out: Bytes, parts: seq<Part>, ghost fs: seq<Frame>) returns (r: Option<Bytes>)
    requires Wrote(out, fs)
    ensures r.Some? <==> ReadableParts(parts)
    ensures r.Some? ==> Wrote(r.value, fs + PartsFrames(tools, parts))
  {
    hide Wrote, PartFrames, ReadablePart;
    var text := out;
    assert fs + PartsFrames(tools, parts[..0]) == fs;
    for i := 0 to |parts|
      invariant ReadableParts(parts[..i]) && Wrote(text, fs + PartsFrames(tools, parts[..i]))
    {
      var next := WritePart(tools, text, parts[i], fs + PartsFrames(tools, parts[..i]));
      assert parts[i] in parts;
      if next.None? { return None; }
      assert parts[..i + 1] == parts[..i] + [parts[i]];
      PartsFramesJoin(tools, parts, i);
      assert fs + PartsFrames(tools, parts[..i]) + PartFrames(tools, parts[i])
          == fs + (PartsFrames(tools, parts[..i]) + PartFrames(tools, parts[i]));
      text := next.value;
    }
    assert parts[..|parts|] == parts;
    return Some(text);
  }

  method WriteBody(tools: Tools, out: Bytes, body: Body, ghost fs: seq<Frame>) returns (r: Option<Bytes>)
    requires Wrote(out, fs)
    ensures r.Some? <==> Readable(body)
    ensures r.Some? ==> Wrote(r.value, fs + BodyFrames(tools, body))
  {
    hide Wrote, Digest, ReadableParts;
    match body {
      case Raw(data) =>
        var text := Write(out, Text(RAW), fs);
        text := Write(text, Data(data), fs + [Text(RAW)]);
        assert fs + [Text(RAW)] + [Data(data)] == fs + BodyFrames(tools, body);
        return Some(text);
      case Multipart(parts) =>
        var text := Write(out, Text(MULTIPART), fs);
        text := Write(text, Count(|parts|), fs + [Text(MULTIPART)]);
        r := WriteParts(tools, text, parts, fs + [Text(MULTIPART)] + [Count(|parts|)]);
        if r.Some? {
          assert fs + [Text(MULTIPART)] + [Count(|parts|)] + PartsFrames(tools, parts) == fs + BodyFrames(tools, body);
        }
      case Binary(content) =>
        var text := Write(out, Text(BINARY), fs);
        if content.None? { return None; }
        text := Write(text, Digest(tools, content.value), fs + [Text(BINARY)]);
        assert fs + [Text(BINARY)] + [Digest(tools, content.value)] == fs + BodyFrames(tools, body);
        return Some(text);
    }
  }

  /** The hash input, unless a captured body cannot be read. */
  method FingerprintRequest(tools: Tools, q: Request) returns (r: Option<Bytes>)
    ensures r.Some? <==> Readable(q.body)
    ensures r.Some? ==> r.value == HashInput(tools, q)
  {
    hide Wrote, Listing, HeaderFrames, BodyFrames, Names, Merged, Readable;
    var input := PREFIX;
    assert Wrote(PREFIX, []) by { WroteNothing(); }
    var values := GatherHeaders(tools, q.headers);
    var names := ListNames(values);
    ListingDistinct(values.Keys);
    input := Write(input, Text(q.method_), []);
    input := Write(input, Text(q.path), [] + [Text(q.method_)]);
    input := Write(input, Text(q.query), [] + [Text(q.method_)] + [Text(q.path)]);
    input := Write(input, Count(|names|), [] + [Text(q.method_)] + [Text(q.path)] + [Text(q.query)]);
    ghost var fs := [] + [Text(q.method_)] + [Text(q.path)] + [Text(q.query)] + [Count(|names|)];
    input := WriteHeaders(tools, input, q.headers, names, values, fs);
    ghost var hs := fs + HeaderFrames(tools, q.headers, names);
    input := Write(input, Text(BODY), hs);
    r := WriteBody(tools, input, q.body, hs + [Text(BODY)]);
    if r.Some? {
      assert hs + [Text(BODY)] + BodyFrames(tools, q.body) == Frames(tools, q);
      WroteAll(r.value, Frames(tools, q));
    }
  }

  lemma WroteNothing()
    ensures Wrote(PREFIX, [])
  {
  }

  lemma WroteAll(out: Bytes, fs: seq<Frame>)
    requires Wrote(out, fs)
    ensures out == PREFIX + WriteFrames(fs)
  {
  }

  // ------------------------------------------------------------------------- an instance

  /** A digest of 32 bytes: the start of the content, filled up with zeros. */
  function Filled(b: Bytes): (d: Bytes)
    ensures |d| == 32
  {
    if |b| >= 32 then b[..32] else b + seq(32 - |b|, _ => 0)
  }

  function Upload(content: Bytes): (r: Request) { Request([], [], [], [], Binary(Some(content))) }

  /** The assumptions can be met, with a digest of fixed size and contents that differ, and the inputs then differ. */
  lemma FingerprintTellsApart()
    ensures var tools := Tools(b => b, Filled);
            var a, b := Upload([1]), Upload([2]);
            && Readable(a.body) && Readable(b.body) && Fits(tools, a) && Fits(tools, b)
            && CollisionFree(tools, Contents(a.body) + Contents(b.body))
            && HashInput(tools, a) != HashInput(tools, b)
  {
    hide HashInput;
    var tools := Tools(b => b, Filled);
    var a, b := Upload([1]), Upload([2]);
    UploadFits(tools, [1]);
    UploadFits(tools, [2]);
    assert Filled([1])[0] == 1 && Filled([2])[0] == 2;
    FingerprintIdentifies(tools, a, b);
  }

  lemma UploadFits(tools: Tools, content: Bytes)
    requires |content| == 1 && |tools.digest(content)| == 32
    ensures Fits(tools, Upload(content))
  {
    hide Uint64;
    var r := Upload(content);
    assert Names(tools, r.headers) == {};
    var names := Listing(Names(tools, r.headers));
    ListingDistinct(Names(tools, r.headers));
    assert names == [];
    assert HeaderFrames(tools, r.headers, names) == [];
    var fs := [Text([]), Text([]), Text([]), Count(0)] + ([] + ([Text(BODY)] + [Text(BINARY), Digest(tools, content)]));
    assert Frames(tools, r) == fs;
    forall f | f in fs ensures |f.data| < WORD {
      assert f in [Text([]), Text([]), Text([]), Count(0)] || f in [Text(BODY)]
             || f in [Text(BINARY), Digest(tools, content)];
    }
  }
}
