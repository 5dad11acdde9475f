/** Byte strings: their lexicographic order, sorting, and big-endian integers. */
module ByteStrings {
  import opened Basics

  // ----------------------------------------------------------------------- order

  predicate AtMost(a: Bytes, b: Bytes) {
    a == [] || (b != [] && (a[0] < b[0] || (a[0] == b[0] && AtMost(a[1..], b[1..]))))
  }

  lemma {:induction false} AtMostTotal(a: Bytes, b: Bytes)
    ensures AtMost(a, b) || AtMost(b, a)
    ensures AtMost(a, b) && AtMost(b, a) ==> a == b
  {
    if a != [] && b != [] && a[0] == b[0] {
      AtMostTotal(a[1..], b[1..]);
      if AtMost(a, b) && AtMost(b, a) {
        assert a == [a[0]] + a[1..] && b == [b[0]] + b[1..];
      }
    }
  }

  lemma {:induction false} AtMostTransitive(a: Bytes, b: Bytes, c: Bytes)
    requires AtMost(a, b) && AtMost(b, c)
    ensures AtMost(a, c)
  {
    if a != [] && a[0] == b[0] == c[0] {
      AtMostTransitive(a[1..], b[1..], c[1..]);
    }
  }

  predicate Sorted(xs: seq<Bytes>) {
    forall i, j | 0 <= i < j < |xs| :: AtMost(xs[i], xs[j])
  }

  // --------------------------------------------------------------------- sorting

  function Insert(x: Bytes, xs: seq<Bytes>): (r: seq<Bytes>)
    ensures multiset(r) == multiset{x} + multiset(xs)
  {
    if xs == [] || AtMost(x, xs[0]) then
      assert multiset([x] + xs) == multiset{x} + multiset(xs);
      [x] + xs
    else
      assert xs == [xs[0]] + xs[1..];
      [xs[0]] + Insert(x, xs[1..])
  }

  lemma {:induction false} InsertSorts(x: Bytes, xs: seq<Bytes>)
    requires Sorted(xs)
    ensures Sorted(Insert(x, xs))
  {
    if xs == [] {
    } else if AtMost(x, xs[0]) {
      forall i | 0 <= i < |xs| ensures AtMost(x, xs[i]) {
        if i > 0 { AtMostTransitive(x, xs[0], xs[i]); }
      }
    } else {
      InsertSorts(x, xs[1..]);
      AtMostTotal(x, xs[0]);
      var rest := Insert(x, xs[1..]);
      forall i | 0 <= i < |rest| ensures AtMost(xs[0], rest[i]) {
        assert rest[i] in multiset(rest);
        assert rest[i] == x || rest[i] in xs[1..];
      }
    }
  }

  function InsertAll(xs: seq<Bytes>): (r: seq<Bytes>)
    ensures multiset(r) == multiset(xs)
  {
    if xs == [] then []
    else
      assert xs == [xs[0]] + xs[1..];
      Insert(xs[0], InsertAll(xs[1..]))
  }

  lemma {:induction false} InsertAllSorts(xs: seq<Bytes>)
    ensures Sorted(InsertAll(xs))
  {
    if xs != [] {
      InsertAllSorts(xs[1..]);
      InsertSorts(xs[0], InsertAll(xs[1..]));
    }
  }

  function Sort(xs: seq<Bytes>): (r: seq<Bytes>)
    ensures multiset(r) == multiset(xs)
  {
    InsertAll(xs)
  }

  lemma SortSorts(xs: seq<Bytes>)
    ensures Sorted(Sort(xs)) && multiset(Sort(xs)) == multiset(xs)
  {
    InsertAllSorts(xs);
  }

  lemma TailMultiset(xs: seq<Bytes>)
    requires xs != []
    ensures multiset(xs[1..]) == multiset(xs) - multiset{xs[0]}
  {
    assert xs == [xs[0]] + xs[1..];
  }

  lemma SameFirst(xs: seq<Bytes>, ys: seq<Bytes>)
    requires Sorted(xs) && Sorted(ys) && multiset(xs) == multiset(ys) && xs != []
    ensures ys != [] && xs[0] == ys[0]
  {
    assert xs[0] in multiset(xs);
    assert xs[0] in ys;
    assert ys[0] in multiset(ys);
    assert ys[0] in xs;
    FirstIsLeast(xs, ys[0]);
    FirstIsLeast(ys, xs[0]);
    AtMostTotal(xs[0], ys[0]);
  }

  /** A multiset of byte strings has one sorted listing. */
  lemma {:induction false} SortedIsUnique(xs: seq<Bytes>, ys: seq<Bytes>)
    requires Sorted(xs) && Sorted(ys) && multiset(xs) == multiset(ys)
    ensures xs == ys
  {
    hide AtMost;
    if xs == [] {
      if ys != [] { SameFirst(ys, xs); }
    } else {
      SameFirst(xs, ys);
      TailMultiset(xs);
      TailMultiset(ys);
      SortedIsUnique(xs[1..], ys[1..]);
      assert xs == [xs[0]] + xs[1..] && ys == [ys[0]] + ys[1..];
    }
  }

  lemma FirstIsLeast(xs: seq<Bytes>, x: Bytes)
    requires Sorted(xs) && x in xs
    ensures AtMost(xs[0], x)
  {
    AtMostTotal(x, x);
    var i :| 0 <= i < |xs| && xs[i] == x;
  }

  ghost function Enumerated(s: set<Bytes>): (r: seq<Bytes>)
    ensures multiset(r) == multiset(s)
    decreases |s|
  {
    if s == {} then []
    else
      var x :| x in s;
      Insert(x, Enumerated(s - {x}))
  }

  lemma {:induction false} EnumeratedSorted(s: set<Bytes>)
    ensures Sorted(Enumerated(s))
    decreases |s|
  {
    if s != {} {
      var x :| x in s && Enumerated(s) == Insert(x, Enumerated(s - {x}));
      EnumeratedSorted(s - {x});
      InsertSorts(x, Enumerated(s - {x}));
    }
  }

  /** The members of a set in order. */
  ghost function Listing(s: set<Bytes>): (r: seq<Bytes>)
    ensures multiset(r) == multiset(s)
  {
    Enumerated(s)
  }

  lemma ListingSorted(s: set<Bytes>)
    ensures Sorted(Listing(s))
  {
    EnumeratedSorted(s);
  }

  lemma Repeated(xs: seq<Bytes>, i: nat, j: nat)
    requires i < j < |xs| && xs[i] == xs[j]
    ensures multiset(xs)[xs[i]] >= 2
  {
    var a, b := xs[..j], xs[j..];
    assert xs == a + b;
    assert a[i] in multiset(a) && b[0] in multiset(b);
  }

  lemma ListingDistinct(s: set<Bytes>)
    ensures forall i, j | 0 <= i < j < |Listing(s)| :: Listing(s)[i] != Listing(s)[j]
    ensures forall x :: x in Listing(s) <==> x in s
    ensures |Listing(s)| == |s|
  {
    hide Listing;
    var xs := Listing(s);
    forall x ensures x in xs <==> x in s { assert x in multiset(xs) <==> x in multiset(s); }
    forall i, j | 0 <= i < j < |xs| ensures xs[i] != xs[j] {
      if xs[i] == xs[j] {
        Repeated(xs, i, j);
      }
    }
    assert |xs| == |multiset(xs)|;
    assert |multiset(s)| == |s|;
  }

  // ------------------------------------------------------------ big-endian integers

  /** The low `width` bytes of an integer, most significant first. */
  function PutUint(n: nat, width: nat): (r: Bytes)
    ensures |r| == width
  {
    if width == 0 then [] else PutUint(n / 256, width - 1) + [n % 256]
  }

  function ReadUint(b: Bytes): (n: nat) {
    if b == [] then 0 else ReadUint(b[..|b| - 1]) * 256 + b[|b| - 1]
  }

  function Power256(width: nat): (r: nat)
    ensures r > 0
  {
    if width == 0 then 1 else 256 * Power256(width - 1)
  }

  lemma {:induction false} PutRead(n: nat, width: nat)
    requires n < Power256(width)
    ensures ReadUint(PutUint(n, width)) == n
    decreases width
  {
    if width > 0 {
      PutRead(n / 256, width - 1);
      var b := PutUint(n, width);
      assert b[..|b| - 1] == PutUint(n / 256, width - 1);
    }
  }

  function Uint16(n: nat): (r: Bytes)
    ensures |r| == 2
  {
    PutUint(n, 2)
  }

  function Uint32(n: nat): (r: Bytes)
    ensures |r| == 4
  {
    PutUint(n, 4)
  }

  function Uint64(n: nat): (r: Bytes)
    ensures |r| == 8
  {
    PutUint(n, 8)
  }

  lemma Read16(n: nat)
    requires n < 0x1_0000
    ensures ReadUint(Uint16(n)) == n
  {
    assert Power256(2) == 0x1_0000;
    PutRead(n, 2);
  }

  lemma Read32(n: nat)
    requires n < 0x1_0000_0000
    ensures ReadUint(Uint32(n)) == n
  {
    assert Power256(2) == 0x1_0000;
    assert Power256(4) == 0x1_0000_0000;
    PutRead(n, 4);
  }

  lemma Read64(n: nat)
    requires n < 0x1_0000_0000_0000_0000
    ensures ReadUint(Uint64(n)) == n
  {
    assert Power256(2) == 0x1_0000;
    assert Power256(4) == 0x1_0000_0000;
    assert Power256(6) == 0x1_0000_0000_0000;
    assert Power256(8) == 0x1_0000_0000_0000_0000;
    PutRead(n, 8);
  }
}
