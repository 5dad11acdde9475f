/**
 Route ordering: eligible targets grouped by priority, each group drawn by weight
 out of a shared slice from which chosen targets are removed in place.
 */
module Routing {
  import opened Basics

  datatype Target = Target(connection: string, model: string, region: string, priority: int, weight: int)
  datatype Policy = Policy(affinity: bool, fallback: bool)

  datatype Error = InvalidTarget | NoTarget | WeightOverflow
  datatype Outcome<+T> = Ok(value: T) | Fail(error: Error)

  predicate Same(a: Target, b: Target) { a.connection == b.connection && a.model == b.model && a.region == b.region }

  // --------------------------------------------------------------------- eligibility

  /** Targets the catalog allows and health does not rule out, in the order they are declared. */
  function Eligible(targets: seq<Target>, allowed: Target -> bool, healthy: Target -> bool): (r: Outcome<seq<Target>>) {
    if targets == [] then Ok([])
    else
      var n := |targets| - 1;
      var t := targets[n];
      match Eligible(targets[..n], allowed, healthy)
      case Fail(e) => Fail(e)
      case Ok(before) =>
        if !allowed(t) then Ok(before)
        else if t.priority < 0 || t.weight <= 0 then Fail(InvalidTarget)
        else if !healthy(t) then Ok(before)
        else Ok(before + [t])
  }

  // ------------------------------------------------------------------------- sorting

  predicate Ascending(xs: seq<Target>) {
    forall i, j | 0 <= i < j < |xs| :: xs[i].priority <= xs[j].priority
  }

  /** Insertion after equal priorities keeps the order of declaration. */
  function InsertStable(xs: seq<Target>, t: Target): (r: seq<Target>)
    ensures multiset(r) == multiset(xs) + multiset{t}
  {
    if xs == [] || xs[|xs| - 1].priority <= t.priority then xs + [t]
    else
      var n := |xs| - 1;
      assert xs == xs[..n] + [xs[n]];
      InsertStable(xs[..n], t) + [xs[n]]
  }

  lemma InsertedFrom(xs: seq<Target>, t: Target, x: Target)
    requires x in InsertStable(xs, t)
    ensures x == t || x in xs
  {
    assert x in multiset(InsertStable(xs, t));
  }

  lemma {:induction false} InsertAscends(xs: seq<Target>, t: Target)
    requires Ascending(xs)
    ensures Ascending(InsertStable(xs, t))
  {
    if xs != [] && xs[|xs| - 1].priority > t.priority {
      var n := |xs| - 1;
      InsertAscends(xs[..n], t);
      var r := InsertStable(xs[..n], t);
      forall i | 0 <= i < |r| ensures r[i].priority <= xs[n].priority {
        InsertedFrom(xs[..n], t, r[i]);
      }
      assert InsertStable(xs, t) == r + [xs[n]];
    }
  }

  function SortStable(xs: seq<Target>): (r: seq<Target>)
    ensures multiset(r) == multiset(xs)
  {
    if xs == [] then []
    else
      var n := |xs| - 1;
      assert xs == xs[..n] + [xs[n]];
      InsertStable(SortStable(xs[..n]), xs[n])
  }

  lemma {:induction false} SortAscends(xs: seq<Target>)
    ensures Ascending(SortStable(xs)) && multiset(SortStable(xs)) == multiset(xs)
  {
    if xs != [] {
      SortAscends(xs[..|xs| - 1]);
      InsertAscends(SortStable(xs[..|xs| - 1]), xs[|xs| - 1]);
    }
  }

  // ---------------------------------------------------------------- weighted selection

  /** The weight of the first n targets. */
  function WeightBefore(xs: seq<Target>, n: nat): (w: int)
    requires n <= |xs|
  {
    if n == 0 then 0 else WeightBefore(xs, n - 1) + xs[n - 1].weight
  }

  function Total(xs: seq<Target>): (w: int) { WeightBefore(xs, |xs|) }

  predicate Weighted(xs: seq<Target>) { forall t | t in xs :: t.weight > 0 }

  lemma {:induction false} WeightGrows(xs: seq<Target>, m: nat, n: nat)
    requires Weighted(xs) && m <= n <= |xs|
    ensures WeightBefore(xs, m) + (n - m) <= WeightBefore(xs, n)
    decreases n
  {
    if m < n {
      WeightGrows(xs, m, n - 1);
      assert xs[n - 1] in xs;
    }
  }

  lemma {:induction false} WeightOfPrefix(xs: seq<Target>, ys: seq<Target>, n: nat)
    requires n <= |xs| && n <= |ys| && xs[..n] == ys[..n]
    ensures WeightBefore(xs, n) == WeightBefore(ys, n)
  {
    if n > 0 {
      assert xs[..n - 1] == xs[..n][..n - 1] == ys[..n][..n - 1] == ys[..n - 1];
      assert xs[n - 1] == xs[..n][n - 1] == ys[..n][n - 1];
      WeightOfPrefix(xs, ys, n - 1);
    }
  }

  lemma TotalSnoc(xs: seq<Target>, t: Target)
    ensures Total(xs + [t]) == Total(xs) + t.weight
  {
    WeightOfPrefix(xs + [t], xs, |xs|);
  }

  lemma {:induction false} TotalWithout(xs: seq<Target>, i: nat)
    requires i < |xs|
    ensures Total(xs) == Total(xs[..i] + xs[i + 1..]) + xs[i].weight
    decreases |xs|
  {
    var n := |xs| - 1;
    assert xs == xs[..n] + [xs[n]];
    TotalSnoc(xs[..n], xs[n]);
    if i < n {
      TotalWithout(xs[..n], i);
      assert xs[..n][..i] + xs[..n][i + 1..] + [xs[n]] == xs[..i] + xs[i + 1..];
      TotalSnoc(xs[..n][..i] + xs[..n][i + 1..], xs[n]);
    } else {
      assert xs[..i] + xs[i + 1..] == xs[..n];
    }
  }

  /** Part of the targets weighs no more than all of them. */
  lemma {:induction false} TotalOfPart(xs: seq<Target>, ys: seq<Target>)
    requires multiset(ys) <= multiset(xs) && Weighted(xs)
    ensures Total(ys) <= Total(xs)
    decreases |ys|
  {
    if ys == [] {
      WeightGrows(xs, 0, |xs|);
    } else {
      var n := |ys| - 1;
      assert ys == ys[..n] + [ys[n]];
      assert ys[n] in multiset(ys);
      assert ys[n] in xs;
      var i :| 0 <= i < |xs| && xs[i] == ys[n];
      MovedMultiset(xs, i);
      TotalWithout(xs, i);
      TotalSnoc(ys[..n], ys[n]);
      assert multiset(ys) == multiset(ys[..n]) + multiset{ys[n]};
      WeightedWithout(xs, i);
      PartWithoutOne(multiset(ys[..n]), multiset(xs[..i] + xs[i + 1..]), ys[n]);
      TotalOfPart(xs[..i] + xs[i + 1..], ys[..n]);
    }
  }

  lemma PartWithoutOne(part: multiset<Target>, all: multiset<Target>, t: Target)
    requires part + multiset{t} <= all + multiset{t}
    ensures part <= all
  {
    forall x ensures part[x] <= all[x] {
      assert (part + multiset{t})[x] <= (all + multiset{t})[x];
    }
  }

  lemma WeightedWithout(xs: seq<Target>, i: nat)
    requires i < |xs| && Weighted(xs)
    ensures Weighted(xs[..i] + xs[i + 1..])
  {
  }

  lemma MovedMultiset(xs: seq<Target>, i: nat)
    requires i < |xs|
    ensures multiset(xs) == multiset(xs[..i] + xs[i + 1..]) + multiset{xs[i]}
  {
    assert xs == xs[..i] + [xs[i]] + xs[i + 1..];
  }

  /** The position that a draw selects: each target owns as many consecutive draws as its weight. */
  ghost predicate Selects(xs: seq<Target>, draw: int, i: nat) {
    i < |xs| && WeightBefore(xs, i) <= draw < WeightBefore(xs, i + 1)
  }

  /** A draw out of the total weight selects exactly one position. */
  lemma SelectsOne(xs: seq<Target>, draw: int, i: nat, j: nat)
    requires Weighted(xs) && Selects(xs, draw, i) && Selects(xs, draw, j)
    ensures i == j
  {
    if i < j { WeightGrows(xs, i + 1, j); }
    if j < i { WeightGrows(xs, j + 1, i); }
  }

  function Draws(from: int, count: nat): (r: set<int>)
    ensures forall d :: d in r <==> from <= d < from + count
    ensures |r| == count
  {
    if count == 0 then {} else Draws(from, count - 1) + {from + count - 1}
  }

  /** Each position is selected by exactly its weight many of the possible draws. */
  lemma DrawsPerWeight(xs: seq<Target>, i: nat)
    requires Weighted(xs) && i < |xs|
    ensures var chosen := set draw | 0 <= draw < Total(xs) && Selects(xs, draw, i);
            |chosen| == xs[i].weight
  {
    assert xs[i] in xs;
    WeightGrows(xs, 0, i);
    WeightGrows(xs, i + 1, |xs|);
    var chosen := set draw | 0 <= draw < Total(xs) && Selects(xs, draw, i);
    assert chosen == Draws(WeightBefore(xs, i), xs[i].weight);
  }

  /** Draws uniformly out of the total weight; fails only when that total leaves int64. */
  method WeightedIndex(xs: seq<Target>) returns (r: Outcome<nat>, draw: int)
    requires Weighted(xs) && xs != []
    ensures r.Ok? <==> Total(xs) <= MAX_INT64
    ensures r.Ok? ==> 0 <= draw < Total(xs) && Selects(xs, draw, r.value)
  {
    draw := 0;
    var total := 0;
    for i := 0 to |xs|
      invariant total == WeightBefore(xs, i) && 0 <= total <= MAX_INT64
    {
      assert xs[i] in xs;
      if xs[i].weight <= 0 || xs[i].weight > MAX_INT64 - total {
        WeightGrows(xs, i + 1, |xs|);
        return Fail(WeightOverflow), 0;
      }
      total := total + xs[i].weight;
    }
    WeightGrows(xs, 0, |xs|);
    draw :| 0 <= draw < total;
    var pick := draw;
    for i := 0 to |xs|
      invariant pick == draw - WeightBefore(xs, i) && pick >= 0
    {
      if pick < xs[i].weight { return Ok(i), draw; }
      pick := pick - xs[i].weight;
    }
  }

  // ---------------------------------------------------------------------- in-place tiers

  /** Takes one target out of a tier by shifting the rest of the tier down; nothing outside the tier moves. */
  method RemoveAt(a: array<Target>, lo: nat, size: nat, i: nat)
    requires lo + size <= a.Length && i < size
    modifies a
    ensures a[lo..lo + size - 1] == old(a[lo..lo + i]) + old(a[lo + i + 1..lo + size])
    ensures forall k | 0 <= k < a.Length && !(lo <= k < lo + size) :: a[k] == old(a[k])
  {
    for j := i to size - 1
      invariant forall k | 0 <= k < lo + i :: a[k] == old(a[k])
      invariant forall k | lo + i <= k < lo + j :: a[k] == old(a[k + 1])
      invariant forall k | lo + j < k < a.Length :: a[k] == old(a[k])
      invariant j < size ==> a[lo + j] == old(a[lo + j])
    {
      a[lo + j] := a[lo + j + 1];
    }
    Shifted(a[lo..lo + size - 1], old(a[lo..lo + size]), i);
    assert old(a[lo..lo + size])[..i] == old(a[lo..lo + i])
           && old(a[lo..lo + size])[i + 1..] == old(a[lo + i + 1..lo + size]);
  }

  lemma Shifted(xs: seq<Target>, was: seq<Target>, i: nat)
    requires |xs| + 1 == |was| && i < |was|
    requires forall k | 0 <= k < i :: xs[k] == was[k]
    requires forall k | i <= k < |xs| :: xs[k] == was[k + 1]
    ensures xs == was[..i] + was[i + 1..]
  {
  }

  // ------------------------------------------------------------------------- ordering

  predicate AllPriority(xs: seq<Target>, p: int) { forall t | t in xs :: t.priority == p }

  /** The targets already ordered come before the rest of their tier. */
  ghost predicate Leads(ordered: seq<Target>, p: int) {
    Ascending(ordered) && forall t | t in ordered :: t.priority <= p
  }

  lemma LeadsOne(ordered: seq<Target>, t: Target)
    requires Leads(ordered, t.priority)
    ensures Leads(ordered + [t], t.priority)
  {
  }

  /** The index of the preferred target in the tier; its length when it is not there. */
  method FindPreferred(tier: seq<Target>, preferred: Target) returns (i: nat)
    ensures i <= |tier| && (i < |tier| ==> Same(tier[i], preferred))
    ensures forall j | 0 <= j < i :: !Same(tier[j], preferred)
  {
    i := 0;
    while i < |tier| && !Same(tier[i], preferred)
      invariant i <= |tier| && forall j | 0 <= j < i :: !Same(tier[j], preferred)
    {
      i := i + 1;
    }
  }

  /** The end of the tier that starts at a position of the sorted slice. */
  method TierEnd(a: array<Target>, lo: nat) returns (hi: nat)
    requires lo < a.Length && Ascending(a[lo..])
    ensures lo < hi <= a.Length && AllPriority(a[lo..hi], a[lo].priority)
    ensures forall k | hi <= k < a.Length :: a[k].priority > a[lo].priority
  {
    hi := lo + 1;
    while hi < a.Length && a[hi].priority == a[lo].priority
      invariant lo < hi <= a.Length && forall k | lo <= k < hi :: a[k].priority == a[lo].priority
    {
      hi := hi + 1;
    }
    if hi < a.Length {
      forall k | hi <= k < a.Length ensures a[k].priority > a[lo].priority {
        assert a[lo..][0] == a[lo] && a[lo..][hi - lo] == a[hi] && a[lo..][k - lo] == a[k];
      }
    }
  }

  /** The tier with one position removed. */
  function Without(tier: seq<Target>, i: nat): (rest: seq<Target>)
    requires i < |tier|
  {
    tier[..i] + tier[i + 1..]
  }

  /** Takes a target out of a tier; together with it, what is left is the tier. */
  method TakeAt(a: array<Target>, lo: nat, size: nat, i: nat) returns (t: Target)
    requires lo + size <= a.Length && i < size
    modifies a
    ensures forall k | 0 <= k < a.Length && !(lo <= k < lo + size) :: a[k] == old(a[k])
    ensures t == old(a[lo..lo + size])[i] && a[lo..lo + size - 1] == Without(old(a[lo..lo + size]), i)
    ensures multiset(old(a[lo..lo + size])) == multiset(a[lo..lo + size - 1]) + multiset{t}
  {
    ghost var tier := a[lo..lo + size];
    t := a[lo + i];
    MovedMultiset(tier, i);
    assert old(a[lo..lo + i]) == tier[..i] && old(a[lo + i + 1..lo + size]) == tier[i + 1..];
    RemoveAt(a, lo, size, i);
  }

  /** Draws one target out of a tier and removes it from the slice. */
  method DrawOne(a: array<Target>, lo: nat, size: nat) returns (r: Outcome<Target>)
    requires lo + size <= a.Length && size > 0 && Weighted(a[lo..lo + size])
    modifies a
    ensures forall k | 0 <= k < a.Length && !(lo <= k < lo + size) :: a[k] == old(a[k])
    ensures r.Ok? <==> Total(old(a[lo..lo + size])) <= MAX_INT64
    ensures r.Ok? ==> r.value in old(a[lo..lo + size])
    ensures r.Ok? ==> multiset(old(a[lo..lo + size])) == multiset(a[lo..lo + size - 1]) + multiset{r.value}
    ensures r.Fail? ==> r.error == WeightOverflow
  {
    hide Weighted;
    var tier := a[lo..lo + size];
    var chosen, draw := WeightedIndex(tier);
    if chosen.Fail? { return Fail(WeightOverflow); }
    hide WeightBefore, Total;
    var t := TakeAt(a, lo, size, chosen.value);
    return Ok(t);
  }

  lemma SubsetKeeps(xs: seq<Target>, ys: seq<Target>, t: Target, p: int)
    requires multiset(xs) == multiset(ys) + multiset{t} && Weighted(xs) && AllPriority(xs, p)
    ensures Weighted(ys) && AllPriority(ys, p) && t.priority == p
  {
    forall y | y in ys ensures y in xs { assert y in multiset(ys); assert y in multiset(xs); }
    assert t in multiset(xs);
  }

  /** Part of a tier has been drawn; what is left together with what was drawn is the tier. */
  ghost predicate Drawing(left: seq<Target>, whole: seq<Target>, first: seq<Target>, ordered: seq<Target>, p: int) {
    && Weighted(left) && AllPriority(left, p) && Leads(ordered, p) && first <= ordered
    && multiset(ordered) + multiset(left) == multiset(first) + multiset(whole)
    && multiset(left) <= multiset(whole)
  }

  lemma DrawnMore(before: seq<Target>, left: seq<Target>, whole: seq<Target>, first: seq<Target>, ordered: seq<Target>,
                  p: int, t: Target)
    requires Drawing(before, whole, first, ordered, p) && multiset(before) == multiset(left) + multiset{t}
    ensures Drawing(left, whole, first, ordered + [t], p) && t in whole
  {
    SubsetKeeps(before, left, t, p);
    LeadsOne(ordered, t);
    assert t in multiset(before);
    assert t in multiset(whole);
  }

  lemma DrawnAll(whole: seq<Target>, first: seq<Target>, ordered: seq<Target>, p: int)
    requires Drawing([], whole, first, ordered, p)
    ensures multiset(ordered) == multiset(first) + multiset(whole)
  {
    assert multiset(ordered) + multiset([]) == multiset(ordered);
  }

  lemma DrawingFacts(left: seq<Target>, whole: seq<Target>, first: seq<Target>, ordered: seq<Target>, p: int)
    requires Drawing(left, whole, first, ordered, p)
    ensures Weighted(left) && Leads(ordered, p) && first <= ordered && (Weighted(whole) ==> Total(left) <= Total(whole))
  {
    if Weighted(whole) { TotalOfPart(whole, left); }
  }

  /** One more draw out of the tier. */
  method DrawNext(a: array<Target>, lo: nat, size: nat, ghost whole: seq<Target>, ghost first: seq<Target>,
                  ordered: seq<Target>, ghost p: int)
    returns (r: Outcome<seq<Target>>)
    requires lo + size <= a.Length && size > 0 && Drawing(a[lo..lo + size], whole, first, ordered, p) && Weighted(whole)
    modifies a
    ensures forall k | 0 <= k < a.Length && !(lo <= k < lo + size) :: a[k] == old(a[k])
    ensures r.Ok? ==> Drawing(a[lo..lo + size - 1], whole, first, r.value, p)
    ensures r.Ok? ==> |r.value| == |ordered| + 1 && ordered <= r.value
    ensures r.Ok? ==> r.value[|ordered|] in whole
    ensures r.Fail? <==> Total(old(a[lo..lo + size])) > MAX_INT64
    ensures r.Fail? ==> r.error == WeightOverflow && Total(whole) > MAX_INT64
  {
    hide Drawing, Weighted, Total;
    ghost var tier := a[lo..lo + size];
    DrawingFacts(tier, whole, first, ordered, p);
    var drawn := DrawOne(a, lo, size);
    if drawn.Fail? { return Fail(WeightOverflow); }
    DrawnMore(tier, a[lo..lo + size - 1], whole, first, ordered, p, drawn.value);
    return Ok(ordered + [drawn.value]);
  }

  /** Draws the rest of a tier after the targets already ordered; without fallback, at most one target in all. */
  method DrawTier(a: array<Target>, lo: nat, live: nat, first: seq<Target>, p: int, fallback: bool)
    returns (r: Outcome<seq<Target>>)
    requires lo + live <= a.Length && Weighted(a[lo..lo + live]) && AllPriority(a[lo..lo + live], p) && Leads(first, p)
    modifies a
    ensures forall k | 0 <= k < a.Length && !(lo <= k < lo + live) :: a[k] == old(a[k])
    ensures r.Ok? ==> first <= r.value && Leads(r.value, p)
    ensures r.Ok? && fallback ==> multiset(r.value) == multiset(first) + multiset(old(a[lo..lo + live]))
    ensures r.Ok? && !fallback
            ==> if first == [] && live > 0 then |r.value| == 1
                && r.value[0] in old(a[lo..lo + live]) else r.value == first
    ensures r.Fail? <==> (fallback || first == []) && Total(old(a[lo..lo + live])) > MAX_INT64
    ensures r.Fail? ==> r.error == WeightOverflow
  {
    var ordered := first;
    var size := live;
    ghost var whole := a[lo..lo + live];
    assert Drawing(whole, whole, first, ordered, p);
    hide Drawing, Weighted, AllPriority, Leads, Total;
    while size > 0
      invariant 0 <= size <= live && Drawing(a[lo..lo + size], whole, first, ordered, p)
      invariant forall k | 0 <= k < a.Length && !(lo <= k < lo + live) :: a[k] == old(a[k])
      invariant size == live ==> ordered == first && a[lo..lo + size] == whole
      invariant size < live ==> Total(whole) <= MAX_INT64
      invariant !fallback && size < live ==> first == [] && |ordered| == 1 && ordered[0] in whole
      decreases size
    {
      if ordered != [] && !fallback {
        DrawingFacts(a[lo..lo + size], whole, first, ordered, p);
        return Ok(ordered);
      }
      var drawn := DrawNext(a, lo, size, whole, first, ordered, p);
      if drawn.Fail? { return drawn; }
      ordered := drawn.value;
      size := size - 1;
    }
    assert a[lo..lo + size] == [] && (live == 0 ==> whole == []);
    if live == 0 { NothingWeighs(); }
    DrawingFacts([], whole, first, ordered, p);
    DrawnAll(whole, first, ordered, p);
    return Ok(ordered);
  }

  lemma NothingWeighs()
    ensures Total([]) == 0
  {
  }

  /** The position of the hinted target in a tier; the length of the tier when it is not there. */
  function HintIndex(tier: seq<Target>, preferred: Target): (i: nat)
    ensures i <= |tier| && (i < |tier| ==> Same(tier[i], preferred))
            && forall j | 0 <= j < i :: !Same(tier[j], preferred)
  {
    if tier == [] then 0 else if Same(tier[0], preferred) then 0 else 1 + HintIndex(tier[1..], preferred)
  }

  /** The hint takes a target out of this tier. */
  predicate HintTaken(tier: seq<Target>, policy: Policy, preferred: Option<Target>, top: bool) {
    top && policy.affinity && preferred.Some? && HintIndex(tier, preferred.value) < |tier|
  }

  /** What is left of a tier to draw from once the hinted target is taken out. */
  function Undrawn(tier: seq<Target>, policy: Policy, preferred: Option<Target>, top: bool): (rest: seq<Target>) {
    if HintTaken(tier, policy, preferred, top) then Without(tier, HintIndex(tier, preferred.value)) else tier
  }

  /** The tier is drawn from, and the weights to draw from leave int64. */
  predicate TierOverflows(tier: seq<Target>, policy: Policy, preferred: Option<Target>, top: bool) {
    && (policy.fallback || !HintTaken(tier, policy, preferred, top))
    && Total(Undrawn(tier, policy, preferred, top)) > MAX_INT64
  }

  lemma HintIsFirst(tier: seq<Target>, preferred: Target, i: nat)
    requires i <= |tier| && (i < |tier| ==> Same(tier[i], preferred))
             && forall j | 0 <= j < i :: !Same(tier[j], preferred)
    ensures HintIndex(tier, preferred) == i
  {
    hide HintIndex, Same;
    var h := HintIndex(tier, preferred);
    assert h <= i && i <= h;
  }

  /** The preferred target, if it is in the tier, has been put first. */
  ghost predicate Honoured(policy: Policy, preferred: Option<Target>, tier: seq<Target>, first: Target) {
    policy.affinity && preferred.Some? && (exists t | t in tier :: Same(t, preferred.value)) ==>
      Same(first, preferred.value)
  }

  /** Puts the preferred target of a tier first and takes it out of the slice. */
  method TakePreferred(a: array<Target>, lo: nat, hi: nat, p: int, preferred: Target)
    returns (first: seq<Target>, live: nat)
    requires lo < hi <= a.Length && Weighted(a[lo..hi]) && AllPriority(a[lo..hi], p)
    modifies a
    ensures forall k | 0 <= k < a.Length && !(lo <= k < hi) :: a[k] == old(a[k])
    ensures lo + live <= hi && Weighted(a[lo..lo + live]) && AllPriority(a[lo..lo + live], p) && Leads(first, p)
    ensures multiset(first) + multiset(a[lo..lo + live]) == multiset(old(a[lo..hi]))
            && multiset(a[lo..lo + live]) <= multiset(old(a[lo..hi]))
    ensures first == [] ==> live == hi - lo && forall t | t in old(a[lo..hi]) :: !Same(t, preferred)
    ensures first != [] ==> |first| == 1 && Same(first[0], preferred) && first[0] in old(a[lo..hi])
    ensures var i := HintIndex(old(a[lo..hi]), preferred);
            if first == [] then i == hi - lo && a[lo..lo + live] == old(a[lo..hi])
            else i < hi - lo && a[lo..lo + live] == Without(old(a[lo..hi]), i)
  {
    hide Leads, Weighted, AllPriority, HintIndex, Without;
    var tier := a[lo..hi];
    live := hi - lo;
    assert a[lo..lo + live] == tier;
    LeadsNone(p);
    var i := FindPreferred(tier, preferred);
    HintIsFirst(tier, preferred, i);
    if i == live { return [], live; }
    var t := TakeAt(a, lo, live, i);
    first, live := [t], live - 1;
    SubsetKeeps(tier, a[lo..lo + live], t, p);
    LeadsOne([], t);
    assert [] + [t] == [t];
  }

  lemma LeadsNone(p: int)
    ensures Leads([], p)
  {
  }

  /** Takes the hinted target out of the top tier, where the policy and the tier have one. */
  method TakeHint(a: array<Target>, lo: nat, hi: nat, before: seq<Target>, p: int, policy: Policy,
                  preferred: Option<Target>)
    returns (first: seq<Target>, live: nat)
    requires lo < hi <= a.Length && Weighted(a[lo..hi]) && AllPriority(a[lo..hi], p) && Leads(before, p)
    modifies a
    ensures forall k | 0 <= k < a.Length && !(lo <= k < hi) :: a[k] == old(a[k])
    ensures lo + live <= hi && a[lo..lo + live] == Undrawn(old(a[lo..hi]), policy, preferred, before == [])
    ensures Weighted(a[lo..lo + live]) && AllPriority(a[lo..lo + live], p) && Leads(first, p)
    ensures multiset(before) + multiset(old(a[lo..hi])) == multiset(first) + multiset(a[lo..lo + live])
    ensures if HintTaken(old(a[lo..hi]), policy, preferred, before == [])
            then before == [] && |first| == 1 && Same(first[0], preferred.value) && first[0] in old(a[lo..hi])
            else first == before
    ensures before == [] && first == [] && policy.affinity && preferred.Some? ==>
              forall t | t in old(a[lo..hi]) :: !Same(t, preferred.value)
  {
    hide Leads, Weighted, AllPriority, Same, HintIndex, Without;
    first, live := before, hi - lo;
    if before == [] && policy.affinity && preferred.Some? {
      first, live := TakePreferred(a, lo, hi, p, preferred.value);
      assert multiset(before) + multiset(old(a[lo..hi])) == multiset(old(a[lo..hi]));
    }
  }

  /** Orders one tier: the preferred target first, where it belongs to the first tier, then by weight. */
  method OrderTier(a: array<Target>, lo: nat, hi: nat, before: seq<Target>, p: int, policy: Policy,
                   preferred: Option<Target>)
    returns (r: Outcome<seq<Target>>)
    requires lo < hi <= a.Length && Weighted(a[lo..hi]) && AllPriority(a[lo..hi], p) && Leads(before, p)
             && (policy.fallback || before == [])
    modifies a
    ensures forall k | 0 <= k < a.Length && !(lo <= k < hi) :: a[k] == old(a[k])
    ensures r.Ok? ==> before <= r.value && Leads(r.value, p) && r.value != []
    ensures r.Ok? && policy.fallback ==> multiset(r.value) == multiset(before) + multiset(old(a[lo..hi]))
    ensures r.Ok? && !policy.fallback ==> |r.value| == 1
    ensures r.Ok? && before == []
            ==> r.value[0] in old(a[lo..hi]) && Honoured(policy, preferred, old(a[lo..hi]), r.value[0])
    ensures r.Fail? <==> TierOverflows(old(a[lo..hi]), policy, preferred, before == [])
    ensures r.Fail? ==> r.error == WeightOverflow
  {
    hide Leads, Total, Weighted, AllPriority, Same, HintIndex, Undrawn, HintTaken;
    ghost var whole := a[lo..hi];
    var first, live := TakeHint(a, lo, hi, before, p, policy, preferred);
    ghost var tier := a[lo..lo + live];
    r := DrawTier(a, lo, live, first, p, policy.fallback);
    if r.Ok? {
      DrawnFirst(before, first, tier, whole, r.value, policy.fallback);
    }
  }

  lemma DrawnFirst(before: seq<Target>, first: seq<Target>, tier: seq<Target>, whole: seq<Target>,
                   ordered: seq<Target>, fallback: bool)
    requires whole != [] && multiset(before) + multiset(whole) == multiset(first) + multiset(tier) && first <= ordered
             && (fallback || before == [])
    requires first == before || (before == [] && |first| == 1 && first[0] in whole)
    requires fallback ==> multiset(ordered) == multiset(first) + multiset(tier)
    requires !fallback ==> if first == [] && tier != [] then |ordered| == 1 && ordered[0] in tier else ordered == first
    ensures ordered != [] && (before == [] ==> ordered[0] in whole)
    ensures fallback ==> multiset(ordered) == multiset(before) + multiset(whole)
    ensures !fallback ==> |ordered| == 1
  {
    assert whole[0] in multiset(whole);
    if before == [] && first == [] {
      assert multiset(before) + multiset(whole) == multiset(whole)
             && multiset(first) + multiset(tier) == multiset(tier);
      assert tier[0] in multiset(tier);
      if fallback { assert tier[0] in multiset(ordered); }
      assert ordered[0] in multiset(ordered);
      if !fallback { assert ordered[0] in multiset(tier); }
    } else if before != [] {
      assert ordered[0] == before[0];
    }
  }

  /** No eligible target has a smaller priority number. */
  ghost predicate Top(es: seq<Target>, t: Target) { t in es && forall u | u in es :: t.priority <= u.priority }

  /** The first target is of the top tier, and it is the preferred one if that is of the top tier. */
  ghost predicate First(es: seq<Target>, policy: Policy, preferred: Option<Target>, t: Target) {
    && Top(es, t)
    && (policy.affinity && preferred.Some? && (exists u | u in es :: Top(es, u) && Same(u, preferred.value))
        ==> Same(t, preferred.value))
  }

  /** What an ordering of the eligible targets must be. */
  ghost predicate Routed(es: seq<Target>, policy: Policy, preferred: Option<Target>, xs: seq<Target>) {
    && xs != [] && First(es, policy, preferred, xs[0])
    && (policy.fallback ==> multiset(xs) == multiset(es) && Ascending(xs))
    && (!policy.fallback ==> |xs| == 1)
  }

  lemma FirstOfTier(sorted: seq<Target>, hi: nat, policy: Policy, preferred: Option<Target>, t: Target)
    requires 0 < hi <= |sorted| && Ascending(sorted) && AllPriority(sorted[..hi], sorted[0].priority)
    requires forall k | hi <= k < |sorted| :: sorted[k].priority > sorted[0].priority
    requires t in sorted[..hi] && Honoured(policy, preferred, sorted[..hi], t)
    ensures First(sorted, policy, preferred, t)
  {
    forall u | u in sorted ensures t.priority <= u.priority {
      var k :| 0 <= k < |sorted| && sorted[k] == u;
      assert k < hi ==> sorted[..hi][k] == u;
    }
    forall u | u in sorted && Top(sorted, u) ensures u in sorted[..hi] {
      var k :| 0 <= k < |sorted| && sorted[k] == u;
      assert sorted[0] in sorted;
      assert k < hi && sorted[..hi][k] == u;
    }
  }

  lemma FirstOfSame(es: seq<Target>, sorted: seq<Target>, policy: Policy, preferred: Option<Target>, t: Target)
    requires multiset(es) == multiset(sorted) && First(sorted, policy, preferred, t)
    ensures First(es, policy, preferred, t)
  {
    assert forall u :: u in es <==> u in multiset(es);
    assert forall u :: u in sorted <==> u in multiset(sorted);
    assert forall u :: u in es <==> u in sorted;
    forall u | Top(es, u) ensures Top(sorted, u) { }
  }

  lemma LeadsNext(ordered: seq<Target>, p: int, q: int)
    requires Leads(ordered, p) && p <= q
    ensures Leads(ordered, q)
  {
  }

  lemma LeadsAscends(ordered: seq<Target>, p: int)
    requires Leads(ordered, p)
    ensures Ascending(ordered)
  {
  }

  lemma RestSplits(sorted: seq<Target>, lo: nat, hi: nat)
    requires lo <= hi <= |sorted|
    ensures multiset(sorted[lo..]) == multiset(sorted[lo..hi]) + multiset(sorted[hi..])
  {
    assert sorted[lo..] == sorted[lo..hi] + sorted[hi..];
  }

  lemma PartIsWeighted(sorted: seq<Target>, lo: nat, hi: nat)
    requires lo <= hi <= |sorted| && Weighted(sorted)
    ensures Weighted(sorted[lo..hi]) && Total(sorted[lo..hi]) <= Total(sorted)
  {
    assert sorted == sorted[..lo] + sorted[lo..hi] + sorted[hi..];
    TotalOfPart(sorted, sorted[lo..hi]);
  }

  /** The targets of one priority, in order. */
  function Tier(xs: seq<Target>, p: int): (r: seq<Target>) {
    if xs == [] then []
    else var n := |xs| - 1; Tier(xs[..n], p) + (if xs[n].priority == p then [xs[n]] else [])
  }

  lemma {:induction false} TierJoin(xs: seq<Target>, ys: seq<Target>, p: int)
    ensures Tier(xs + ys, p) == Tier(xs, p) + Tier(ys, p)
    decreases |ys|
  {
    if ys == [] {
      assert xs + ys == xs;
    } else {
      var n := |ys| - 1;
      TierJoin(xs, ys[..n], p);
      assert (xs + ys)[..|xs| + n] == xs + ys[..n];
    }
  }

  lemma {:induction false} TierWhole(xs: seq<Target>, p: int)
    requires forall k | 0 <= k < |xs| :: xs[k].priority == p
    ensures Tier(xs, p) == xs
  {
    if xs != [] {
      TierWhole(xs[..|xs| - 1], p);
    }
  }

  lemma {:induction false} TierNone(xs: seq<Target>, p: int)
    requires forall k | 0 <= k < |xs| :: xs[k].priority != p
    ensures Tier(xs, p) == []
  {
    if xs != [] {
      TierNone(xs[..|xs| - 1], p);
    }
  }

  /** Sorting keeps the order inside each tier. */
  lemma {:induction false} InsertKeepsTier(xs: seq<Target>, t: Target, p: int)
    ensures Tier(InsertStable(xs, t), p) == Tier(xs + [t], p)
  {
    if xs != [] && xs[|xs| - 1].priority > t.priority {
      var n := |xs| - 1;
      InsertKeepsTier(xs[..n], t, p);
      hide Tier;
      assert xs == xs[..n] + [xs[n]];
      TierInserted(xs[..n], InsertStable(xs[..n], t), xs[n], t, p);
    }
  }

  lemma TierInserted(xs: seq<Target>, inserted: seq<Target>, u: Target, t: Target, p: int)
    requires Tier(inserted, p) == Tier(xs + [t], p) && t.priority != u.priority
    ensures Tier(inserted + [u], p) == Tier(xs + [u] + [t], p)
  {
    hide Tier;
    TierJoin(inserted, [u], p);
    TierJoin(xs, [t], p);
    TierJoin(xs + [u], [t], p);
    TierJoin(xs, [u], p);
    TiersCommute(t, u, p);
    assert Tier(xs, p) + Tier([t], p) + Tier([u], p) == Tier(xs, p) + (Tier([t], p) + Tier([u], p));
    assert Tier(xs, p) + Tier([u], p) + Tier([t], p) == Tier(xs, p) + (Tier([u], p) + Tier([t], p));
  }

  lemma TiersCommute(t: Target, u: Target, p: int)
    requires t.priority != u.priority
    ensures Tier([t], p) + Tier([u], p) == Tier([u], p) + Tier([t], p)
  {
    if t.priority != p { TierNone([t], p); } else { TierNone([u], p); }
  }

  lemma {:induction false} SortKeepsTier(xs: seq<Target>, p: int)
    ensures Tier(SortStable(xs), p) == Tier(xs, p)
  {
    if xs != [] {
      var n := |xs| - 1;
      SortKeepsTier(xs[..n], p);
      InsertKeepsTier(SortStable(xs[..n]), xs[n], p);
      TierJoin(SortStable(xs[..n]), [xs[n]], p);
      TierJoin(xs[..n], [xs[n]], p);
      assert xs == xs[..n] + [xs[n]];
    }
  }

  ghost predicate TopPriority(es: seq<Target>, p: int) { forall u | u in es :: p <= u.priority }

  /** The tier of this priority is drawn from, and what is drawn from it leaves int64. */
  ghost predicate OverflowsAt(es: seq<Target>, policy: Policy, preferred: Option<Target>, p: int) {
    && (policy.fallback || TopPriority(es, p))
    && TierOverflows(Tier(es, p), policy, preferred, TopPriority(es, p))
  }

  ghost predicate SomeTierOverflows(es: seq<Target>, policy: Policy, preferred: Option<Target>) {
    exists t | t in es :: OverflowsAt(es, policy, preferred, t.priority)
  }

  /** A block of the sorted slice is its tier. */
  lemma TierIsBlock(sorted: seq<Target>, lo: nat, hi: nat)
    requires lo < hi <= |sorted| && forall k | lo <= k < hi :: sorted[k].priority == sorted[lo].priority
    requires forall k | 0 <= k < lo :: sorted[k].priority < sorted[lo].priority
    requires forall k | hi <= k < |sorted| :: sorted[k].priority > sorted[lo].priority
    ensures Tier(sorted, sorted[lo].priority) == sorted[lo..hi]
  {
    hide Tier;
    assert sorted == sorted[..lo] + sorted[lo..hi] + sorted[hi..];
    MiddleTier(sorted[..lo], sorted[lo..hi], sorted[hi..], sorted[lo].priority);
  }

  lemma MiddleTier(xs: seq<Target>, ys: seq<Target>, zs: seq<Target>, p: int)
    requires forall k | 0 <= k < |xs| :: xs[k].priority != p
    requires forall k | 0 <= k < |ys| :: ys[k].priority == p
    requires forall k | 0 <= k < |zs| :: zs[k].priority != p
    ensures Tier(xs + ys + zs, p) == ys
  {
    hide Tier;
    TierJoin(xs + ys, zs, p);
    TierJoin(xs, ys, p);
    TierNone(xs, p);
    TierWhole(ys, p);
    TierNone(zs, p);
  }

  lemma TierOverflowsAt(sorted: seq<Target>, lo: nat, hi: nat, policy: Policy, preferred: Option<Target>)
    requires lo < hi <= |sorted| && AllPriority(sorted[lo..hi], sorted[lo].priority) && Ascending(sorted)
    requires forall k | 0 <= k < lo :: sorted[k].priority < sorted[lo].priority
    requires forall k | hi <= k < |sorted| :: sorted[k].priority > sorted[lo].priority
    requires policy.fallback || lo == 0
    ensures sorted[lo] in sorted
    ensures OverflowsAt(sorted, policy, preferred, sorted[lo].priority)
            <==> TierOverflows(sorted[lo..hi], policy, preferred, lo == 0)
    ensures forall k | lo <= k < hi :: sorted[k].priority == sorted[lo].priority
  {
    hide TierOverflows, Tier;
    forall k | lo <= k < hi ensures sorted[k].priority
        == sorted[lo].priority { assert sorted[lo..hi][k - lo] in sorted[lo..hi]; }
    TierIsBlock(sorted, lo, hi);
    assert TopPriority(sorted, sorted[lo].priority) <==> lo == 0 by {
      if lo > 0 { assert sorted[0] in sorted; }
    }
  }

  lemma TierFails(sorted: seq<Target>, k: nat, policy: Policy, preferred: Option<Target>)
    requires k < |sorted| && OverflowsAt(sorted, policy, preferred, sorted[k].priority)
    ensures SomeTierOverflows(sorted, policy, preferred)
  {
    hide OverflowsAt;
    assert sorted[k] in sorted;
  }

  lemma NoTierFails(sorted: seq<Target>, policy: Policy, preferred: Option<Target>)
    requires forall k | 0 <= k < |sorted| :: !OverflowsAt(sorted, policy, preferred, sorted[k].priority)
    ensures !SomeTierOverflows(sorted, policy, preferred)
  {
    hide OverflowsAt;
  }

  /** Without fallback only the top tier can fail. */
  lemma OnlyTopDrawn(sorted: seq<Target>, policy: Policy, preferred: Option<Target>)
    requires sorted != [] && Ascending(sorted) && !policy.fallback
             && !OverflowsAt(sorted, policy, preferred, sorted[0].priority)
    ensures !SomeTierOverflows(sorted, policy, preferred)
  {
    hide TierOverflows;
    forall t | t in sorted ensures !OverflowsAt(sorted, policy, preferred, t.priority) {
      assert sorted[0] in sorted;
      var k :| 0 <= k < |sorted| && sorted[k] == t;
      assert sorted[0].priority <= t.priority;
      if TopPriority(sorted, t.priority) { assert t.priority <= sorted[0].priority; }
    }
  }

  /** The tiers before a position have been ordered, and what is ordered leads the rest. */
  ghost predicate Ordering(sorted: seq<Target>, lo: nat, policy: Policy, preferred: Option<Target>,
                           ordered: seq<Target>)
  {
    && lo <= |sorted| && multiset(ordered) + multiset(sorted[lo..]) == multiset(sorted)
    && (lo < |sorted| ==> Leads(ordered, sorted[lo].priority))
    && (if lo == 0 then ordered == []
        else ordered != [] && First(sorted, policy, preferred, ordered[0]) && Ascending(ordered))
  }

  /** The bounds of one tier of the sorted slice. */
  ghost predicate Block(sorted: seq<Target>, lo: nat, hi: nat) {
    && lo < hi <= |sorted| && (forall k | lo <= k < hi :: sorted[k].priority == sorted[lo].priority)
    && (forall k | 0 <= k < lo :: sorted[k].priority < sorted[lo].priority)
    && (forall k | hi <= k < |sorted| :: sorted[k].priority > sorted[lo].priority)
  }

  lemma NextOrdering(sorted: seq<Target>, lo: nat, hi: nat, policy: Policy, preferred: Option<Target>,
                     ordered: seq<Target>, drawn: seq<Target>)
    requires Ascending(sorted) && Block(sorted, lo, hi) && Ordering(sorted, lo, policy, preferred, ordered)
    requires drawn != [] && ordered <= drawn && Leads(drawn, sorted[lo].priority)
    requires ordered == [] ==> drawn[0] in sorted[lo..hi] && Honoured(policy, preferred, sorted[lo..hi], drawn[0])
    ensures First(sorted, policy, preferred, drawn[0])
    ensures multiset(drawn) == multiset(ordered) + multiset(sorted[lo..hi])
            ==> Ordering(sorted, hi, policy, preferred, drawn)
  {
    hide Leads, Honoured, First;
    if lo == 0 {
      assert sorted[0..hi] == sorted[..hi];
      FirstOfTier(sorted, hi, policy, preferred, drawn[0]);
    }
    RestSplits(sorted, lo, hi);
    LeadsAscends(drawn, sorted[lo].priority);
    if hi < |sorted| { LeadsNext(drawn, sorted[lo].priority, sorted[hi].priority); }
  }

  lemma StartsOrdering(sorted: seq<Target>, policy: Policy, preferred: Option<Target>)
    ensures Ordering(sorted, 0, policy, preferred, [])
  {
    assert sorted[0..] == sorted;
  }

  lemma EndsOrdering(sorted: seq<Target>, policy: Policy, preferred: Option<Target>, ordered: seq<Target>)
    requires sorted != [] && policy.fallback && Ordering(sorted, |sorted|, policy, preferred, ordered)
    ensures Routed(sorted, policy, preferred, ordered)
  {
    hide First;
    assert sorted[|sorted|..] == [];
  }

  lemma OrderingLeads(sorted: seq<Target>, lo: nat, policy: Policy, preferred: Option<Target>, ordered: seq<Target>)
    requires lo < |sorted| && Ordering(sorted, lo, policy, preferred, ordered)
    ensures Leads(ordered, sorted[lo].priority) && (ordered == [] <==> lo == 0)
  {
  }

  /** Finds and orders the next tier; the later ones stay as they were. */
  method OrderNext(a: array<Target>, ghost sorted: seq<Target>, lo: nat, policy: Policy, preferred: Option<Target>,
                   ordered: seq<Target>)
    returns (r: Outcome<seq<Target>>, hi: nat)
    requires lo < a.Length == |sorted| && Ascending(sorted) && Weighted(sorted)
    requires forall k | lo <= k < a.Length :: a[k] == sorted[k]
    requires forall k | 0 <= k < lo :: sorted[k].priority < sorted[lo].priority
    requires Ordering(sorted, lo, policy, preferred, ordered) && (policy.fallback || lo == 0)
    modifies a
    ensures Block(sorted, lo, hi) && forall k | hi <= k < a.Length :: a[k] == sorted[k]
    ensures r.Fail? <==> OverflowsAt(sorted, policy, preferred, sorted[lo].priority)
    ensures r.Fail? ==> r.error == WeightOverflow
    ensures r.Ok? ==> r.value != [] && First(sorted, policy, preferred, r.value[0])
    ensures r.Ok? && policy.fallback ==> Ordering(sorted, hi, policy, preferred, r.value)
    ensures r.Ok? && !policy.fallback ==> |r.value| == 1
  {
    hide Weighted, Leads, Honoured, First, TierOverflows, OverflowsAt, Ordering;
    ghost var p := sorted[lo].priority;
    assert a[lo..] == sorted[lo..];
    hi := TierEnd(a, lo);
    assert a[lo..hi] == sorted[lo..hi];
    PartIsWeighted(sorted, lo, hi);
    OrderingLeads(sorted, lo, policy, preferred, ordered);
    TierOverflowsAt(sorted, lo, hi, policy, preferred);
    var priority := a[lo].priority;
    r := OrderTier(a, lo, hi, ordered, priority, policy, preferred);
    if r.Ok? {
      NextOrdering(sorted, lo, hi, policy, preferred, ordered, r.value);
    }
  }

  /** Goes through the tiers of the sorted slice; a tier that has been drawn leaves the later ones as they were. */
  method OrderTiers(a: array<Target>, policy: Policy, preferred: Option<Target>) returns (r: Outcome<seq<Target>>)
    requires a.Length > 0 && Ascending(a[..]) && Weighted(a[..])
    modifies a
    ensures r.Ok? ==> Routed(old(a[..]), policy, preferred, r.value)
    ensures r.Fail? <==> SomeTierOverflows(old(a[..]), policy, preferred)
    ensures r.Fail? ==> r.error == WeightOverflow
  {
    hide Weighted, First, OverflowsAt, SomeTierOverflows, Ordering;
    ghost var sorted := a[..];
    var ordered: seq<Target> := [];
    var lo := 0;
    StartsOrdering(sorted, policy, preferred);
    while lo < a.Length
      invariant 0 <= lo <= a.Length == |sorted| && (forall k | lo <= k < a.Length :: a[k] == sorted[k])
      invariant (policy.fallback || lo == 0) && Ordering(sorted, lo, policy, preferred, ordered)
      invariant forall k | 0 <= k < lo :: !OverflowsAt(sorted, policy, preferred, sorted[k].priority)
      invariant forall k | 0 <= k < lo && lo < |sorted| :: sorted[k].priority < sorted[lo].priority
      decreases a.Length - lo
    {
      var drawn, hi := OrderNext(a, sorted, lo, policy, preferred, ordered);
      if drawn.Fail? {
        TierFails(sorted, lo, policy, preferred);
        return drawn;
      }
      if !policy.fallback {
        OnlyTopDrawn(sorted, policy, preferred);
        return Ok(drawn.value[..1]);
      }
      ordered, lo := drawn.value, hi;
    }
    EndsOrdering(sorted, policy, preferred, ordered);
    NoTierFails(sorted, policy, preferred);
    return Ok(ordered);
  }

  method CollectEligible(targets: seq<Target>, allowed: Target -> bool, healthy: Target -> bool)
    returns (r: Outcome<seq<Target>>)
    ensures r == Eligible(targets, allowed, healthy)
  {
    var eligible := [];
    for i := 0 to |targets|
      invariant Eligible(targets[..i], allowed, healthy) == Ok(eligible)
    {
      assert targets[..i + 1][..i] == targets[..i];
      var t := targets[i];
      if allowed(t) {
        if t.priority < 0 || t.weight <= 0 {
          FailurePersists(targets, i + 1, allowed, healthy);
          return Fail(InvalidTarget);
        }
        if healthy(t) { eligible := eligible + [t]; }
      }
    }
    assert targets[..|targets|] == targets;
    return Ok(eligible);
  }

  lemma {:induction false} FailurePersists(targets: seq<Target>, n: nat, allowed: Target -> bool,
                                           healthy: Target -> bool)
    requires n <= |targets| && Eligible(targets[..n], allowed, healthy).Fail?
    ensures Eligible(targets, allowed, healthy) == Eligible(targets[..n], allowed, healthy)
    decreases |targets|
  {
    if n < |targets| {
      var m := |targets| - 1;
      assert targets[..m][..n] == targets[..n];
      FailurePersists(targets[..m], n, allowed, healthy);
    } else {
      assert targets[..n] == targets;
    }
  }

  lemma {:induction false} EligibleIsWeighted(targets: seq<Target>, allowed: Target -> bool, healthy: Target -> bool)
    requires Eligible(targets, allowed, healthy).Ok?
    ensures Weighted(Eligible(targets, allowed, healthy).value)
    ensures forall t :: t in Eligible(targets, allowed, healthy).value <==> t in targets && allowed(t) && healthy(t)
  {
    if targets != [] {
      EligibleIsWeighted(targets[..|targets| - 1], allowed, healthy);
      assert targets == targets[..|targets| - 1] + [targets[|targets| - 1]];
    }
  }

  /**
   With fallback, a permutation of the eligible targets in non-decreasing
   priority; without, one target of the top tier. An affinity hint only puts a
   target of the top tier first. The only failures are an invalid declaration, no
   eligible target, or a tier that is drawn from and whose weights leave int64
   once the hinted target is taken out.
   */
  method Order(targets: seq<Target>, allowed: Target -> bool, healthy: Target -> bool, policy: Policy,
               preferred: Option<Target>)
    returns (r: Outcome<seq<Target>>)
    ensures match Eligible(targets, allowed, healthy)
            case Fail(e) => r == Fail(e)
            case Ok(es) =>
              if es == [] then r == Fail(NoTarget)
              else if SomeTierOverflows(es, policy, preferred) then r == Fail(WeightOverflow)
              else r.Ok? && Routed(es, policy, preferred, r.value)
  {
    hide First, Total, Weighted, SomeTierOverflows;
    var eligible := CollectEligible(targets, allowed, healthy);
    if eligible.Fail? { return Fail(eligible.error); }
    var es := eligible.value;
    if es == [] { return Fail(NoTarget); }
    EligibleIsWeighted(targets, allowed, healthy);
    SortAscends(es);
    var sorted := SortStable(es);
    SameTotals(es, sorted);
    assert |sorted| == |multiset(sorted)| == |multiset(es)| == |es|;
    var a := new Target[|sorted|](i requires 0 <= i < |sorted| => sorted[i]);
    assert a[..] == sorted;
    SortedOverflows(es, policy, preferred);
    r := OrderTiers(a, policy, preferred);
    if r.Ok? {
      FirstOfSame(es, sorted, policy, preferred, r.value[0]);
    }
  }

  lemma SortedOverflows(es: seq<Target>, policy: Policy, preferred: Option<Target>)
    ensures SomeTierOverflows(SortStable(es), policy, preferred) <==> SomeTierOverflows(es, policy, preferred)
  {
    hide TierOverflows;
    var sorted := SortStable(es);
    forall t ensures t in sorted <==> t in es { assert t in multiset(sorted) <==> t in multiset(es); }
    forall t: Target ensures OverflowsAt(sorted, policy, preferred, t.priority)
        <==> OverflowsAt(es, policy, preferred, t.priority) {
      SortKeepsTier(es, t.priority);
      assert TopPriority(sorted, t.priority) <==> TopPriority(es, t.priority);
    }
  }

  lemma SameTotals(es: seq<Target>, sorted: seq<Target>)
    requires multiset(es) == multiset(sorted) && Weighted(es)
    ensures Weighted(sorted) && Total(sorted) == Total(es)
  {
    forall t | t in sorted ensures t.weight > 0 { assert t in multiset(es); }
    TotalOfPart(es, sorted);
    TotalOfPart(sorted, es);
  }
}
