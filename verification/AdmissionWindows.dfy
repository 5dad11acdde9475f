/**
 Windows that roll forward: when two policy rows name the same counter, and so
 when a fresh attempt is counted once on each of its counters.
 */
module AdmissionWindows {
  import opened Basics
  import opened AdmissionModel
  import opened AdmissionInvariant
  import opened AdmissionSafety

  /**
   What the calendar guarantees: the current window contains the time, and its own
   id is current, with the same bounds.
   */
  ghost predicate Calendar(clock: Clock) {
    forall w | w in clock.current ::
      var c := clock.current[w];
      c.window.starts <= clock.now < c.window.ends && c.id in clock.current && clock.current[c.id] == c
  }

  /** The window that a policy row counts on: its own while active, else the current one of its kind. */
  function ResolvedWindow(windows: map<WindowKey, Window>, tenant: string, clock: Clock, w: string): (r: Option<string>)
  {
    if WindowActive(windows, tenant, w, clock) then Some(w)
    else if w in clock.current then Some(clock.current[w].id)
    else None
  }

  /** A policy row that yields an entry of the plan. */
  predicate Counts(limits: map<Key, Limit>, windows: map<WindowKey, Window>, p: Plan, clock: Clock, k: Key) {
    && k in limits && k.tenant == p.tenant && ScopeMatches(k, p) && limits[k].maximum > 0
    && ResolvedWindow(windows, p.tenant, clock, k.window).Some?
  }

  /** The counter that a policy row counts on. */
  function TargetOf(windows: map<WindowKey, Window>, p: Plan, clock: Clock, k: Key): (t: Key) {
    match ResolvedWindow(windows, p.tenant, clock, k.window)
    case None => k
    case Some(w) => k.(window := w)
  }

  /** Two policy rows of the same scope and kind that count on the same window. */
  predicate Collide(limits: map<Key, Limit>, windows: map<WindowKey, Window>, p: Plan, clock: Clock, a: Key, b: Key) {
    && a != b && Counts(limits, windows, p, clock, a) && Counts(limits, windows, p, clock, b)
    && a.scopeKind == b.scopeKind && a.scopeId == b.scopeId && a.kind == b.kind
    && ResolvedWindow(windows, p.tenant, clock, a.window) == ResolvedWindow(windows, p.tenant, clock, b.window)
  }

  /** The counters of the entries that a scan yields, in order. */
  function Targets(limits: map<Key, Limit>, windows: map<WindowKey, Window>, p: Plan, clock: Clock, scan: seq<Key>)
    : (ts: seq<Key>)
  {
    if scan == [] then []
    else
      (if Counts(limits, windows, p, clock, scan[0]) then [TargetOf(windows, p, clock, scan[0])] else [])
      + Targets(limits, windows, p, clock, scan[1..])
  }

  function KeysOf(tenant: string, entries: seq<Allowance>): (ks: seq<Key>)
    ensures |ks| == |entries| && forall i | 0 <= i < |ks| :: ks[i] == KeyOf(tenant, entries[i])
  {
    seq(|entries|, i requires 0 <= i < |entries| => KeyOf(tenant, entries[i]))
  }

  /** Resolution does not depend on the windows that the scan itself has brought up to date. */
  ghost predicate SameResolution(tenant: string, clock: Clock, before: map<WindowKey, Window>,
                                 after: map<WindowKey, Window>)
  {
    forall w :: ResolvedWindow(after, tenant, clock, w) == ResolvedWindow(before, tenant, clock, w)
  }

  lemma RollKeepsResolution(s: State, clock: Clock, k: Key, limit: Limit)
    requires Calendar(clock) && k.window in clock.current
    ensures SameResolution(k.tenant, clock, s.windows, RollForward(s, k, limit, clock.current[k.window]).windows)
  {
  }

  lemma RowTarget(s: State, p: Plan, clock: Clock, k: Key, limits: map<Key, Limit>)
    requires Calendar(clock) && k in limits && k.tenant == p.tenant && ResolveRow(s, p, clock, k, limits[k]).Ok?
    ensures var r := ResolveRow(s, p, clock, k, limits[k]).value;
            && SameResolution(p.tenant, clock, s.windows, r.state.windows)
            && KeysOf(p.tenant, r.allowances) == Targets(limits, s.windows, p, clock, [k])
  {
    hide Required;
    assert [k][1..] == [];
    if !WindowActive(s.windows, p.tenant, k.window, clock) && k.window in clock.current {
      RollKeepsResolution(s, clock, k, limits[k]);
    }
  }

  lemma {:induction false} TargetsKept(limits: map<Key, Limit>, p: Plan, clock: Clock, scan: seq<Key>,
                                       before: map<WindowKey, Window>, after: map<WindowKey, Window>)
    requires SameResolution(p.tenant, clock, before, after)
    ensures Targets(limits, after, p, clock, scan) == Targets(limits, before, p, clock, scan)
    decreases |scan|
  {
    if scan != [] {
      TargetsKept(limits, p, clock, scan[1..], before, after);
    }
  }

  /** The entries of a resolved plan are those of the rows that count, in the order of the scan. */
  lemma {:induction false} ResolvedTargets(limits: map<Key, Limit>, p: Plan, clock: Clock, scan: seq<Key>, s: State,
                                           found: seq<Allowance>)
    requires Calendar(clock) && ResolveFrom(limits, p, clock, scan, s, found).Ok?
    ensures KeysOf(p.tenant, ResolveFrom(limits, p, clock, scan, s, found).value.allowances)
         == KeysOf(p.tenant, found) + Targets(limits, s.windows, p, clock, scan)
    decreases |scan|
  {
    if scan != [] {
      var k := scan[0];
      if k !in limits || k.tenant != p.tenant {
        ResolvedTargets(limits, p, clock, scan[1..], s, found);
        assert Targets(limits, s.windows, p, clock, scan) == Targets(limits, s.windows, p, clock, scan[1..]);
      } else {
        var one := ResolveRow(s, p, clock, k, limits[k]).value;
        RowTarget(s, p, clock, k, limits);
        hide ResolveRow, Counts, SameResolution, ResolvedWindow;
        ResolvedTargets(limits, p, clock, scan[1..], one.state, found + one.allowances);
        TargetsKept(limits, p, clock, scan[1..], s.windows, one.state.windows);
        TargetsJoin(limits, s.windows, p, clock, scan);
        assert KeysOf(p.tenant, found + one.allowances) == KeysOf(p.tenant, found) + KeysOf(p.tenant, one.allowances);
      }
    }
  }

  lemma TargetsJoin(limits: map<Key, Limit>, windows: map<WindowKey, Window>, p: Plan, clock: Clock, scan: seq<Key>)
    requires scan != []
    ensures Targets(limits, windows, p, clock, scan)
         == Targets(limits, windows, p, clock, [scan[0]]) + Targets(limits, windows, p, clock, scan[1..])
  {
    assert [scan[0]][1..] == [];
  }

  // ------------------------------------------------ rows that share a counter

  predicate Distinct(ks: seq<Key>) { forall i, j | 0 <= i < j < |ks| :: ks[i] != ks[j] }

  /** A policy row that counts on counter `t`. */
  predicate CountsOn(limits: map<Key, Limit>, windows: map<WindowKey, Window>, p: Plan, clock: Clock, k: Key, t: Key) {
    Counts(limits, windows, p, clock, k) && TargetOf(windows, p, clock, k) == t
  }

  /** The scanned rows that count on counter `t`. */
  function RowsOn(limits: map<Key, Limit>, windows: map<WindowKey, Window>, p: Plan, clock: Clock, scan: seq<Key>,
                  t: Key): set<Key>
  {
    set k | k in scan && CountsOn(limits, windows, p, clock, k, t)
  }

  /** How often an element occurs. */
  function Occurrences<T(==)>(ks: seq<T>, t: T): nat {
    if ks == [] then 0
    else var n := |ks| - 1; Occurrences(ks[..n], t) + (if ks[n] == t then 1 else 0)
  }

  lemma {:induction false} OccurrencesJoin<T>(a: seq<T>, b: seq<T>, t: T)
    ensures Occurrences(a + b, t) == Occurrences(a, t) + Occurrences(b, t)
    decreases |b|
  {
    if b == [] {
      assert a + b == a;
    } else {
      var n := |b| - 1;
      OccurrencesJoin(a, b[..n], t);
      assert (a + b)[..|a| + n] == a + b[..n];
    }
  }

  lemma {:induction false} Occurs<T>(ks: seq<T>, t: T)
    ensures Occurrences(ks, t) > 0 <==> t in ks
  {
    if ks != [] {
      Occurs(ks[..|ks| - 1], t);
      assert ks == ks[..|ks| - 1] + [ks[|ks| - 1]];
    }
  }

  lemma {:induction false} OccursTwice<T>(ks: seq<T>, t: T)
    ensures Occurrences(ks, t) > 1 <==> exists i, j :: 0 <= i < j < |ks| && ks[i] == t && ks[j] == t
  {
    if ks != [] {
      var n := |ks| - 1;
      OccursTwice(ks[..n], t);
      Occurs(ks[..n], t);
      if Occurrences(ks[..n], t) > 0 {
        var i :| 0 <= i < n && ks[..n][i] == t;
        assert ks[i] == t;
      }
      if Occurrences(ks[..n], t) > 1 {
        var i, j :| 0 <= i < j < n && ks[..n][i] == t && ks[..n][j] == t;
        assert ks[i] == t && ks[j] == t;
      }
      if i, j :| 0 <= i < j < |ks| && ks[i] == t && ks[j] == t {
        assert ks[..n][i] == t;
        if j < n { assert ks[..n][j] == t; }
      }
    }
  }

  lemma NoRows(limits: map<Key, Limit>, windows: map<WindowKey, Window>, p: Plan, clock: Clock, t: Key)
    ensures Occurrences(Targets(limits, windows, p, clock, []), t) == |RowsOn(limits, windows, p, clock, [], t)| == 0
  {
    assert RowsOn(limits, windows, p, clock, [], t) == {};
  }

  lemma RowsJoin(limits: map<Key, Limit>, windows: map<WindowKey, Window>, p: Plan, clock: Clock, k: Key,
                 rest: seq<Key>, t: Key)
    requires k !in rest
    ensures |RowsOn(limits, windows, p, clock, [k] + rest, t)|
         == Occurrences(Targets(limits, windows, p, clock, [k]), t) + |RowsOn(limits, windows, p, clock, rest, t)|
  {
    hide Counts, TargetOf;
    var rows := RowsOn(limits, windows, p, clock, rest, t);
    assert [k][1..] == [];
    assert RowsOn(limits, windows, p, clock, [k] + rest, t)
        == if CountsOn(limits, windows, p, clock, k, t) then {k} + rows else rows;
  }

  /** Each counter has as many entries as there are scanned rows that count on it. */
  lemma {:induction false} EntriesAreRows(limits: map<Key, Limit>, windows: map<WindowKey, Window>, p: Plan,
                                          clock: Clock, scan: seq<Key>, t: Key)
    requires Distinct(scan)
    ensures Occurrences(Targets(limits, windows, p, clock, scan), t) == |RowsOn(limits, windows, p, clock, scan, t)|
    decreases |scan|
  {
    hide Counts, TargetOf, CountsOn, RowsOn, Targets, Occurrences;
    if scan == [] {
      NoRows(limits, windows, p, clock, t);
    } else {
      var k, rest := scan[0], scan[1..];
      assert scan == [k] + rest;
      EntriesAreRows(limits, windows, p, clock, rest, t);
      TargetsJoin(limits, windows, p, clock, scan);
      OccurrencesJoin(Targets(limits, windows, p, clock, [k]), Targets(limits, windows, p, clock, rest), t);
      RowsJoin(limits, windows, p, clock, k, rest, t);
    }
  }

  /** A counter is shared exactly when two scanned rows collide on it. */
  lemma SharedCounter(limits: map<Key, Limit>, windows: map<WindowKey, Window>, p: Plan, clock: Clock, scan: seq<Key>,
                      t: Key)
    ensures |RowsOn(limits, windows, p, clock, scan, t)| > 1
       <==> exists a, b | a in scan && b in scan ::
              Collide(limits, windows, p, clock, a, b) && TargetOf(windows, p, clock, a) == t
  {
    var rows := RowsOn(limits, windows, p, clock, scan, t);
    if |rows| > 1 {
      var a :| a in rows;
      assert |rows - {a}| == |rows| - 1;
      var b :| b in rows - {a};
      assert Collide(limits, windows, p, clock, a, b);
    }
    if a, b :|
      a in scan && b in scan && Collide(limits, windows, p, clock, a, b) && TargetOf(windows, p, clock, a) == t
    {
      assert {a, b} <= rows;
      assert |rows| == |{a, b}| + |rows - {a, b}|;
    }
  }

  /** Colliding rows cannot both be on their own window: a stale one has rolled onto the other's. */
  lemma CollisionIsStale(limits: map<Key, Limit>, windows: map<WindowKey, Window>, p: Plan, clock: Clock, a: Key,
                         b: Key)
    requires Collide(limits, windows, p, clock, a, b)
    ensures !WindowActive(windows, p.tenant, a.window, clock) || !WindowActive(windows, p.tenant, b.window, clock)
  {
  }

  /** Two entries of a plan name the same counter exactly when two scanned rows collide. */
  lemma EntriesRepeatExactly(s: State, p: Plan, clock: Clock, scan: seq<Key>, approved: bool)
    requires Calendar(clock) && Distinct(scan) && Derive(s, p, clock, scan, approved).Ok?
    ensures Distinct(KeysOf(p.tenant, Derive(s, p, clock, scan, approved).value.allowances))
       <==> !exists a, b | a in scan && b in scan :: Collide(s.limits, s.windows, p, clock, a, b)
  {
    hide Calendar, CheckPlan, Collide, Targets, Derive, RowsOn, Counts, TargetOf;
    DerivedTargets(s, p, clock, scan, approved);
    var ks := Targets(s.limits, s.windows, p, clock, scan);
    if i, j :| 0 <= i < j < |ks| && ks[i] == ks[j] {
      OccursTwice(ks, ks[i]);
      EntriesAreRows(s.limits, s.windows, p, clock, scan, ks[i]);
      SharedCounter(s.limits, s.windows, p, clock, scan, ks[i]);
    }
    if a, b :| a in scan && b in scan && Collide(s.limits, s.windows, p, clock, a, b) {
      var t := TargetOf(s.windows, p, clock, a);
      OccursTwice(ks, t);
      EntriesAreRows(s.limits, s.windows, p, clock, scan, t);
      SharedCounter(s.limits, s.windows, p, clock, scan, t);
    }
  }

  lemma DerivedTargets(s: State, p: Plan, clock: Clock, scan: seq<Key>, approved: bool)
    requires Calendar(clock) && Derive(s, p, clock, scan, approved).Ok?
    ensures KeysOf(p.tenant, Derive(s, p, clock, scan, approved).value.allowances)
            == Targets(s.limits, s.windows, p, clock, scan)
  {
    hide Calendar, CheckPlan;
    ResolvedTargets(s.limits, p, clock, scan, s, []);
    assert KeysOf(p.tenant, []) + Targets(s.limits, s.windows, p, clock, scan)
           == Targets(s.limits, s.windows, p, clock, scan);
  }

  // --------------------------------------------------------------- counted once

  /** What one entry of a kind adds to its counter for a new attempt. */
  function Ration(p: Plan, seen: bool, kind: Kind): int {
    if (seen && kind == RequestKind) || Required(p, kind).Fail? then 0 else Required(p, kind).value
  }

  lemma {:induction false} HeldIsCount(tenant: string, entries: seq<Allowance>, held: seq<int>, t: Key, ration: int)
    requires |held| <= |entries| && forall i | 0 <= i < |held| && KeyOf(tenant, entries[i]) == t :: held[i] == ration
    ensures HeldOn(tenant, entries, held, t) == Occurrences(KeysOf(tenant, entries)[..|held|], t) * ration
    decreases |held|
  {
    if held != [] {
      var ks, n := KeysOf(tenant, entries), |held| - 1;
      HeldIsCount(tenant, entries, held[..n], t, ration);
      assert ks[..|held|][..n] == ks[..n];
    }
  }

  /** The entries and holds that an admission records, against the state before it. */
  lemma AdmittedShares(s: State, p: Plan, clock: Clock, scan: seq<Key>, approved: bool)
    requires AttemptId(p.tenant, p.attempt) !in s.attempts && Begin(s, p, clock, scan, approved).1.Ok?
    ensures var s' := Begin(s, p, clock, scan, approved).0;
            var id := AttemptId(p.tenant, p.attempt);
            var seen := SeenRequest(s.attempts, p.tenant, p.request);
            && Derive(s, p, clock, scan, approved).Ok? && id in s'.attempts
            && var env := s'.attempts[id].env;
               var entries := Derive(s, p, clock, scan, approved).value.allowances;
               && env.plan == p.(allowances := entries) && |env.held| == |entries|
               && (forall i | 0 <= i < |entries| :: env.held[i] == Ration(p, seen, entries[i].kind))
               && (forall k ::
                     Reserved(s'.allowances, k)
                     == Reserved(s.allowances, k) + HeldOn(p.tenant, entries, env.held, k))
  {
    hide CheckPlan, ResolveRow, ReserveOne, SeenRequest;
    var d := Derive(s, p, clock, scan, approved).value;
    var plan := p.(allowances := d.allowances);
    var seen := SeenRequest(s.attempts, p.tenant, p.request);
    ResolveKeepsAccounting(s.limits, p, clock, scan, s, []);
    ResolvedReserves(s.limits, p, clock, scan, s, []);
    ReserveKeepsSlack(d.state, plan, clock.now, seen, Holds(d.state.allowances, []));
    ReserveEntries(d.state, plan, clock.now, seen, Holds(d.state.allowances, []));
    var held := Begin(s, p, clock, scan, approved).0.attempts[AttemptId(p.tenant, p.attempt)].env.held;
    forall i | 0 <= i < |d.allowances| ensures held[i] == Ration(p, seen, d.allowances[i].kind) {
      assert d.allowances[i] in d.allowances && EntryReserved(plan, seen, plan.allowances[i], held[i]);
    }
  }

  /**
   What a new attempt adds to every counter: the amount of its kind, once for each
   scanned row that counts on it.
   */
  lemma CountedPerRow(s: State, p: Plan, clock: Clock, scan: seq<Key>, approved: bool, k: Key)
    requires Calendar(clock) && Distinct(scan)
    requires AttemptId(p.tenant, p.attempt) !in s.attempts && Begin(s, p, clock, scan, approved).1.Ok?
    ensures Reserved(Begin(s, p, clock, scan, approved).0.allowances, k)
         == Reserved(s.allowances, k)
            + |RowsOn(s.limits, s.windows, p, clock, scan, k)|
              * Ration(p, SeenRequest(s.attempts, p.tenant, p.request), k.kind)
  {
    hide Begin, Derive, Calendar, Targets, RowsOn, Ration, SeenRequest;
    AdmittedShares(s, p, clock, scan, approved);
    DerivedTargets(s, p, clock, scan, approved);
    EntriesAreRows(s.limits, s.windows, p, clock, scan, k);
    var entries := Derive(s, p, clock, scan, approved).value.allowances;
    var held := Begin(s, p, clock, scan, approved).0.attempts[AttemptId(p.tenant, p.attempt)].env.held;
    HeldIsCount(p.tenant, entries, held, k, Ration(p, SeenRequest(s.attempts, p.tenant, p.request), k.kind));
    assert KeysOf(p.tenant, entries)[..|held|] == KeysOf(p.tenant, entries);
  }

  /** The new attempt adds to each of its counters the amount of one entry only. */
  ghost predicate CountedOnce(s: State, s': State, id: AttemptId) {
    && id in s'.attempts
    && var env := s'.attempts[id].env;
       forall i | 0 <= i < |env.plan.allowances| && i < |env.held| ::
         EntryCounted(s, s', KeyOf(id.tenant, env.plan.allowances[i]), env.held[i])
  }

  ghost predicate EntryCounted(s: State, s': State, k: Key, amount: int) {
    Reserved(s'.allowances, k) == Reserved(s.allowances, k) + amount
  }

  /** Two scanned rows whose kind reserves something count on the same window. */
  ghost predicate CountsDouble(s: State, p: Plan, clock: Clock, scan: seq<Key>) {
    exists a, b | a in scan && b in scan ::
      && Collide(s.limits, s.windows, p, clock, a, b)
      && Ration(p, SeenRequest(s.attempts, p.tenant, p.request), a.kind) != 0
  }

  lemma OnceOrNothing(n: nat, r: int)
    requires n > 0
    ensures n * r == r <==> n == 1 || r == 0
  {
    if r != 0 && n > 1 { assert n * r == r + (n - 1) * r && (n - 1) * r != 0; }
  }

  /** One entry is counted once unless its counter is shared and its kind reserves something. */
  lemma EntryCountedExactly(s: State, p: Plan, clock: Clock, scan: seq<Key>, approved: bool, i: nat)
    requires Calendar(clock) && Distinct(scan)
    requires AttemptId(p.tenant, p.attempt) !in s.attempts && Begin(s, p, clock, scan, approved).1.Ok?
    requires i < |Targets(s.limits, s.windows, p, clock, scan)|
    ensures var t := Targets(s.limits, s.windows, p, clock, scan)[i];
            var r := Ration(p, SeenRequest(s.attempts, p.tenant, p.request), t.kind);
            (EntryCounted(s, Begin(s, p, clock, scan, approved).0, t, r)
             <==> |RowsOn(s.limits, s.windows, p, clock, scan, t)| == 1 || r == 0)
  {
    hide Begin, Calendar, RowsOn, Ration, SeenRequest, Counts;
    var ks := Targets(s.limits, s.windows, p, clock, scan);
    CountedPerRow(s, p, clock, scan, approved, ks[i]);
    EntriesAreRows(s.limits, s.windows, p, clock, scan, ks[i]);
    Occurs(ks, ks[i]);
    OnceOrNothing(|RowsOn(s.limits, s.windows, p, clock, scan, ks[i])|,
                  Ration(p, SeenRequest(s.attempts, p.tenant, p.request), ks[i].kind));
  }

  /**
   A new attempt adds a single entry's amount to each of its counters exactly when
   no two scanned rows whose kind reserves anything count on the same window.
   */
  lemma CountedOnceExactly(s: State, p: Plan, clock: Clock, scan: seq<Key>, approved: bool)
    requires Calendar(clock) && Distinct(scan)
    requires AttemptId(p.tenant, p.attempt) !in s.attempts && Begin(s, p, clock, scan, approved).1.Ok?
    ensures CountedOnce(s, Begin(s, p, clock, scan, approved).0, AttemptId(p.tenant, p.attempt))
       <==> !CountsDouble(s, p, clock, scan)
  {
    hide Begin, Derive, Calendar, RowsOn, Ration, SeenRequest, Collide, Counts, EntryCounted;
    AdmittedShares(s, p, clock, scan, approved);
    DerivedTargets(s, p, clock, scan, approved);
    var seen := SeenRequest(s.attempts, p.tenant, p.request);
    var ks := Targets(s.limits, s.windows, p, clock, scan);
    forall i | 0 <= i < |ks|
      ensures EntryCounted(s, Begin(s, p, clock, scan, approved).0, ks[i], Ration(p, seen, ks[i].kind))
         <==> |RowsOn(s.limits, s.windows, p, clock, scan, ks[i])| == 1 || Ration(p, seen, ks[i].kind) == 0
    {
      EntryCountedExactly(s, p, clock, scan, approved, i);
    }
    SharedByKind(s, p, clock, scan);
  }

  /** Rows collide on a kind that reserves exactly when an entry of that kind shares its counter. */
  lemma SharedByKind(s: State, p: Plan, clock: Clock, scan: seq<Key>)
    requires Distinct(scan)
    ensures CountsDouble(s, p, clock, scan)
       <==> exists i | 0 <= i < |Targets(s.limits, s.windows, p, clock, scan)| ::
              var t := Targets(s.limits, s.windows, p, clock, scan)[i];
              && |RowsOn(s.limits, s.windows, p, clock, scan, t)| != 1
              && Ration(p, SeenRequest(s.attempts, p.tenant, p.request), t.kind) != 0
  {
    hide RowsOn, Ration, SeenRequest, Counts;
    var seen := SeenRequest(s.attempts, p.tenant, p.request);
    var ks := Targets(s.limits, s.windows, p, clock, scan);
    if a, b :| a in scan && b in scan && Collide(s.limits, s.windows, p, clock, a, b) && Ration(p, seen, a.kind) != 0 {
      var t := TargetOf(s.windows, p, clock, a);
      SharedCounter(s.limits, s.windows, p, clock, scan, t);
      EntriesAreRows(s.limits, s.windows, p, clock, scan, t);
      Occurs(ks, t);
      var i :| 0 <= i < |ks| && ks[i] == t;
    }
    if i :|
      0 <= i < |ks| && |RowsOn(s.limits, s.windows, p, clock, scan, ks[i])| != 1 && Ration(p, seen, ks[i].kind) != 0
    {
      SharedCounter(s.limits, s.windows, p, clock, scan, ks[i]);
      EntriesAreRows(s.limits, s.windows, p, clock, scan, ks[i]);
      Occurs(ks, ks[i]);
    }
  }
}
