/**
 Job fencing over every interleaving of reconciler claims, administrator claims
 (two transactions each) and updates.
 */
module JobSafety {
  import opened Basics
  import opened JobStore

  /** The rows, and what each administrator has read but not yet written. */
  datatype System = System(rows: Rows, pending: map<nat, Read>)

  datatype Step =
    | DoPut(job: Job)
    | DoClaim(below: Order, owner: string, lease: int, limit: int, keys: seq<Key>, now: int, claimedAt: int)
    | DoUpdate(update: Job, owner: string, fence: int, now: int, expiry: int)
    | DoRead(admin: nat, keys: seq<Key>, tenant: string, resource: string, expected: int, subject: string, now: int)
    | DoWrite(admin: nat, now: int)

  ghost function Next(s: System, step: Step): System {
    match step
    case DoPut(job) => s.(rows := Put(s.rows, job).0)
    case DoClaim(below, owner, lease, limit, keys, now, claimedAt) =>
      s.(rows := Claim(s.rows, below, owner, lease, limit, keys, now, claimedAt).0)
    case DoUpdate(job, owner, fence, now, expiry) => s.(rows := Update(s.rows, job, owner, fence, now, expiry).0)
    case DoRead(admin, keys, tenant, resource, expected, subject, now) =>
      (match ReadForAction(s.rows, keys, tenant, resource, expected, subject, now)
       case Ok(read) => s.(pending := s.pending[admin := read])
       case Fail(_) => s)
    case DoWrite(admin, now) =>
      if admin !in s.pending then s else System(WriteAction(s.rows, s.pending[admin], now).0, s.pending - {admin})
  }

  ghost function Run(steps: seq<Step>): System {
    if steps == [] then System(map[], map[]) else Next(Run(steps[..|steps| - 1]), steps[|steps| - 1])
  }

  ghost function Before(steps: seq<Step>, n: nat): System
    requires n <= |steps|
  {
    Run(steps[..n])
  }

  lemma BeforeNext(steps: seq<Step>, n: nat)
    requires n < |steps|
    ensures Before(steps, n + 1) == Next(Before(steps, n), steps[n])
  {
    assert steps[..n + 1][..n] == steps[..n];
  }

  /** The step hands out a fence of the job: in a reconciler's answer or in an administrator's. */
  ghost predicate Grants(s: System, step: Step, k: Key, fence: int) {
    match step
    case DoClaim(below, owner, lease, limit, keys, now, claimedAt) =>
      var r := Claim(s.rows, below, owner, lease, limit, keys, now, claimedAt).1;
      r.Ok? && exists j | j in r.value :: KeyOf(j.identity) == k && j.fence == fence
    case DoWrite(admin, now) =>
      admin in s.pending && WriteAction(s.rows, s.pending[admin], now).1.Ok?
      && KeyOf(s.pending[admin].job.identity) == k && WriteAction(s.rows, s.pending[admin], now).1.value.fence == fence
    case _ => false
  }

  // ------------------------------------------------------------------------ invariant

  /** What an administrator has read is the row as it was at a version that the row has not passed back over. */
  ghost predicate Consistent(rows: Rows, r: Read) {
    var k := KeyOf(r.job.identity);
    && k in rows && r.version <= rows[k].version && r.job.identity == rows[k].job.identity
    && (r.version == rows[k].version ==> r.job == rows[k].job)
    && (r.expected > 0 ==> r.expected == r.version)
  }

  ghost predicate Sound(s: System) {
    && (forall k | k in s.rows :: KeyOf(s.rows[k].job.identity) == k)
    && (forall a | a in s.pending :: Consistent(s.rows, s.pending[a]))
  }

  /** Rows are only replaced, by a higher version of the same job. */
  ghost predicate Advances(rows: Rows, rows': Rows) {
    forall k | k in rows ::
      && k in rows' && rows'[k].job.identity == rows[k].job.identity
      && (rows'[k] == rows[k] || rows'[k].version > rows[k].version)
  }

  /** What leasing makes of the rows: those chosen carry the next fence, the others stay. */
  ghost predicate LeasedRow(rows: Rows, rows': Rows, keys: seq<Key>, k: Key) {
    && (k in rows' <==> k in rows)
    && (k in keys ==> k in rows && rows'[k].version == rows[k].version + 1
                      && rows'[k].job.identity == rows[k].job.identity
                          && rows'[k].job.fence == NextFence(rows[k].job.fence))
    && (k in rows && k !in keys ==> rows'[k] == rows[k])
  }

  lemma {:induction false} LeaseRows(scanned: Rows, keys: seq<Key>, owner: string, until: int, now: int, k: Key)
    requires LeaseAll(scanned, keys, owner, until, now).Ok?
    ensures LeasedRow(scanned, LeaseAll(scanned, keys, owner, until, now).value, keys, k)
    decreases |keys|
  {
    if keys != [] {
      var n := |keys| - 1;
      assert keys == keys[..n] + [keys[n]];
      LeaseRows(scanned, keys[..n], owner, until, now, k);
    }
  }

  lemma {:induction false} ScannedKeys(rows: Rows, keys: seq<Key>, now: int, k: Key)
    requires Scan(rows, keys, now).Ok? && k in Scan(rows, keys, now).value
    ensures k in rows && 0 <= rows[k].job.fence < MAX_INT64
    decreases |keys|
  {
    var n := |keys| - 1;
    if k in Scan(rows, keys[..n], now).value {
      ScannedKeys(rows, keys[..n], now, k);
    }
  }

  lemma ChosenKeys(earlier: Order, due: seq<Key>, limit: nat, k: Key)
    requires k in Chosen(earlier, due, limit)
    ensures k in due
  {
    assert k in multiset(SortBy(earlier, due));
  }

  /** The keys a claim leases. */
  ghost function LeasedKeys(s: System, step: Step): seq<Key>
    requires step.DoClaim?
  {
    var due := Scan(s.rows, step.keys, step.now);
    if due.Ok? && step.limit > 0 then Chosen(ServingOrder(s.rows, step.below), due.value, step.limit) else []
  }

  ghost predicate Claims(s: System, step: Step) {
    step.DoClaim? && Claim(s.rows, step.below, step.owner, step.lease, step.limit, step.keys, step.now,
        step.claimedAt).1.Ok?
  }

  lemma ClaimRows(s: System, step: Step, k: Key)
    requires Claims(s, step)
    ensures LeasedRow(s.rows, Next(s, step).rows, LeasedKeys(s, step), k)
    ensures k in LeasedKeys(s, step) ==> k in s.rows && 0 <= s.rows[k].job.fence < MAX_INT64
  {
    var due := Scan(s.rows, step.keys, step.now).value;
    var chosen := LeasedKeys(s, step);
    LeaseRows(s.rows, chosen, step.owner, step.claimedAt + step.lease, step.claimedAt, k);
    if k in chosen {
      ChosenKeys(ServingOrder(s.rows, step.below), due, step.limit, k);
      ScannedKeys(s.rows, step.keys, step.now, k);
    }
  }

  lemma NotClaimed(s: System, step: Step)
    requires step.DoClaim? && !Claims(s, step)
    ensures Next(s, step) == s
  {
  }

  lemma {:induction false} JobsAreRows(rows: Rows, keys: seq<Key>, j: Job)
    requires j in JobsOf(rows, keys)
    ensures exists k | k in keys :: k in rows && rows[k].job == j
    decreases |keys|
  {
    var n := |keys| - 1;
    assert keys == keys[..n] + [keys[n]];
    if j in JobsOf(rows, keys[..n]) {
      JobsAreRows(rows, keys[..n], j);
      var k :| k in keys[..n] && k in rows && rows[k].job == j;
      assert k in keys;
    } else {
      assert keys[n] in keys;
    }
  }

  lemma NextAdvances(s: System, step: Step)
    requires Sound(s)
    ensures Advances(s.rows, Next(s, step).rows)
  {
    hide Claim;
    forall k | k in s.rows
      ensures k in Next(s, step).rows && Next(s, step).rows[k].job.identity == s.rows[k].job.identity
      ensures Next(s, step).rows[k] == s.rows[k] || Next(s, step).rows[k].version > s.rows[k].version
    {
      if step.DoClaim? {
        if Claims(s, step) { ClaimRows(s, step, k); } else { NotClaimed(s, step); }
      }
    }
  }

  lemma NextKeysMatch(s: System, step: Step, k: Key)
    requires Sound(s) && k in Next(s, step).rows
    ensures KeyOf(Next(s, step).rows[k].job.identity) == k
  {
    hide Claim;
    if step.DoClaim? {
      if Claims(s, step) { ClaimRows(s, step, k); } else { NotClaimed(s, step); }
    }
  }

  lemma ConsistentAfter(rows: Rows, rows': Rows, r: Read)
    requires Consistent(rows, r) && Advances(rows, rows')
    ensures Consistent(rows', r)
  {
  }

  lemma NextStaysSound(s: System, step: Step)
    requires Sound(s)
    ensures Sound(Next(s, step)) && Advances(s.rows, Next(s, step).rows)
  {
    NextAdvances(s, step);
    var s' := Next(s, step);
    forall k | k in s'.rows ensures KeyOf(s'.rows[k].job.identity) == k { NextKeysMatch(s, step, k); }
    forall a | a in s'.pending ensures Consistent(s'.rows, s'.pending[a]) {
      if a in s.pending && s'.pending[a] == s.pending[a] {
        ConsistentAfter(s.rows, s'.rows, s.pending[a]);
      } else {
        FreshRead(s, step, a);
      }
    }
  }

  lemma FreshRead(s: System, step: Step, a: nat)
    requires Sound(s) && a in Next(s, step).pending && (a !in s.pending || Next(s, step).pending[a] != s.pending[a])
    ensures Consistent(Next(s, step).rows, Next(s, step).pending[a])
  {
    hide Claim;
  }

  lemma {:induction false} RunIsSound(steps: seq<Step>, n: nat)
    requires n <= |steps|
    ensures Sound(Before(steps, n))
    decreases n
  {
    if n > 0 {
      RunIsSound(steps, n - 1);
      BeforeNext(steps, n - 1);
      NextStaysSound(Before(steps, n - 1), steps[n - 1]);
    }
  }

  // ------------------------------------------------------------------------- identity

  /** A job's identity never changes and the job never disappears. */
  lemma {:induction false} IdentityIsFixed(steps: seq<Step>, start: nat, end: nat, k: Key)
    requires start <= end <= |steps| && k in Before(steps, start).rows
    ensures k in Before(steps, end).rows
            && Before(steps, end).rows[k].job.identity == Before(steps, start).rows[k].job.identity
    decreases end - start
  {
    hide Next, Before, Sound;
    if start < end {
      IdentityIsFixed(steps, start, end - 1, k);
      RunIsSound(steps, end - 1);
      BeforeNext(steps, end - 1);
      NextStaysSound(Before(steps, end - 1), steps[end - 1]);
    }
  }

  // --------------------------------------------------------------------------- fences

  /** Every administrator names the version it acts on. */
  ghost predicate Versioned(s: System) { forall a | a in s.pending :: s.pending[a].expected > 0 }

  /** No fence has reached the top of int64. */
  ghost predicate Room(s: System) { forall k | k in s.rows :: s.rows[k].job.fence < MAX_INT64 }

  /** A grant is above the job's current fence, and becomes it. */
  lemma GrantIsHigher(s: System, step: Step, k: Key, fence: int)
    requires Sound(s) && Versioned(s) && Room(s) && Grants(s, step, k, fence)
    ensures k in s.rows && s.rows[k].job.fence < fence
    ensures k in Next(s, step).rows && Next(s, step).rows[k].job.fence == fence
  {
    if step.DoClaim? {
      var chosen := LeasedKeys(s, step);
      var jobs := Claim(s.rows, step.below, step.owner, step.lease, step.limit, step.keys, step.now,
          step.claimedAt).1.value;
      var j :| j in jobs && KeyOf(j.identity) == k && j.fence == fence;
      JobsAreRows(Next(s, step).rows, chosen, j);
      var key :| key in chosen && key in Next(s, step).rows && Next(s, step).rows[key].job == j;
      ClaimRows(s, step, key);
    } else {
      assert Consistent(s.rows, s.pending[step.admin]);
    }
  }

  lemma FenceNeverDrops(s: System, step: Step, k: Key)
    requires Sound(s) && Versioned(s) && Room(s) && k in s.rows
    ensures k in Next(s, step).rows && s.rows[k].job.fence <= Next(s, step).rows[k].job.fence
  {
    hide Claim;
    if step.DoClaim? {
      if Claims(s, step) { ClaimRows(s, step, k); } else { NotClaimed(s, step); }
    } else if step.DoWrite? && step.admin in s.pending {
      assert Consistent(s.rows, s.pending[step.admin]);
    }
  }

  /** In every administrator's claim of the run the caller named a version, and no fence ran out. */
  ghost predicate Guarded(steps: seq<Step>) {
    && (forall step | step in steps && step.DoRead? :: step.expected > 0)
    && (forall n | 0 <= n <= |steps| :: Room(Before(steps, n)))
  }

  lemma {:induction false} GuardedIsVersioned(steps: seq<Step>, n: nat)
    requires Guarded(steps) && n <= |steps|
    ensures Versioned(Before(steps, n))
    decreases n
  {
    if n > 0 {
      GuardedIsVersioned(steps, n - 1);
      BeforeNext(steps, n - 1);
      assert steps[n - 1] in steps;
    }
  }

  lemma {:induction false} FencesNeverDrop(steps: seq<Step>, start: nat, end: nat, k: Key)
    requires Guarded(steps) && start <= end <= |steps| && k in Before(steps, start).rows
    ensures k in Before(steps, end).rows
            && Before(steps, start).rows[k].job.fence <= Before(steps, end).rows[k].job.fence
    decreases end - start
  {
    hide Next, Before, Sound, Versioned;
    if start < end {
      FencesNeverDrop(steps, start, end - 1, k);
      RunIsSound(steps, end - 1);
      GuardedIsVersioned(steps, end - 1);
      BeforeNext(steps, end - 1);
      FenceNeverDrops(Before(steps, end - 1), steps[end - 1], k);
    }
  }

  /** Every fence is granted once, and later grants are higher. */
  lemma FencesGrow(steps: seq<Step>, i: nat, j: nat, k: Key, first: int, second: int)
    requires Guarded(steps) && i < j < |steps|
    requires Grants(Before(steps, i), steps[i], k, first) && Grants(Before(steps, j), steps[j], k, second)
    ensures first < second
  {
    hide Next, Before, Sound, Versioned, Grants;
    RunIsSound(steps, i);
    RunIsSound(steps, j);
    GuardedIsVersioned(steps, i);
    GuardedIsVersioned(steps, j);
    GrantIsHigher(Before(steps, i), steps[i], k, first);
    BeforeNext(steps, i);
    FencesNeverDrop(steps, i + 1, j, k);
    GrantIsHigher(Before(steps, j), steps[j], k, second);
  }

  /** After a later claim no update under an earlier fence is accepted. */
  lemma EarlierClaimantIsFenced(steps: seq<Step>, i: nat, j: nat, n: nat, k: Key, first: int, second: int, update: Job,
                                owner: string, now: int, expiry: int)
    requires Guarded(steps) && i < j < n <= |steps| && KeyOf(update.identity) == k
    requires Grants(Before(steps, i), steps[i], k, first) && Grants(Before(steps, j), steps[j], k, second)
    ensures var out := Update(Before(steps, n).rows, update, owner, first, now, expiry);
            out.0 == Before(steps, n).rows && out.1.Some?
  {
    hide Next, Before, Sound, Versioned, Grants;
    FencesGrow(steps, i, j, k, first, second);
    RunIsSound(steps, j);
    GuardedIsVersioned(steps, j);
    GrantIsHigher(Before(steps, j), steps[j], k, second);
    BeforeNext(steps, j);
    FencesNeverDrop(steps, j + 1, n, k);
  }

  // ------------------------------------------------------------- the unversioned claim

  const JOB := Job(Identity("t", "c", "a", "r", "q", "o", 0, "x"), "", false, 0, 0, "", None, 0)
  const KEY := Key("t", "c", "a", "r")

  function AnyOrder(): (o: Order) { (a, b) => false }

  /** An administrator pending, a reconciler claims, and the administrator writes what it read. */
  function Overlap(expected: int): (steps: seq<Step>) {
    [DoPut(JOB), DoRead(0, [KEY], "t", "r", expected, "s", 0), DoClaim(AnyOrder(), "w", 30, 1, [KEY], 0, 0),
        DoWrite(0, 0)]
  }

  lemma OverlapFound()
    ensures Lookup(map[KEY := Row(1, JOB)], [KEY], "t", "r") == Ok(KEY)
  {
    assert [KEY][..0] == [] && [] + [KEY] == [KEY];
    assert Matching(map[KEY := Row(1, JOB)], [], "t", "r") == [];
  }

  lemma OverlapBefore(expected: int)
    requires expected <= 0
    ensures var steps := Overlap(expected);
            var held := map[0 := Read(JOB, 1, expected, "s")];
            && Before(steps, 0) == System(map[], map[])
            && Before(steps, 1) == System(map[KEY := Row(1, JOB)], map[])
            && Before(steps, 2) == System(map[KEY := Row(1, JOB)], held)
  {
    var steps := Overlap(expected);
    BeforeNext(steps, 0);
    BeforeNext(steps, 1);
    assert Before(steps, 0) == System(map[], map[]);
    OverlapFound();
    assert map[][0 := Read(JOB, 1, expected, "s")] == map[0 := Read(JOB, 1, expected, "s")];
  }

  const DUE: Rows := map[KEY := Row(1, JOB)]
  const LEASED := Granted(JOB, "w", 30, 0)
  const TAKEN: Rows := map[KEY := Row(2, LEASED)]

  lemma ScanOne(rows: Rows, k: Key, now: int)
    requires k in rows && Due(rows[k].job, now) && KeyOf(rows[k].job.identity) == k
             && 0 <= rows[k].job.fence < MAX_INT64
    ensures Scan(rows, [k], now) == Ok([k])
  {
    hide Due;
    assert [k][..0] == [] && [] + [k] == [k];
    assert Scan(rows, [], now) == Ok([]);
  }

  lemma OverlapScan()
    ensures Scan(DUE, [KEY], 0) == Ok([KEY])
  {
    hide Scan;
    assert |JOB.status| == 0;
    assert Due(JOB, 0);
    ScanOne(DUE, KEY, 0);
  }

  lemma ChosenOne(earlier: Order, k: Key)
    ensures Chosen(earlier, [k], 1) == [k]
  {
    assert [k][..0] == [] && [] + [k] == [k];
    assert SortBy(earlier, []) == [];
  }

  lemma OverlapLease()
    ensures LeaseAll(DUE, [KEY], "w", 30, 0) == Ok(TAKEN) && JobsOf(TAKEN, [KEY]) == [LEASED]
  {
    assert [KEY][..0] == [] && [] + [LEASED] == [LEASED];
    assert LeaseAll(DUE, [], "w", 30, 0) == Ok(DUE);
    assert JobsOf(TAKEN, []) == [];
    assert DUE[KEY := Row(2, LEASED)] == TAKEN;
  }

  lemma OverlapClaim()
    ensures Claim(DUE, AnyOrder(), "w", 30, 1, [KEY], 0, 0) == (TAKEN, Ok([LEASED]))
  {
    hide Chosen, ServingOrder;
    OverlapScan();
    ChosenOne(ServingOrder(DUE, AnyOrder()), KEY);
    OverlapLease();
  }

  /** Without a version to compare, the same fence is granted twice. */
  lemma OverlapRepeats(expected: int)
    requires expected <= 0
    ensures var steps := Overlap(expected);
            && Grants(Before(steps, 2), steps[2], KEY, 1) && Grants(Before(steps, 3), steps[3], KEY, 1)
            && forall n | 0 <= n <= |steps| :: Room(Before(steps, n))
  {
    hide Claim;
    var steps := Overlap(expected);
    OverlapBefore(expected);
    OverlapClaim();
    assert KeyOf(LEASED.identity) == KEY && LEASED.fence == 1 && LEASED in [LEASED];
    BeforeNext(steps, 2);
    BeforeNext(steps, 3);
    assert Before(steps, 3).rows == TAKEN;
    forall n | 0 <= n <= |steps| ensures Room(Before(steps, n)) {
      assert n == 0 || n == 1 || n == 2 || n == 3 || n == 4;
    }
  }

  /** Fences of every job strictly grow over the run. */
  ghost predicate Growing(steps: seq<Step>) {
    forall i, j, k, first, second
      | 0 <= i < j < |steps| && Grants(Before(steps, i), steps[i], k, first)
          && Grants(Before(steps, j), steps[j], k, second) ::
      first < second
  }

  /** Every administrator of the run asks for this version, and no fence ran out. */
  ghost predicate Asking(steps: seq<Step>, expected: int) {
    && (forall step | step in steps && step.DoRead? :: step.expected == expected)
    && (forall n | 0 <= n <= |steps| :: Room(Before(steps, n)))
  }

  /** Administrator claims are safe in every interleaving exactly when the caller names a version. */
  lemma SafeExactlyWhenVersioned(expected: int)
    ensures (forall steps: seq<Step> :: Asking(steps, expected) ==> Growing(steps)) <==> expected > 0
  {
    if expected > 0 {
      forall steps: seq<Step> | Asking(steps, expected) ensures Growing(steps) {
        forall i, j, k, first, second
          | 0 <= i < j < |steps| && Grants(Before(steps, i), steps[i], k, first)
              && Grants(Before(steps, j), steps[j], k, second)
          ensures first < second
        {
          assert Guarded(steps);
          FencesGrow(steps, i, j, k, first, second);
        }
      }
    } else {
      OverlapRepeats(expected);
      var steps := Overlap(expected);
      assert Asking(steps, expected);
      assert !Growing(steps);
    }
  }
}
