/**
 Durable jobs and their leases: reconcilers claim due jobs, an administrator
 claims one job in two transactions, and the holder of the current fence updates
 it. Every claim grants the next fence.
 */
module JobStore {
  import opened Basics

  /** The part of a job that never changes. */
  datatype Identity = Identity(
    tenant: string, connection: string, account: string, resource: string, request: string, operation: string,
    createdAt: int, attempt: string)

  datatype Job = Job(
    identity: Identity, status: string, settlementPending: bool, nextPoll: int, updatedAt: int,
    leaseOwner: string, leaseUntil: Option<int>, fence: Int64)

  datatype Key = Key(tenant: string, connection: string, account: string, resource: string)
  datatype Row = Row(version: int, job: Job)
  type Rows = map<Key, Row>

  datatype Error =
    | InvalidScope | InvalidLease | InvalidFence | Stale | Immutable | Conflict | NotFound | VersionConflict | Leased
  datatype Answer<+T> = Ok(value: T) | Fail(error: Error)

  function KeyOf(i: Identity): (k: Key) { Key(i.tenant, i.connection, i.account, i.resource) }

  /** The next fence; int64 addition wraps. */
  function NextFence(f: Int64): (r: Int64) { if f == MAX_INT64 then MIN_INT64 else f + 1 }

  predicate LeasedAt(j: Job, now: int) { j.leaseUntil.Some? && j.leaseUntil.value > now }

  predicate Finished(j: Job) {
    j.status == "settled" || j.status == "completed" || j.status == "failed" || j.status == "cancelled"
  }

  /** Due for a reconciler: not finished, not polled too early, not leased. */
  predicate Due(j: Job, now: int) {
    j.status != "outcome_unknown" && !(Finished(j) && !j.settlementPending) && j.nextPoll <= now && !LeasedAt(j, now)
  }

  function Granted(j: Job, owner: string, until: int, now: int): (r: Job) {
    j.(leaseOwner := owner, fence := NextFence(j.fence), leaseUntil := Some(until), updatedAt := now)
  }

  function Put(rows: Rows, j: Job): (out: (Rows, Option<Error>)) {
    if j.identity.tenant == "" || j.identity.connection == "" || j.identity.account == "" || j.identity.resource == ""
        then (rows, Some(InvalidScope))
    else if KeyOf(j.identity) in rows then (rows, Some(Conflict))
    else (rows[KeyOf(j.identity) := Row(1, j)], None)
  }

  /** A scan: the due jobs among the keys looked at; a due job with an unusable fence or identity spoils the pass. */
  function Scan(rows: Rows, keys: seq<Key>, now: int): (r: Answer<seq<Key>>) {
    if keys == [] then Ok([])
    else
      var n := |keys| - 1;
      match Scan(rows, keys[..n], now)
      case Fail(e) => Fail(e)
      case Ok(before) =>
        var k := keys[n];
        if k !in rows || !Due(rows[k].job, now) then Ok(before)
        else if KeyOf(rows[k].job.identity) != k || rows[k].job.fence < 0 || rows[k].job.fence == MAX_INT64
            then Fail(InvalidFence)
        else Ok(before + [k])
  }

  type Order = (Key, Key) -> bool

  /** Due jobs are served by polling time, then by age, then by key as the text of keys compares. */
  predicate ServedFirst(rows: Rows, below: Order, a: Key, b: Key) {
    if a !in rows || b !in rows then below(a, b)
    else if rows[a].job.nextPoll != rows[b].job.nextPoll then rows[a].job.nextPoll < rows[b].job.nextPoll
    else if rows[a].job.updatedAt != rows[b].job.updatedAt then rows[a].job.updatedAt < rows[b].job.updatedAt
    else below(a, b)
  }

  function ServingOrder(rows: Rows, below: Order): (earlier: Order) { (a, b) => ServedFirst(rows, below, a, b) }

  function InsertBy(earlier: Order, xs: seq<Key>, k: Key): (r: seq<Key>)
    ensures multiset(r) == multiset(xs) + multiset{k}
  {
    if xs == [] || !earlier(k, xs[|xs| - 1]) then xs + [k]
    else
      var n := |xs| - 1;
      assert xs == xs[..n] + [xs[n]];
      InsertBy(earlier, xs[..n], k) + [xs[n]]
  }

  function SortBy(earlier: Order, xs: seq<Key>): (r: seq<Key>)
    ensures multiset(r) == multiset(xs)
  {
    if xs == [] then []
    else
      var n := |xs| - 1;
      assert xs == xs[..n] + [xs[n]];
      InsertBy(earlier, SortBy(earlier, xs[..n]), xs[n])
  }

  /** The due jobs that one pass serves. */
  function Chosen(earlier: Order, due: seq<Key>, limit: nat): (r: seq<Key>) {
    var sorted := SortBy(earlier, due);
    if |sorted| > limit then sorted[..limit] else sorted
  }

  /** Leases the chosen jobs as they were scanned; a job already rewritten in this pass is a conflict. */
  function LeaseAll(scanned: Rows, keys: seq<Key>, owner: string, until: int, now: int): (r: Answer<Rows>) {
    if keys == [] then Ok(scanned)
    else
      var n := |keys| - 1;
      match LeaseAll(scanned, keys[..n], owner, until, now)
      case Fail(e) => Fail(e)
      case Ok(rows) =>
        var k := keys[n];
        if k !in scanned || k !in rows || rows[k].version != scanned[k].version then Fail(Conflict)
        else Ok(rows[k := Row(scanned[k].version + 1, Granted(scanned[k].job, owner, until, now))])
  }

  function JobsOf(rows: Rows, keys: seq<Key>): (jobs: seq<Job>) {
    if keys == [] then []
    else
      var n := |keys| - 1;
      JobsOf(rows, keys[..n]) + (if keys[n] in rows then [rows[keys[n]].job] else [])
  }

  /** Leases the earliest due jobs, every one of them or none. */
  function Serve(rows: Rows, below: Order, due: seq<Key>, limit: nat, owner: string, until: int, now: int)
    : (out: (Rows, Answer<seq<Job>>))
  {
    var chosen := Chosen(ServingOrder(rows, below), due, limit);
    match LeaseAll(rows, chosen, owner, until, now)
    case Fail(e) => (rows, Fail(e))
    case Ok(leased) => (leased, Ok(JobsOf(leased, chosen)))
  }

  /** A reconciler's pass: scan, then serve the due jobs. */
  function Claim(rows: Rows, below: Order, owner: string, lease: int, limit: int, keys: seq<Key>, now: int,
                 claimedAt: int)
    : (out: (Rows, Answer<seq<Job>>))
  {
    if owner == "" || lease <= 0 || limit <= 0 then (rows, Fail(InvalidLease))
    else match Scan(rows, keys, now)
      case Fail(e) => (rows, Fail(e))
      case Ok(due) => Serve(rows, below, due, limit, owner, claimedAt + lease, claimedAt)
  }

  function Update(rows: Rows, j: Job, owner: string, fence: int, now: int, expiry: int): (out: (Rows, Option<Error>)) {
    var k := KeyOf(j.identity);
    if owner == "" || fence <= 0 || j.fence != fence then (rows, Some(Stale))
    else if k !in rows then (rows, Some(NotFound))
    else
      var current := rows[k].job;
      if current.leaseOwner != owner || current.fence != fence || !LeasedAt(current, expiry) then (rows, Some(Stale))
      else if j.identity != current.identity then (rows, Some(Immutable))
      else if !(j.leaseOwner == "" && j.leaseUntil.None?)
          && (j.leaseOwner != current.leaseOwner || j.leaseUntil != current.leaseUntil)
      then (rows, Some(InvalidLease))
      else (rows[k := Row(rows[k].version + 1, j.(updatedAt := now))], None)
  }

  /** What an administrator's first transaction has read, and the version the caller asked for. */
  datatype Read = Read(job: Job, version: int, expected: int, subject: string)

  predicate Exposes(rows: Rows, tenant: string, resource: string, k: Key) {
    k in rows && k.tenant == tenant && rows[k].job.identity.resource == resource
  }

  /** The rows of a tenant that expose a resource, in the order in which they are read. */
  function Matching(rows: Rows, keys: seq<Key>, tenant: string, resource: string): (ks: seq<Key>)
    ensures forall i | 0 <= i < |ks| :: Exposes(rows, tenant, resource, ks[i])
  {
    if keys == [] then []
    else
      var n := |keys| - 1;
      Matching(rows, keys[..n], tenant, resource) + (if Exposes(rows, tenant, resource, keys[n]) then [keys[n]] else [])
  }

  /** The one job that exposes a resource; an ambiguous resource is refused. */
  function Lookup(rows: Rows, keys: seq<Key>, tenant: string, resource: string): (r: Answer<Key>)
    ensures r.Ok? ==> Exposes(rows, tenant, resource, r.value)
  {
    if tenant == "" || resource == "" then Fail(InvalidScope)
    else
      var ks := Matching(rows, keys, tenant, resource);
      if |ks| > 1 then Fail(Conflict) else if |ks| == 0 then Fail(NotFound) else Ok(ks[0])
  }

  /** An administrator's claim as its first transaction and the checks after it leave it. */
  function ReadForAction(rows: Rows, keys: seq<Key>, tenant: string, resource: string, expected: int, subject: string,
                         now: int)
    : (r: Answer<Read>)
  {
    match Lookup(rows, keys, tenant, resource)
    case Fail(e) => Fail(e)
    case Ok(k) => CheckRead(rows[k], expected, subject, now)
  }

  function CheckRead(row: Row, expected: int, subject: string, now: int): (r: Answer<Read>) {
    if expected > 0 && row.version != expected then Fail(VersionConflict)
    else if row.job.leaseOwner != "" && LeasedAt(row.job, now) then Fail(Leased)
    else Ok(Read(row.job, row.version, expected, subject))
  }

  const ADMIN := "admin:"
  const ADMIN_LEASE := 30

  /** The second transaction writes the job as the first one read it. */
  function WriteAction(rows: Rows, r: Read, now: int): (out: (Rows, Answer<Job>)) {
    var k := KeyOf(r.job.identity);
    if k !in rows then (rows, Fail(NotFound))
    else if r.expected > 0 && rows[k].version != r.expected then (rows, Fail(VersionConflict))
    else
      var j := Granted(r.job, ADMIN + r.subject, now + ADMIN_LEASE, now);
      (rows[k := Row(rows[k].version + 1, j)], Ok(j))
  }

  // --------------------------------------------------------------------------- class

  class Store {
    var rows: Rows

    constructor ()
      ensures rows == map[]
    {
      rows := map[];
    }

    method PutJob(j: Job) returns (e: Option<Error>)
      modifies `rows
      ensures (rows, e) == Put(old(rows), j)
    {
      if j.identity.tenant == "" || j.identity.connection == "" || j.identity.account == ""
          || j.identity.resource == "" {
        return Some(InvalidScope);
      }
      if KeyOf(j.identity) in rows { return Some(Conflict); }
      rows := rows[KeyOf(j.identity) := Row(1, j)];
      return None;
    }

    method ScanJobs(keys: seq<Key>, now: int) returns (r: Answer<seq<Key>>)
      ensures r == Scan(rows, keys, now)
    {
      var due := [];
      for i := 0 to |keys|
        invariant Scan(rows, keys[..i], now) == Ok(due)
      {
        assert keys[..i + 1][..i] == keys[..i];
        var k := keys[i];
        if k in rows && Due(rows[k].job, now) {
          if KeyOf(rows[k].job.identity) != k || rows[k].job.fence < 0 || rows[k].job.fence == MAX_INT64 {
            ScanFails(rows, keys, i + 1, now);
            return Fail(InvalidFence);
          }
          due := due + [k];
        }
      }
      assert keys[..|keys|] == keys;
      return Ok(due);
    }

    method ClaimJobs(below: Order, owner: string, lease: int, limit: int, keys: seq<Key>, now: int, claimedAt: int)
      returns (r: Answer<seq<Job>>)
      modifies `rows
      ensures (rows, r) == Claim(old(rows), below, owner, lease, limit, keys, now, claimedAt)
    {
      if owner == "" || lease <= 0 || limit <= 0 { return Fail(InvalidLease); }
      hide Serve;
      var due := ScanJobs(keys, now);
      if due.Fail? { return Fail(due.error); }
      r := ServeJobs(below, due.value, limit, owner, claimedAt + lease, claimedAt);
    }

    method ServeJobs(below: Order, due: seq<Key>, limit: nat, owner: string, until: int, now: int)
      returns (r: Answer<seq<Job>>)
      modifies `rows
      ensures (rows, r) == Serve(old(rows), below, due, limit, owner, until, now)
    {
      hide Chosen;
      var candidates := Choose(ServingOrder(rows, below), due, limit);
      var e := LeaseJobs(candidates, owner, until, now);
      if e.Some? { return Fail(e.value); }
      var jobs := CollectJobs(candidates);
      return Ok(jobs);
    }

    method Choose(earlier: Order, due: seq<Key>, limit: nat) returns (candidates: seq<Key>)
      ensures candidates == Chosen(earlier, due, limit)
    {
      candidates := SortBy(earlier, due);
      if |candidates| > limit { candidates := candidates[..limit]; }
    }

    /** Leases every chosen job or none. */
    method LeaseJobs(candidates: seq<Key>, owner: string, until: int, now: int) returns (e: Option<Error>)
      modifies `rows
      ensures match LeaseAll(old(rows), candidates, owner, until, now)
              case Ok(leased) => e == None && rows == leased
              case Fail(error) => e == Some(error) && rows == old(rows)
    {
      var scanned := rows;
      for i := 0 to |candidates|
        invariant LeaseAll(scanned, candidates[..i], owner, until, now) == Ok(rows)
      {
        assert candidates[..i + 1][..i] == candidates[..i];
        var k := candidates[i];
        if k !in scanned || k !in rows || rows[k].version != scanned[k].version {
          LeaseFails(scanned, candidates, i + 1, owner, until, now);
          rows := scanned;
          return Some(Conflict);
        }
        rows := rows[k := Row(scanned[k].version + 1, Granted(scanned[k].job, owner, until, now))];
      }
      assert candidates[..|candidates|] == candidates;
      return None;
    }

    method CollectJobs(keys: seq<Key>) returns (jobs: seq<Job>)
      ensures jobs == JobsOf(rows, keys)
    {
      jobs := [];
      for i := 0 to |keys|
        invariant jobs == JobsOf(rows, keys[..i])
      {
        assert keys[..i + 1][..i] == keys[..i];
        if keys[i] in rows { jobs := jobs + [rows[keys[i]].job]; }
      }
      assert keys[..|keys|] == keys;
    }

    method UpdateJob(j: Job, owner: string, fence: int, now: int, expiry: int) returns (e: Option<Error>)
      modifies `rows
      ensures (rows, e) == Update(old(rows), j, owner, fence, now, expiry)
    {
      var k := KeyOf(j.identity);
      if owner == "" || fence <= 0 || j.fence != fence { return Some(Stale); }
      if k !in rows { return Some(NotFound); }
      var current := rows[k].job;
      if current.leaseOwner != owner || current.fence != fence || !LeasedAt(current, expiry) { return Some(Stale); }
      if j.identity != current.identity { return Some(Immutable); }
      if !(j.leaseOwner == "" && j.leaseUntil.None?)
          && (j.leaseOwner != current.leaseOwner || j.leaseUntil != current.leaseUntil) {
        return Some(InvalidLease);
      }
      rows := rows[k := Row(rows[k].version + 1, j.(updatedAt := now))];
      return None;
    }

    /** The job that exposes a resource of the tenant, and its version. */
    method GetJobAction(keys: seq<Key>, tenant: string, resource: string) returns (r: Answer<Row>)
      ensures match Lookup(rows, keys, tenant, resource)
              case Fail(e) => r == Fail(e)
              case Ok(k) => r == Ok(rows[k])
    {
      if tenant == "" || resource == "" { return Fail(InvalidScope); }
      var matches := 0;
      var out: Option<Row> := None;
      for i := 0 to |keys|
        invariant matches == |Matching(rows, keys[..i], tenant, resource)|
        invariant matches > 0 ==> out == Some(rows[Matching(rows, keys[..i], tenant, resource)[matches - 1]])
      {
        assert keys[..i + 1][..i] == keys[..i];
        if Exposes(rows, tenant, resource, keys[i]) { matches, out := matches + 1, Some(rows[keys[i]]); }
      }
      assert keys[..|keys|] == keys;
      if matches > 1 { return Fail(Conflict); }
      if matches == 0 { return Fail(NotFound); }
      return Ok(out.value);
    }

    /** An administrator's claim up to the transaction that writes it. */
    method PrepareAction(keys: seq<Key>, tenant: string, resource: string, expected: int, subject: string, now: int)
      returns (r: Answer<Read>)
      ensures r == ReadForAction(rows, keys, tenant, resource, expected, subject, now)
    {
      var found := GetJobAction(keys, tenant, resource);
      if found.Fail? { return Fail(found.error); }
      var row := found.value;
      if expected > 0 && row.version != expected { return Fail(VersionConflict); }
      if row.job.leaseOwner != "" && LeasedAt(row.job, now) { return Fail(Leased); }
      return Ok(Read(row.job, row.version, expected, subject));
    }

    /** The second transaction of an administrator's claim. */
    method ClaimJobAction(r: Read, now: int) returns (out: Answer<Job>)
      modifies `rows
      ensures (rows, out) == WriteAction(old(rows), r, now)
    {
      var k := KeyOf(r.job.identity);
      if k !in rows { return Fail(NotFound); }
      if r.expected > 0 && rows[k].version != r.expected { return Fail(VersionConflict); }
      var j := r.job.(leaseOwner := ADMIN + r.subject, fence := NextFence(r.job.fence),
          leaseUntil := Some(now + ADMIN_LEASE), updatedAt := now);
      rows := rows[k := Row(rows[k].version + 1, j)];
      return Ok(j);
    }
  }

  lemma {:induction false} ScanFails(rows: Rows, keys: seq<Key>, n: nat, now: int)
    requires n <= |keys| && Scan(rows, keys[..n], now).Fail?
    ensures Scan(rows, keys, now) == Scan(rows, keys[..n], now)
    decreases |keys|
  {
    if n < |keys| {
      assert keys[..|keys| - 1][..n] == keys[..n];
      ScanFails(rows, keys[..|keys| - 1], n, now);
    } else {
      assert keys[..n] == keys;
    }
  }

  lemma {:induction false} LeaseFails(scanned: Rows, keys: seq<Key>, n: nat, owner: string, until: int, now: int)
    requires n <= |keys| && LeaseAll(scanned, keys[..n], owner, until, now).Fail?
    ensures LeaseAll(scanned, keys, owner, until, now) == LeaseAll(scanned, keys[..n], owner, until, now)
    decreases |keys|
  {
    if n < |keys| {
      assert keys[..|keys| - 1][..n] == keys[..n];
      LeaseFails(scanned, keys[..|keys| - 1], n, owner, until, now);
    } else {
      assert keys[..n] == keys;
    }
  }

  // -------------------------------------------------------------------- serving order

  /** A strict total order on keys, as the comparison of their text is. */
  ghost predicate StrictOrder(earlier: Order) {
    && (forall a :: !earlier(a, a))
    && (forall a, b :: a != b ==> earlier(a, b) || earlier(b, a))
    && (forall a, b, c :: earlier(a, b) && earlier(b, c) ==> earlier(a, c))
  }

  /** Every row that a pass looks at is stored. */
  ghost predicate Stored(rows: Rows, ks: seq<Key>) { forall k | k in ks :: k in rows }

  lemma ServingIsStrict(rows: Rows, below: Order, a: Key, b: Key, c: Key)
    requires StrictOrder(below) && a in rows && b in rows && c in rows
    ensures !ServedFirst(rows, below, a, a)
    ensures a != b ==> ServedFirst(rows, below, a, b) || ServedFirst(rows, below, b, a)
    ensures ServedFirst(rows, below, a, b) && ServedFirst(rows, below, b, c) ==> ServedFirst(rows, below, a, c)
  {
  }

  /** No later element is served before an earlier one. */
  ghost predicate Served(rows: Rows, below: Order, ks: seq<Key>) {
    forall i, j | 0 <= i < j < |ks| :: !ServedFirst(rows, below, ks[j], ks[i])
  }

  /** The key is not served before the last element, and so not before any. */
  lemma NotBeforeAny(rows: Rows, below: Order, xs: seq<Key>, k: Key, i: nat)
    requires StrictOrder(below) && Stored(rows, xs) && k in rows && Served(rows, below, xs)
    requires i < |xs| && !ServedFirst(rows, below, k, xs[|xs| - 1])
    ensures !ServedFirst(rows, below, k, xs[i])
  {
    hide ServedFirst, StrictOrder;
    var last := xs[|xs| - 1];
    assert last in xs && xs[i] in xs;
    ServingIsStrict(rows, below, k, xs[i], last);
    ServingIsStrict(rows, below, xs[i], last, k);
  }

  lemma InsertedOnly(earlier: Order, xs: seq<Key>, k: Key, x: Key)
    requires x in InsertBy(earlier, xs, k)
    ensures x == k || x in xs
  {
    assert x in multiset(InsertBy(earlier, xs, k));
  }

  lemma SnocServes(rows: Rows, below: Order, xs: seq<Key>, k: Key)
    requires Served(rows, below, xs) && forall i | 0 <= i < |xs| :: !ServedFirst(rows, below, k, xs[i])
    ensures Served(rows, below, xs + [k])
  {
    hide ServedFirst;
  }

  lemma {:induction false} InsertServes(rows: Rows, below: Order, xs: seq<Key>, k: Key)
    requires StrictOrder(below) && Stored(rows, xs) && k in rows && Served(rows, below, xs)
    ensures Served(rows, below, InsertBy(ServingOrder(rows, below), xs, k))
    decreases |xs|
  {
    hide ServedFirst, StrictOrder, Served;
    if xs == [] || !ServedFirst(rows, below, k, xs[|xs| - 1]) {
      forall i | 0 <= i < |xs| ensures !ServedFirst(rows, below, k, xs[i]) { NotBeforeAny(rows, below, xs, k, i); }
      SnocServes(rows, below, xs, k);
    } else {
      var n := |xs| - 1;
      ServedPrefix(rows, below, xs);
      InsertServes(rows, below, xs[..n], k);
      var r := InsertBy(ServingOrder(rows, below), xs[..n], k);
      forall i | 0 <= i < |r| ensures !ServedFirst(rows, below, xs[n], r[i]) {
        InsertedOnly(ServingOrder(rows, below), xs[..n], k, r[i]);
        ServingIsStrict(rows, below, xs[n], k, xs[n]);
      }
      SnocServes(rows, below, r, xs[n]);
    }
  }

  lemma ServedPrefix(rows: Rows, below: Order, xs: seq<Key>)
    requires xs != [] && Served(rows, below, xs)
    ensures Served(rows, below, xs[..|xs| - 1])
    ensures forall i | 0 <= i < |xs| - 1 :: !ServedFirst(rows, below, xs[|xs| - 1], xs[i])
  {
    hide ServedFirst;
  }

  lemma {:induction false} SortServes(rows: Rows, below: Order, xs: seq<Key>)
    requires StrictOrder(below) && Stored(rows, xs)
    ensures Served(rows, below, SortBy(ServingOrder(rows, below), xs))
    decreases |xs|
  {
    if xs != [] {
      var n := |xs| - 1;
      SortServes(rows, below, xs[..n]);
      var sorted := SortBy(ServingOrder(rows, below), xs[..n]);
      forall x | x in sorted ensures x in rows { assert x in multiset(sorted); }
      InsertServes(rows, below, sorted, xs[n]);
    }
  }

  /**
   A pass serves the earliest due jobs: as many as its limit allows, in serving
   order, and none of those it leaves would be served before one it takes.
   */
  lemma ServesEarliest(rows: Rows, below: Order, due: seq<Key>, limit: nat)
    requires StrictOrder(below) && Stored(rows, due)
    ensures var chosen := Chosen(ServingOrder(rows, below), due, limit);
            && |chosen| == (if |due| > limit then limit else |due|)
            && multiset(chosen) <= multiset(due) && Served(rows, below, chosen)
            && forall k, u | k in chosen && u in multiset(due) - multiset(chosen) :: !ServedFirst(rows, below, u, k)
  {
    hide ServedFirst, StrictOrder;
    SortServes(rows, below, due);
    var sorted := SortBy(ServingOrder(rows, below), due);
    assert |sorted| == |multiset(sorted)| == |multiset(due)| == |due|;
    if |sorted| > limit {
      assert sorted == sorted[..limit] + sorted[limit..];
      LeavesLater(rows, below, sorted[..limit], sorted[limit..]);
    }
  }

  lemma ServedApart(rows: Rows, below: Order, taken: seq<Key>, left: seq<Key>, k: Key, u: Key)
    requires Served(rows, below, taken + left) && k in taken && u in left
    ensures !ServedFirst(rows, below, u, k)
  {
    hide ServedFirst;
    var i :| 0 <= i < |taken| && taken[i] == k;
    var j :| 0 <= j < |left| && left[j] == u;
    assert (taken + left)[i] == k && (taken + left)[|taken| + j] == u;
  }

  lemma ServedStart(rows: Rows, below: Order, taken: seq<Key>, left: seq<Key>)
    requires Served(rows, below, taken + left)
    ensures Served(rows, below, taken)
  {
    hide ServedFirst;
    forall i, j | 0 <= i < j < |taken| ensures !ServedFirst(rows, below, taken[j], taken[i]) {
      assert (taken + left)[i] == taken[i] && (taken + left)[j] == taken[j];
    }
  }

  lemma LeavesLater(rows: Rows, below: Order, taken: seq<Key>, left: seq<Key>)
    requires Served(rows, below, taken + left)
    ensures multiset(taken) <= multiset(taken + left) && Served(rows, below, taken)
    ensures forall k, u | k in taken && u in multiset(taken + left) - multiset(taken) :: !ServedFirst(rows, below, u, k)
  {
    hide ServedFirst, Served;
    ServedStart(rows, below, taken, left);
    forall k, u | k in taken && u in multiset(taken + left) - multiset(taken) ensures !ServedFirst(rows, below, u, k) {
      assert multiset(taken + left)[u] == multiset(taken)[u] + multiset(left)[u];
      ServedApart(rows, below, taken, left, k, u);
    }
  }

  // -------------------------------------------------------------------------- lookup

  lemma {:induction false} MatchingFinds(rows: Rows, keys: seq<Key>, tenant: string, resource: string, k: Key)
    ensures k in Matching(rows, keys, tenant, resource) <==> k in keys && Exposes(rows, tenant, resource, k)
    decreases |keys|
  {
    hide Exposes;
    if keys != [] {
      var n := |keys| - 1;
      assert keys == keys[..n] + [keys[n]];
      MatchingFinds(rows, keys[..n], tenant, resource, k);
    }
  }

  ghost predicate NoRepeats(keys: seq<Key>) { forall i, j | 0 <= i < j < |keys| :: keys[i] != keys[j] }

  lemma {:induction false} MatchingRepeatsNot(rows: Rows, keys: seq<Key>, tenant: string, resource: string)
    requires NoRepeats(keys)
    ensures NoRepeats(Matching(rows, keys, tenant, resource))
    decreases |keys|
  {
    hide Exposes;
    if keys != [] {
      var n := |keys| - 1;
      MatchingRepeatsNot(rows, keys[..n], tenant, resource);
      MatchingFinds(rows, keys[..n], tenant, resource, keys[n]);
    }
  }

  /**
   Over all rows of the tenant, in whatever order they are read: the job is found
   exactly when it is the only one that exposes the resource.
   */
  lemma LookupIsUnique(rows: Rows, keys: seq<Key>, tenant: string, resource: string, k: Key)
    requires tenant != "" && resource != ""
    requires NoRepeats(keys) && forall x :: x in keys <==> x in rows && x.tenant == tenant
    ensures Lookup(rows, keys, tenant, resource) == Ok(k)
       <==> Exposes(rows, tenant, resource, k) && forall u | Exposes(rows, tenant, resource, u) :: u == k
    ensures Lookup(rows, keys, tenant, resource) == Fail(NotFound) <==> forall u :: !Exposes(rows, tenant, resource, u)
  {
    hide Matching;
    var ks := Matching(rows, keys, tenant, resource);
    forall u ensures u in ks <==> Exposes(rows, tenant, resource, u) {
      MatchingFinds(rows, keys, tenant, resource, u);
    }
    hide Exposes;
    MatchingRepeatsNot(rows, keys, tenant, resource);
    if |ks| > 0 { assert ks[0] in ks; }
    if |ks| > 1 { assert ks[1] in ks && ks[0] != ks[1]; }
  }
}
