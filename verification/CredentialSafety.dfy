/**
 A refresh token is spent at most once. Runs interleave installs, rewraps and any
 number of workers, each of which takes the fence, calls the provider, and
 commits or fails; a worker may crash at any point.
 */
module CredentialSafety {
  import opened CredentialStore

  /** A worker that holds an intent, before and after its provider call. */
  datatype Phase = Begun(intent: Intent) | Called(intent: Intent)

  datatype System = System(rows: Rows, workers: map<nat, Phase>)

  datatype Step =
    | DoPut(record: Record, expected: int)
    | DoRewrap(record: Record, expected: int)
    | DoBegin(worker: nat, intent: Intent, now: int)
    | DoCall(worker: nat)
    | DoCommit(worker: nat, record: Record, now: int)
    | DoFail(worker: nat)
    | DoCrash(worker: nat)

  /** A worker that already runs does not begin; the provider is called once per intent, before commit or fail. */
  function Next(s: System, step: Step): (r: System) {
    match step
    case DoPut(record, expected) => s.(rows := Put(s.rows, record, expected).0)
    case DoRewrap(record, expected) => s.(rows := Rewrap(s.rows, record, expected).0)
    case DoBegin(w, intent, now) =>
      if w in s.workers || TakeFence(s.rows, intent, now).1.Some? then s
      else System(TakeFence(s.rows, intent, now).0, s.workers[w := Begun(intent)])
    case DoCall(w) => if Calls(s, step) then s.(workers := s.workers[w := Called(s.workers[w].intent)]) else s
    case DoCommit(w, record, now) =>
      if w !in s.workers || !s.workers[w].Called? then s
      else System(InstallRefreshed(s.rows, s.workers[w].intent, record, now).0, s.workers - {w})
    case DoFail(w) =>
      if w !in s.workers || !s.workers[w].Called? then s
      else System(MarkFailed(s.rows, s.workers[w].intent).0, s.workers - {w})
    case DoCrash(w) => s.(workers := s.workers - {w})
  }

  function Run(steps: seq<Step>): (s: System) {
    if steps == [] then System(map[], map[]) else Next(Run(steps[..|steps| - 1]), steps[|steps| - 1])
  }

  /** The system as the n-th step finds it. */
  function Before(steps: seq<Step>, n: nat): (s: System)
    requires n <= |steps|
  {
    Run(steps[..n])
  }

  lemma BeforeNext(steps: seq<Step>, n: nat)
    requires n < |steps|
    ensures Before(steps, n + 1) == Next(Before(steps, n), steps[n])
  {
    assert steps[..n + 1][..n] == steps[..n];
  }

  // ------------------------------------------------------------------ events of a run

  /** The step takes the fence of the row. */
  predicate Begins(s: System, step: Step, k: Key) {
    && step.DoBegin? && step.worker !in s.workers && KeyOf(step.intent.identity) == k
    && TakeFence(s.rows, step.intent, step.now).1.None?
  }

  /** The step calls the provider. */
  predicate Calls(s: System, step: Step) { step.DoCall? && step.worker in s.workers && s.workers[step.worker].Begun? }

  /** The step installs a secret: an accepted put or an accepted commit. */
  predicate Installs(s: System, step: Step, k: Key) {
    || (step.DoPut? && KeyOf(step.record.identity) == k && Put(s.rows, step.record, step.expected).1.None?)
    || (step.DoCommit? && step.worker in s.workers && s.workers[step.worker].Called?
        && KeyOf(s.workers[step.worker].intent.identity) == k
        && InstallRefreshed(s.rows, s.workers[step.worker].intent, step.record, step.now).1.None?)
  }

  // ------------------------------------------------------------------------- one step

  predicate Fenced(s: System, k: Key) { k in s.rows && Unresolved(s.rows[k].credential) }

  lemma BeginFences(s: System, step: Step, k: Key)
    requires Begins(s, step, k)
    ensures !Fenced(s, k) && Fenced(Next(s, step), k)
  {
  }

  /** Only an install lifts the fence. */
  lemma OnlyInstallLifts(s: System, step: Step, k: Key)
    requires Fenced(s, k) && !Installs(s, step, k)
    ensures Fenced(Next(s, step), k)
  {
  }

  // ---------------------------------------------------------------------- whole runs

  lemma {:induction false} FencedBetween(steps: seq<Step>, start: nat, end: nat, k: Key)
    requires start <= end <= |steps| && Fenced(Before(steps, start), k)
    requires forall m | start <= m < end :: !Installs(Before(steps, m), steps[m], k)
    ensures Fenced(Before(steps, end), k)
    decreases end - start
  {
    hide Next, Before, Installs, Fenced;
    if start < end {
      FencedBetween(steps, start, end - 1, k);
      BeforeNext(steps, end - 1);
      OnlyInstallLifts(Before(steps, end - 1), steps[end - 1], k);
    }
  }

  /** Between two accepted begins of a row there is an install of that row. */
  lemma BeginsAreSeparated(steps: seq<Step>, first: nat, second: nat, k: Key) returns (m: nat)
    requires first < second < |steps| && Begins(Before(steps, first), steps[first], k)
             && Begins(Before(steps, second), steps[second], k)
    ensures first < m < second && Installs(Before(steps, m), steps[m], k)
  {
    hide Next, Before, Installs, Fenced, Begins;
    BeginFences(Before(steps, first), steps[first], k);
    BeforeNext(steps, first);
    m := first + 1;
    while m < second && !Installs(Before(steps, m), steps[m], k)
      invariant first < m <= second
      invariant forall n | first < n < m :: !Installs(Before(steps, n), steps[n], k)
    {
      m := m + 1;
    }
    if m == second {
      FencedBetween(steps, first + 1, second, k);
      BeginFences(Before(steps, second), steps[second], k);
    }
  }

  /** While a begun refresh is unresolved nobody loads the credential for use, and no rewrap is accepted. */
  lemma NoUseWhileUnresolved(steps: seq<Step>, begun: nat, now: nat, k: Key)
    requires begun < now <= |steps| && Begins(Before(steps, begun), steps[begun], k)
    requires forall m | begun < m < now :: !Installs(Before(steps, m), steps[m], k)
    ensures LoadUsable(Before(steps, now).rows, k).Unusable?
    ensures forall r: Record, expected: int | KeyOf(r.identity) == k ::
            Rewrap(Before(steps, now).rows, r, expected).1.Some?
  {
    hide Next, Before, Installs, Begins;
    BeginFences(Before(steps, begun), steps[begun], k);
    BeforeNext(steps, begun);
    FencedBetween(steps, begun + 1, now, k);
  }

  // -------------------------------------------------------------------- provider calls

  /** The begin that a worker's current intent came from, and that it has not called for yet. */
  ghost predicate BegunAt(steps: seq<Step>, n: nat, w: nat, intent: Intent, at: nat)
    requires n <= |steps|
  {
    && at < n && steps[at].DoBegin? && steps[at].worker == w && steps[at].intent == intent
    && Begins(Before(steps, at), steps[at], KeyOf(intent.identity))
    && forall m | at < m < n :: steps[m].DoCall? ==> steps[m].worker != w
  }

  lemma WorkerStep(s: System, step: Step, w: nat)
    requires w in Next(s, step).workers && Next(s, step).workers[w].Begun?
    ensures (w in s.workers && s.workers[w] == Next(s, step).workers[w] && (step.DoCall? ==> step.worker != w))
         || (step.DoBegin? && Begins(s, step, KeyOf(Next(s, step).workers[w].intent.identity)) && step.worker == w
             && step.intent == Next(s, step).workers[w].intent)
  {
    hide TakeFence, Put, Rewrap, InstallRefreshed, MarkFailed;
  }

  lemma {:induction false} HolderHasBegun(steps: seq<Step>, n: nat, w: nat) returns (at: nat)
    requires n <= |steps| && w in Before(steps, n).workers && Before(steps, n).workers[w].Begun?
    ensures BegunAt(steps, n, w, Before(steps, n).workers[w].intent, at)
    decreases n
  {
    hide Next, Before, Begins;
    NoWorkersAtFirst(steps);
    var last := n - 1;
    BeforeNext(steps, last);
    var s := Before(steps, last);
    WorkerStep(s, steps[last], w);
    if w in s.workers && s.workers[w] == Before(steps, n).workers[w]
        && (steps[last].DoCall? ==> steps[last].worker != w) {
      at := HolderHasBegun(steps, last, w);
    } else {
      at := last;
    }
  }

  lemma NoWorkersAtFirst(steps: seq<Step>)
    ensures Before(steps, 0).workers == map[]
  {
  }

  /**
   Two provider calls for the same row belong to two different begins, and a
   secret was installed between those begins: no token is spent twice.
   */
  lemma TokenSpentOnce(steps: seq<Step>, i: nat, j: nat) returns (first: nat, m: nat, second: nat)
    requires i < j < |steps| && Calls(Before(steps, i), steps[i]) && Calls(Before(steps, j), steps[j])
    requires KeyOf(Before(steps, i).workers[steps[i].worker].intent.identity)
             == KeyOf(Before(steps, j).workers[steps[j].worker].intent.identity)
    ensures var k := KeyOf(Before(steps, i).workers[steps[i].worker].intent.identity);
            && first < |steps| && second < |steps| && Begins(Before(steps, first), steps[first], k)
                && Begins(Before(steps, second), steps[second], k)
            && first < m < second && Installs(Before(steps, m), steps[m], k)
            && {first, second} == {BeginOf(steps, i), BeginOf(steps, j)}
  {
    var k := KeyOf(Before(steps, i).workers[steps[i].worker].intent.identity);
    hide Next, Before, Begins, Installs;
    BeginOfIs(steps, i);
    BeginOfIs(steps, j);
    var a, b := BeginOf(steps, i), BeginOf(steps, j);
    assert a != b;
    first, second := if a < b then a else b, if a < b then b else a;
    m := BeginsAreSeparated(steps, first, second, k);
  }

  /** The begin behind a provider call. */
  ghost function BeginOf(steps: seq<Step>, i: nat): (at: nat)
    requires i < |steps| && Calls(Before(steps, i), steps[i])
  {
    var w := steps[i].worker;
    assert exists at :: BegunAt(steps, i, w, Before(steps, i).workers[w].intent, at) by {
      var at := HolderHasBegun(steps, i, w);
    }
    var at :| BegunAt(steps, i, w, Before(steps, i).workers[w].intent, at);
    at
  }

  lemma BeginOfIs(steps: seq<Step>, i: nat)
    requires i < |steps| && Calls(Before(steps, i), steps[i])
    ensures BegunAt(steps, i, steps[i].worker, Before(steps, i).workers[steps[i].worker].intent, BeginOf(steps, i))
  {
  }

  // -------------------------------------------------------------------- superseded commits

  /** The record version of a row. */
  function VersionOf(s: System, k: Key): (v: int) {
    if k in s.rows then s.rows[k].credential.record.identity.version else -1
  }

  lemma VersionsGrow(s: System, step: Step, k: Key)
    requires k in s.rows
    ensures k in Next(s, step).rows && VersionOf(s, k) <= VersionOf(Next(s, step), k)
    ensures Installs(s, step, k) ==> VersionOf(s, k) < VersionOf(Next(s, step), k)
  {
  }

  lemma {:induction false} VersionsGrowOver(steps: seq<Step>, start: nat, end: nat, k: Key)
    requires start <= end <= |steps| && k in Before(steps, start).rows
    ensures k in Before(steps, end).rows && VersionOf(Before(steps, start), k) <= VersionOf(Before(steps, end), k)
    decreases end - start
  {
    hide Next, Before, VersionOf;
    if start < end {
      VersionsGrowOver(steps, start, end - 1, k);
      BeforeNext(steps, end - 1);
      VersionsGrow(Before(steps, end - 1), steps[end - 1], k);
    }
  }

  /** After any install that follows its begin, an intent can neither commit nor fail: the record stays as it is. */
  lemma SupersededChangesNothing(steps: seq<Step>, begun: nat, installed: nat, now: nat, record: Record, time: int)
    requires begun < installed < now <= |steps| && steps[begun].DoBegin?
    requires Begins(Before(steps, begun), steps[begun], KeyOf(steps[begun].intent.identity))
    requires Installs(Before(steps, installed), steps[installed], KeyOf(steps[begun].intent.identity))
    ensures var rows, i := Before(steps, now).rows, steps[begun].intent;
            && InstallRefreshed(rows, i, record, time).0 == rows && InstallRefreshed(rows, i, record, time).1.Some?
            && MarkFailed(rows, i).0 == rows && MarkFailed(rows, i).1.Some?
  {
    hide Next, Before, Installs, Begins;
    var k := KeyOf(steps[begun].intent.identity);
    BegunVersion(Before(steps, begun), steps[begun]);
    BeforeNext(steps, installed);
    VersionsGrowOver(steps, begun, installed, k);
    VersionsGrow(Before(steps, installed), steps[installed], k);
    VersionsGrowOver(steps, installed + 1, now, k);
  }

  lemma BegunVersion(s: System, step: Step)
    requires step.DoBegin? && Begins(s, step, KeyOf(step.intent.identity))
    ensures KeyOf(step.intent.identity) in s.rows
            && VersionOf(s, KeyOf(step.intent.identity)) == step.intent.identity.version
  {
  }
}
