/**
 The process-local snapshot cache: one revision per tenant, a generation counter
 that every invalidation advances, and any number of concurrent loaders. Each
 critical section is one method of the cache; a load is split into reading the
 cache, reading SQL and publishing, so that any other step can come between.
 */
module SnapshotCache {
  import opened Basics

  /** Generation counters are 64-bit words and wrap. */
  const WORD := 0x1_0000_0000_0000_0000

  datatype Cache = Cache(entries: map<string, int>, generation: map<string, nat>)

  function GenerationOf(c: Cache, tenant: string): (g: nat) {
    if tenant in c.generation then c.generation[tenant] else 0
  }

  function Advance(c: Cache, tenant: string): (r: Cache) {
    c.(generation := c.generation[tenant := (GenerationOf(c, tenant) + 1) % WORD])
  }

  /** Advances the generation and drops an entry older than the revision, or any entry without one. */
  function Invalidated(c: Cache, tenant: string, revision: int): (r: Cache) {
    if tenant == "" then c
    else if tenant in c.entries && (revision <= 0 || c.entries[tenant] < revision)
    then Advance(c, tenant).(entries := c.entries - {tenant})
    else Advance(c, tenant)
  }

  /** A commit of this process: the entry goes whatever revision it carries. */
  function Committed(c: Cache, tenant: string): (r: Cache) {
    if tenant == "" then c else Advance(c, tenant).(entries := c.entries - {tenant})
  }

  /** Stores a load that no invalidation overtook, unless a newer revision is already there. */
  function Published(c: Cache, tenant: string, generation: nat, revision: int): (r: Option<Cache>) {
    if GenerationOf(c, tenant) != generation then None
    else if tenant !in c.entries || revision >= c.entries[tenant]
        then Some(c.(entries := c.entries[tenant := revision]))
    else Some(c)
  }

  class RuntimeState {
    var cache: map<string, int>
    var generation: map<string, nat>

    ghost function View(): (c: Cache)
      reads this
    {
      Cache(cache, generation)
    }

    constructor ()
      ensures View() == Cache(map[], map[])
    {
      cache, generation := map[], map[];
    }

    method Bump(tenant: string)
      modifies `generation
      ensures View() == Advance(old(View()), tenant)
    {
      var g := if tenant in generation then generation[tenant] else 0;
      generation := generation[tenant := (g + 1) % WORD];
    }

    /** The read lock of a load: the entry, or the generation the load must still find when it publishes. */
    method Peek(tenant: string) returns (entry: Option<int>, g: nat)
      ensures entry == if tenant in cache then Some(cache[tenant]) else None
      ensures g == GenerationOf(View(), tenant)
    {
      entry := if tenant in cache then Some(cache[tenant]) else None;
      g := if tenant in generation then generation[tenant] else 0;
    }

    /** The write lock of a load; nothing is returned when an invalidation came in between. */
    method Publish(tenant: string, g: nat, revision: int) returns (entry: Option<int>)
      modifies `cache
      ensures match Published(old(View()), tenant, g, revision)
              case None => entry == None && View() == old(View())
              case Some(c) => View() == c && entry == Some(c.entries[tenant])
    {
      var now := if tenant in generation then generation[tenant] else 0;
      if now != g { return None; }
      if tenant !in cache || revision >= cache[tenant] {
        cache := cache[tenant := revision];
      }
      return Some(cache[tenant]);
    }

    method Invalidate(tenant: string, revision: int)
      modifies this
      ensures View() == Invalidated(old(View()), tenant, revision)
    {
      if tenant == "" { return; }
      Bump(tenant);
      if tenant in cache && (revision <= 0 || cache[tenant] < revision) {
        cache := cache - {tenant};
      }
    }

    method OnConfigCommit(tenant: string)
      modifies this
      ensures View() == Committed(old(View()), tenant)
    {
      if tenant == "" { return; }
      Bump(tenant);
      cache := cache - {tenant};
    }
  }

  // --------------------------------------------------------------- interleavings

  datatype Phase =
    | Peeking
    | Loading(generation: nat)
    | Loaded(generation: nat, revision: int)
    | Served(revision: int)
    | Changed
    | Broken

  /**
   One Snapshot call. `owed` and `begun` are history: what the tenant had been
   promised and the tenant's generation when the call began.
   */
  datatype Call = Call(tenant: string, tries: nat, phase: Phase, owed: int, begun: nat)

  datatype Repair = Idle | Compared(tenant: string, revision: int) | Behind(tenant: string, revision: int)

  /**
   The whole process. `floor` is history: per tenant, the newest revision that
   the cache has been told of and must not serve below. `highest` is history: per
   tenant, the newest revision ever cached.
   */
  datatype System = System(
    committed: int, cache: Cache, calls: map<nat, Call>, repair: Repair,
    floor: map<string, int>, highest: map<string, int>)

  function At(m: map<string, int>, tenant: string): (r: int) { if tenant in m then m[tenant] else 0 }

  function Max(a: int, b: int): (r: int) { if a < b then b else a }

  datatype Step =
    | Commit
    | Notify(tenant: string, revision: int)
    | Message(tenant: string, revision: int)
    | Begin(call: nat, tenant: string)
    | Peek(call: nat)
    | Query(call: nat)
    | QueryFails(call: nat)
    | Publish(call: nat)
    | RepairRead(tenant: string)
    | RepairCheck
    | RepairInvalidate

  function Invalidating(s: System, tenant: string, revision: int): (r: System) {
    s.(cache := Invalidated(s.cache, tenant, revision),
       floor := s.floor[tenant := if revision <= 0 then s.committed else Max(At(s.floor, tenant), revision)])
  }

  function WithPhase(s: System, call: nat, phase: Phase): (r: System)
    requires call in s.calls
  {
    s.(calls := s.calls[call := s.calls[call].(phase := phase)])
  }

  /** The end of a load: published and served, tried once more, or given up. */
  function Publishing(s: System, call: nat): (r: System)
    requires call in s.calls && s.calls[call].phase.Loaded?
  {
    var c := s.calls[call];
    match Published(s.cache, c.tenant, c.phase.generation, c.phase.revision)
    case Some(cache) =>
      WithPhase(s.(cache := cache,
          highest := s.highest[c.tenant := Max(At(s.highest, c.tenant), cache.entries[c.tenant])]),
                call, Served(cache.entries[c.tenant]))
    case None =>
      s.(calls := s.calls[call :=
          c.(tries := if c.tries == 0 then 0 else c.tries - 1, phase := if c.tries > 1 then Peeking else Changed)])
  }

  /**
   One step of one participant; a step that is not enabled changes nothing.
   Notifications and messages carry revisions that were committed.
   */
  function Next(s: System, step: Step): (r: System) {
    match step
    case Commit => s.(committed := s.committed + 1)
    case Notify(tenant, revision) =>
      if tenant == "" || revision > s.committed then s
      else s.(cache := Committed(s.cache, tenant), floor := s.floor[tenant := s.committed])
    case Message(tenant, revision) =>
      if tenant == "" || revision > s.committed then s else Invalidating(s, tenant, revision)
    case Begin(call, tenant) =>
      if call in s.calls then s
      else s.(calls := s.calls[call := Call(tenant, 2, if tenant == "" then Broken else Peeking,
                                            Max(At(s.floor, tenant), At(s.highest, tenant)),
                                                GenerationOf(s.cache, tenant))])
    case Peek(call) =>
      if call !in s.calls || !s.calls[call].phase.Peeking? then s
      else
        var tenant := s.calls[call].tenant;
        if tenant in s.cache.entries then WithPhase(s, call, Served(s.cache.entries[tenant]))
        else WithPhase(s, call, Loading(GenerationOf(s.cache, tenant)))
    case Query(call) =>
      if call !in s.calls || !s.calls[call].phase.Loading? then s
      else WithPhase(s, call, Loaded(s.calls[call].phase.generation, s.committed))
    case QueryFails(call) =>
      if call !in s.calls || !s.calls[call].phase.Loading? then s else WithPhase(s, call, Broken)
    case Publish(call) =>
      if call !in s.calls || !s.calls[call].phase.Loaded? then s else Publishing(s, call)
    case RepairRead(tenant) =>
      if !s.repair.Idle? then s else s.(repair := Compared(tenant, s.committed))
    case RepairCheck =>
      if !s.repair.Compared? then s
      else if s.repair.tenant in s.cache.entries && s.repair.revision > s.cache.entries[s.repair.tenant]
      then s.(repair := Behind(s.repair.tenant, s.repair.revision))
      else s.(repair := Idle)
    case RepairInvalidate =>
      if !s.repair.Behind? || s.repair.tenant == "" then s
      else Invalidating(s, s.repair.tenant, s.repair.revision).(repair := Idle)
  }

  function Run(s: System, steps: seq<Step>): (r: System) {
    if steps == [] then s else Next(Run(s, steps[..|steps| - 1]), steps[|steps| - 1])
  }

  predicate Initial(s: System) {
    s.committed >= 0 && s == System(s.committed, Cache(map[], map[]), map[], Idle, map[], map[])
  }

  // ------------------------------------------------------------------- coherence

  /** Everything the tenant has been promised is committed, and its entry is the newest ever cached. */
  ghost predicate Fresh(s: System, tenant: string) {
    && At(s.floor, tenant) <= s.committed && At(s.highest, tenant) <= s.committed
    && (tenant in s.cache.entries ==>
          s.cache.entries[tenant] == At(s.highest, tenant) && At(s.floor, tenant) <= s.cache.entries[tenant])
  }

  /** A load that can still publish has read everything promised so far. */
  ghost predicate Sound(s: System, c: Call) {
    && c.owed <= s.committed && c.begun <= GenerationOf(s.cache, c.tenant)
    && (!c.phase.Served? && !c.phase.Changed? && !c.phase.Broken? ==> 1 <= c.tries <= 2)
    && match c.phase
       case Peeking =>
         && 2 - c.tries <= GenerationOf(s.cache, c.tenant) - c.begun
         && c.owed <= Max(At(s.floor, c.tenant), At(s.highest, c.tenant))
       case Loading(g) =>
         && c.begun + (2 - c.tries) <= g <= GenerationOf(s.cache, c.tenant)
         && c.owed <= Max(At(s.floor, c.tenant), At(s.highest, c.tenant))
       case Loaded(g, revision) =>
         && c.begun + (2 - c.tries) <= g <= GenerationOf(s.cache, c.tenant)
         && revision <= s.committed
         && c.owed <= Max(At(s.floor, c.tenant), At(s.highest, c.tenant))
         && (g == GenerationOf(s.cache, c.tenant) ==>
               && At(s.floor, c.tenant) <= revision
               && (c.tenant !in s.cache.entries ==> At(s.highest, c.tenant) <= revision))
       case Served(revision) => c.owed <= revision
       case Changed => c.begun + 2 <= GenerationOf(s.cache, c.tenant)
       case Broken => true
  }

  ghost predicate Coherent(s: System) {
    && s.committed >= 0
    && (s.repair.Idle? || s.repair.revision <= s.committed)
    && (forall tenant :: Fresh(s, tenant))
    && (forall id | id in s.calls :: Sound(s, s.calls[id]))
  }

  /** Fewer than 2^64 invalidations so far: no generation has wrapped. */
  ghost predicate Counted(s: System, n: nat) {
    forall tenant :: GenerationOf(s.cache, tenant) <= n
  }

  /** An invalidation that raises the floor and drops every entry below it. */
  lemma RaisedStaysCoherent(s: System, s': System, tenant: string, n: nat)
    requires Coherent(s) && Counted(s, n) && n + 1 < WORD && tenant != ""
    requires s'.cache.generation == Advance(s.cache, tenant).generation
    requires s' == s.(cache := s'.cache, floor := s.floor[tenant := At(s'.floor, tenant)], repair := s'.repair)
    requires At(s.floor, tenant) <= At(s'.floor, tenant) <= s.committed
    requires s'.cache.entries == s.cache.entries - {tenant}
          || (s'.cache.entries == s.cache.entries
              && (tenant in s.cache.entries ==> At(s'.floor, tenant) <= s.cache.entries[tenant]))
    requires s'.repair.Idle? || s'.repair == s.repair
    ensures Coherent(s')
  {
    forall id | id in s'.calls ensures Sound(s', s'.calls[id]) {
      assert Sound(s, s.calls[id]);
      assert Fresh(s, s.calls[id].tenant);
    }
    forall t ensures Fresh(s', t) { assert Fresh(s, t); }
  }

  lemma CalledStaysCoherent(s: System, call: nat, c: Call)
    requires Coherent(s) && Sound(s, c)
    ensures Coherent(s.(calls := s.calls[call := c]))
  {
    var s' := s.(calls := s.calls[call := c]);
    forall t ensures Fresh(s', t) { assert Fresh(s, t); }
    forall id | id in s'.calls ensures Sound(s', s'.calls[id]) {
      assert id == call || Sound(s, s.calls[id]);
    }
  }

  lemma PublishStaysFresh(s: System, call: nat, tenant: string)
    requires call in s.calls && s.calls[call].phase.Loaded? && Sound(s, s.calls[call])
    requires Fresh(s, tenant) && Fresh(s, s.calls[call].tenant)
    ensures Fresh(Publishing(s, call), tenant)
  {
  }

  lemma PublishStaysSound(s: System, call: nat, id: nat)
    requires call in s.calls && s.calls[call].phase.Loaded? && id in s.calls
    requires Sound(s, s.calls[call]) && Sound(s, s.calls[id]) && Fresh(s, s.calls[call].tenant)
    ensures Sound(Publishing(s, call), Publishing(s, call).calls[id])
  {
  }

  lemma PublishStaysCoherent(s: System, call: nat)
    requires Coherent(s) && call in s.calls && s.calls[call].phase.Loaded?
    ensures Coherent(Publishing(s, call))
  {
    hide Fresh, Sound;
    var s' := Publishing(s, call);
    assert Sound(s, s.calls[call]) && Fresh(s, s.calls[call].tenant);
    forall t ensures Fresh(s', t) { PublishStaysFresh(s, call, t); }
    forall id | id in s'.calls ensures Sound(s', s'.calls[id]) { PublishStaysSound(s, call, id); }
  }

  lemma NextStaysCoherent(s: System, step: Step, n: nat)
    requires Coherent(s) && Counted(s, n) && n + 1 < WORD
    ensures Coherent(Next(s, step))
  {
    hide Publishing, Sound;
    var s' := Next(s, step);
    match step {
      case Commit =>
        CommitStaysCoherent(s);
      case Notify(tenant, revision) =>
        if s' != s {
          assert Fresh(s, tenant);
          RaisedStaysCoherent(s, s', tenant, n);
        }
      case Message(tenant, revision) =>
        if s' != s {
          assert Fresh(s, tenant);
          RaisedStaysCoherent(s, s', tenant, n);
        }
      case RepairInvalidate =>
        if s' != s {
          assert Fresh(s, s.repair.tenant);
          RaisedStaysCoherent(s, s', s.repair.tenant, n);
        }
      case Publish(call) =>
        if s' != s {
          PublishStaysCoherent(s, call);
        }
      case Begin(call, _) =>
        if s' != s {
          CallIsSound(s, step, call);
          CalledStaysCoherent(s, call, s'.calls[call]);
        }
      case Peek(call) =>
        if s' != s {
          CallIsSound(s, step, call);
          CalledStaysCoherent(s, call, s'.calls[call]);
        }
      case Query(call) =>
        if s' != s {
          CallIsSound(s, step, call);
          CalledStaysCoherent(s, call, s'.calls[call]);
        }
      case QueryFails(call) =>
        if s' != s {
          CallIsSound(s, step, call);
          CalledStaysCoherent(s, call, s'.calls[call]);
        }
      case RepairRead(_) => RepairStaysCoherent(s, s');
      case RepairCheck => RepairStaysCoherent(s, s');
    }
  }

  lemma CommitStaysCoherent(s: System)
    requires Coherent(s)
    ensures Coherent(Next(s, Commit))
  {
    var s' := Next(s, Commit);
    forall t ensures Fresh(s', t) { assert Fresh(s, t); }
    forall id | id in s'.calls ensures Sound(s', s'.calls[id]) { assert Sound(s, s.calls[id]); }
  }

  lemma RepairStaysCoherent(s: System, s': System)
    requires Coherent(s) && s' == s.(repair := s'.repair) && (s'.repair.Idle? || s'.repair.revision <= s.committed)
    ensures Coherent(s')
  {
    forall t ensures Fresh(s', t) { assert Fresh(s, t); }
    forall id | id in s'.calls ensures Sound(s', s'.calls[id]) { assert Sound(s, s.calls[id]); }
  }

  lemma NextIsCounted(s: System, step: Step, n: nat)
    requires Counted(s, n) && n + 1 < WORD
    ensures Counted(Next(s, step), n + 1)
  {
    forall tenant ensures GenerationOf(Next(s, step).cache, tenant) <= n + 1 {
      assert GenerationOf(s.cache, tenant) <= n;
    }
  }

  /** Every step of a call keeps what the call relies on. */
  lemma CallIsSound(s: System, step: Step, call: nat)
    requires Coherent(s) && step in {Begin(call, if step.Begin? then step.tenant else ""), Peek(call), Query(call),
             QueryFails(call)}
    requires Next(s, step) != s
    ensures call in Next(s, step).calls && Sound(s, Next(s, step).calls[call])
    ensures Next(s, step) == s.(calls := s.calls[call := Next(s, step).calls[call]])
  {
    var tenant := if step.Begin? then step.tenant else s.calls[call].tenant;
    assert Fresh(s, tenant);
    if !step.Begin? { assert Sound(s, s.calls[call]); }
  }

  /** Coherence over every interleaving of fewer than 2^64 steps. */
  lemma {:induction false} RunIsCoherent(s: System, steps: seq<Step>)
    requires Initial(s) && |steps| + 1 < WORD
    ensures Coherent(Run(s, steps)) && Counted(Run(s, steps), |steps|)
    decreases |steps|
  {
    if steps != [] {
      var m := |steps| - 1;
      RunIsCoherent(s, steps[..m]);
      NextStaysCoherent(Run(s, steps[..m]), steps[m], m);
      NextIsCounted(Run(s, steps[..m]), steps[m], m);
    }
  }

  /** What a step never takes back: commits, promises, and the newest revision ever cached. */
  ghost predicate Grown(s: System, s': System) {
    && s.committed <= s'.committed
    && forall tenant :: At(s.floor, tenant) <= At(s'.floor, tenant) && At(s.highest, tenant) <= At(s'.highest, tenant)
  }

  /** Calls keep their tenant and what they were owed; a later call is owed everything promised before it. */
  ghost predicate Owed(s: System, s': System) {
    && (forall id | id in s.calls ::
          && id in s'.calls && s'.calls[id].tenant == s.calls[id].tenant
          && s'.calls[id].owed == s.calls[id].owed)
    && (forall id | id in s'.calls && id !in s.calls ::
          Max(At(s.floor, s'.calls[id].tenant), At(s.highest, s'.calls[id].tenant)) <= s'.calls[id].owed)
  }

  ghost predicate Later(s: System, s': System) { Grown(s, s') && Owed(s, s') }

  lemma NextIsGrown(s: System, step: Step)
    requires Coherent(s)
    ensures Grown(s, Next(s, step))
  {
    hide Sound;
    var s' := Next(s, step);
    forall tenant ensures At(s.floor, tenant) <= At(s'.floor, tenant)
        && At(s.highest, tenant) <= At(s'.highest, tenant) {
      assert Fresh(s, tenant);
    }
  }

  lemma NextIsOwed(s: System, step: Step)
    ensures Owed(s, Next(s, step))
  {
  }

  lemma LaterComposes(a: System, b: System, c: System)
    requires Later(a, b) && Later(b, c)
    ensures Later(a, c)
  {
    hide At, Max;
    forall id | id in c.calls && id !in a.calls
      ensures Max(At(a.floor, c.calls[id].tenant), At(a.highest, c.calls[id].tenant)) <= c.calls[id].owed
    {
      var tenant := c.calls[id].tenant;
      MaxGrows(At(a.floor, tenant), At(a.highest, tenant), At(b.floor, tenant), At(b.highest, tenant));
    }
  }

  lemma MaxGrows(a: int, b: int, c: int, d: int)
    requires a <= c && b <= d
    ensures Max(a, b) <= Max(c, d)
  {
  }

  lemma {:induction false} RunIsLater(s: System, before: seq<Step>, after: seq<Step>)
    requires Initial(s) && |before + after| + 1 < WORD
    ensures Later(Run(s, before), Run(s, before + after))
    decreases |after|
  {
    hide Next, Coherent, Initial, Later;
    if after == [] {
      assert before + after == before;
      LaterReflexive(Run(s, before));
    } else {
      var m := |after| - 1;
      assert (before + after)[..|before| + m] == before + after[..m] && (before + after)[|before| + m] == after[m];
      RunIsLater(s, before, after[..m]);
      RunIsCoherent(s, before + after[..m]);
      NextIsLater(Run(s, before + after[..m]), after[m]);
      LaterComposes(Run(s, before), Run(s, before + after[..m]), Run(s, before + after));
    }
  }

  lemma LaterReflexive(s: System)
    ensures Later(s, s)
  {
  }

  lemma NextIsLater(s: System, step: Step)
    requires Coherent(s)
    ensures Later(s, Next(s, step))
  {
    hide Next, Coherent;
    NextIsGrown(s, step);
    NextIsOwed(s, step);
  }

  /** The cached revision of a tenant never goes backwards, even across deletions. */
  lemma CacheNeverGoesBack(s: System, before: seq<Step>, after: seq<Step>, tenant: string)
    requires Initial(s) && |before + after| + 1 < WORD
    requires tenant in Run(s, before).cache.entries && tenant in Run(s, before + after).cache.entries
    ensures Run(s, before).cache.entries[tenant] <= Run(s, before + after).cache.entries[tenant]
  {
    RunIsCoherent(s, before);
    RunIsCoherent(s, before + after);
    RunIsLater(s, before, after);
    assert Fresh(Run(s, before), tenant) && Fresh(Run(s, before + after), tenant);
  }

  /**
   After a commit notification, a message or a forced refresh, neither the cache
   nor any call begun later serves less than the revision it was about.
   */
  lemma NotifiedIsServed(s: System, before: seq<Step>, told: Step, after: seq<Step>, tenant: string)
    requires Initial(s) && |before| + |after| + 2 < WORD && tenant != ""
    requires (told.Notify? || told.Message?) && told.tenant == tenant && told.revision <= Run(s, before).committed
    ensures var asked := if told.Notify? || told.revision <= 0 then Run(s, before).committed else told.revision;
            var s' := Run(s, before + [told] + after);
            && told.revision <= asked
            && (tenant in s'.cache.entries ==> asked <= s'.cache.entries[tenant])
            && (forall id | id in s'.calls && id !in Run(s, before).calls && s'.calls[id].tenant == tenant
                && s'.calls[id].phase.Served? ::
                  asked <= s'.calls[id].phase.revision)
  {
    var at := Run(s, before);
    var upTo := before + [told];
    assert upTo[..|before|] == before && upTo[|before|] == told;
    assert Run(s, upTo) == Next(at, told);
    RunIsCoherent(s, before);
    RunIsLater(s, upTo, after);
    RunIsCoherent(s, upTo + after);
    assert Fresh(at, tenant) && Fresh(Run(s, upTo + after), tenant);
    var s' := Run(s, upTo + after);
    forall id | id in s'.calls && id !in at.calls && s'.calls[id].tenant == tenant && s'.calls[id].phase.Served?
      ensures At(Run(s, upTo).floor, tenant) <= s'.calls[id].phase.revision
    {
      assert id !in Run(s, upTo).calls;
      assert Sound(s', s'.calls[id]);
    }
  }

  /** Reads are monotonic: a call begun after another was served is never served an older revision. */
  lemma ReadsAreMonotonic(s: System, before: seq<Step>, after: seq<Step>, first: nat, second: nat)
    requires Initial(s) && |before + after| + 1 < WORD
    requires first in Run(s, before).calls && second !in Run(s, before).calls && second in Run(s, before + after).calls
    requires var a, b := Run(s, before).calls[first], Run(s, before + after).calls[second];
             a.tenant == b.tenant && a.phase.Served? && b.phase.Served?
    ensures Run(s, before).calls[first].phase.revision <= Run(s, before + after).calls[second].phase.revision
  {
    RunServedWasCached(s, before, first);
    RunIsCoherent(s, before + after);
    RunIsLater(s, before, after);
    assert Sound(Run(s, before + after), Run(s, before + after).calls[second]);
  }

  lemma ServedIsCached(s: System, step: Step, call: nat)
    requires Coherent(s) && call in s.calls && !s.calls[call].phase.Served? && call in Next(s, step).calls
             && Next(s, step).calls[call].phase.Served?
    ensures Next(s, step).calls[call].phase.revision <= At(Next(s, step).highest, Next(s, step).calls[call].tenant)
  {
    assert Fresh(s, s.calls[call].tenant);
  }

  lemma ServedStaysServed(s: System, step: Step, call: nat)
    requires call in s.calls && s.calls[call].phase.Served?
    ensures call in Next(s, step).calls && Next(s, step).calls[call] == s.calls[call]
  {
  }

  lemma NewIsNotServed(s: System, step: Step, call: nat)
    requires call !in s.calls && call in Next(s, step).calls
    ensures !Next(s, step).calls[call].phase.Served?
  {
  }

  lemma {:induction false} RunServedWasCached(s: System, steps: seq<Step>, call: nat)
    requires Initial(s) && |steps| + 1 < WORD
    requires call in Run(s, steps).calls && Run(s, steps).calls[call].phase.Served?
    ensures Run(s, steps).calls[call].phase.revision <= At(Run(s, steps).highest, Run(s, steps).calls[call].tenant)
    decreases |steps|
  {
    hide Next, Coherent;
    if steps != [] {
      var m := |steps| - 1;
      var at := Run(s, steps[..m]);
      RunIsCoherent(s, steps[..m]);
      NextIsGrown(at, steps[m]);
      if call !in at.calls {
        NewIsNotServed(at, steps[m], call);
      } else if at.calls[call].phase.Served? {
        RunServedWasCached(s, steps[..m], call);
        ServedStaysServed(at, steps[m], call);
      } else {
        ServedIsCached(at, steps[m], call);
      }
    }
  }

  /** A call gives up only after the tenant was invalidated twice while it ran. */
  lemma GivesUpAfterTwoChanges(s: System, steps: seq<Step>, call: nat)
    requires Initial(s) && |steps| + 1 < WORD
    requires call in Run(s, steps).calls && Run(s, steps).calls[call].phase.Changed?
    ensures var c := Run(s, steps).calls[call]; c.begun + 2 <= GenerationOf(Run(s, steps).cache, c.tenant)
  {
    RunIsCoherent(s, steps);
    assert Sound(Run(s, steps), Run(s, steps).calls[call]);
  }
}
