/** What the idempotency records guarantee over every run of their transactions. */
module IdempotencySafety {
  import opened Basics
  import opened IdempotencyCodec
  import opened IdempotencyStore

  datatype Step =
    | DoBegin(request: Request, now: int)
    | DoDiscard(request: Request)
    | DoFinish(request: Request, response: Option<Response>, nonce: Bytes, now: int)
    | DoClean(ids: seq<Key>, now: int)

  ghost function Apply(vault: Vault, rows: Rows, step: Step): Rows {
    match step
    case DoBegin(r, now) => Begin(vault, rows, r, now).0
    case DoDiscard(r) => Discard(rows, r).0
    case DoFinish(r, response, nonce, now) => Finish(vault, rows, r, response, nonce, now).0
    case DoClean(ids, now) => Clean(rows, ids, now)
  }

  ghost function Run(vault: Vault, steps: seq<Step>): Rows {
    if steps == [] then map[] else Apply(vault, Run(vault, steps[..|steps| - 1]), steps[|steps| - 1])
  }

  /** The rows as the n-th step of a run finds them. */
  ghost function Before(vault: Vault, steps: seq<Step>, n: nat): Rows
    requires n <= |steps|
  {
    Run(vault, steps[..n])
  }

  lemma BeforeNext(vault: Vault, steps: seq<Step>, n: nat)
    requires n < |steps|
    ensures Before(vault, steps, n + 1) == Apply(vault, Before(vault, steps, n), steps[n])
  {
    assert steps[..n + 1][..n] == steps[..n];
  }

  // ------------------------------------------------------------------ events of a run

  /** The step is answered `new` for the key. */
  ghost predicate Wins(vault: Vault, rows: Rows, step: Step, id: Key) {
    step.DoBegin? && step.request.id == id && Begin(vault, rows, step.request, step.now).1 == New
  }

  /** The step is the pending owner's own discard. */
  ghost predicate Discards(rows: Rows, step: Step, id: Key) {
    && step.DoDiscard? && ValidRequest(step.request) && step.request.id == id && id in rows
    && rows[id].state.Pending? && rows[id].owner == step.request.owner
  }

  /** The step removes a completed response that has reached its expiry, for a new claim or for good. */
  ghost predicate Expires(vault: Vault, rows: Rows, step: Step, id: Key) {
    && id in rows && (Wins(vault, rows, step, id) || (step.DoClean? && id in step.ids))
    && Expired(rows[id], step.now)
  }

  ghost predicate Releases(vault: Vault, rows: Rows, step: Step, id: Key) {
    Discards(rows, step, id) || Expires(vault, rows, step, id)
  }

  /** The step is the owner's accepted finish with a response. */
  ghost predicate Completes(vault: Vault, rows: Rows, step: Step, id: Key, response: Response) {
    && step.DoFinish? && step.request.id == id && step.response == Some(response) && Accepted(response)
    && id in rows && rows[id].state.Pending? && rows[id].owner == step.request.owner
        && rows[id].fingerprint == step.request.fingerprint
    && id in Apply(vault, rows, step) && Apply(vault, rows, step)[id].state.Complete?
  }

  // ------------------------------------------------------------------------- one step

  lemma {:induction false} CleanedRow(rows: Rows, ids: seq<Key>, now: int, id: Key)
    ensures id in Clean(rows, ids, now) ==> id in rows && Clean(rows, ids, now)[id] == rows[id]
    ensures id in rows ==> (id !in Clean(rows, ids, now) <==> id in ids && Expired(rows[id], now))
    decreases |ids|
  {
    if ids != [] {
      CleanedRow(rows, ids[..|ids| - 1], now, id);
    }
  }

  /** A row that is not released stays with its owner, and what it has become is final. */
  ghost predicate Stays(row: Row, row': Row) {
    && row'.owner == row.owner && row'.fingerprint == row.fingerprint
    && (row.state.Complete? ==> row' == row || row'.state.Unreplayable?)
    && (row.state.Unreplayable? ==> row' == row)
  }

  lemma NotReleasedStays(vault: Vault, rows: Rows, step: Step, id: Key)
    requires id in rows && !Releases(vault, rows, step, id)
    ensures id in Apply(vault, rows, step) && Stays(rows[id], Apply(vault, rows, step)[id])
  {
    hide Accepted, Encoded, ValidRequest, Decode;
    if step.DoClean? {
      CleanedRow(rows, step.ids, step.now, id);
    }
  }

  /** Only a free key, or an expired completed one, is won, and the winner's claim is what is stored. */
  lemma WinnerHolds(vault: Vault, rows: Rows, step: Step, id: Key)
    requires Wins(vault, rows, step, id)
    ensures id !in rows || Expires(vault, rows, step, id)
    ensures id in Apply(vault, rows, step)
    ensures var row := Apply(vault, rows, step)[id];
            row.owner == step.request.owner && row.fingerprint == step.request.fingerprint && row.state.Pending?
  {
    hide ValidRequest;
  }

  /** An owner that no longer holds the row cannot change it, nor any other row. */
  lemma FencedOwnerChangesNothing(vault: Vault, rows: Rows, step: Step)
    requires step.DoDiscard? || step.DoFinish?
    requires step.request.id !in rows || rows[step.request.id].owner != step.request.owner
    ensures Apply(vault, rows, step) == rows
  {
    hide Accepted, Encoded, ValidRequest;
  }

  /** Until it expires, a row answers any other fingerprint with a conflict and does not change. */
  lemma OtherFingerprintConflicts(vault: Vault, rows: Rows, r: Request, now: int)
    requires ValidRequest(r) && r.id in rows && !Expired(rows[r.id], now) && rows[r.id].fingerprint != r.fingerprint
    ensures Begin(vault, rows, r, now) == (rows, Refused(FingerprintConflict))
  {
    hide ValidRequest;
  }

  // ---------------------------------------------------------------------- whole runs

  /** Between two steps without a release the row stays with its owner. */
  lemma {:induction false} HeldBetween(vault: Vault, steps: seq<Step>, start: nat, end: nat, id: Key)
    requires start <= end <= |steps| && id in Before(vault, steps, start)
    requires forall m | start <= m < end :: !Releases(vault, Before(vault, steps, m), steps[m], id)
    ensures id in Before(vault, steps, end) && Stays(Before(vault, steps, start)[id], Before(vault, steps, end)[id])
    decreases end - start
  {
    hide Apply, Before, Releases;
    if start < end {
      HeldBetween(vault, steps, start, end - 1, id);
      BeforeNext(vault, steps, end - 1);
      assert !Releases(vault, Before(vault, steps, end - 1), steps[end - 1], id);
      NotReleasedStays(vault, Before(vault, steps, end - 1), steps[end - 1], id);
    }
  }

  /**
   Single winner: between two `new` answers for a key there is a step that found
   the first winner's own row and either was its own discard or found its
   completed response expired.
   */
  lemma SingleWinner(vault: Vault, steps: seq<Step>, first: nat, second: nat, id: Key) returns (m: nat)
    requires first < second < |steps|
    requires Wins(vault, Before(vault, steps, first), steps[first], id)
    requires Wins(vault, Before(vault, steps, second), steps[second], id)
    ensures first < m <= second
    ensures Releases(vault, Before(vault, steps, m), steps[m], id)
    ensures Before(vault, steps, m)[id].owner == steps[first].request.owner
    ensures Before(vault, steps, m)[id].fingerprint == steps[first].request.fingerprint
  {
    hide Apply, Before, Begin, Wins, Releases;
    WinnerHolds(vault, Before(vault, steps, first), steps[first], id);
    BeforeNext(vault, steps, first);
    m := first + 1;
    while m < second && !Releases(vault, Before(vault, steps, m), steps[m], id)
      invariant first < m <= second
      invariant forall k | first < k < m :: !Releases(vault, Before(vault, steps, k), steps[k], id)
    {
      m := m + 1;
    }
    HeldBetween(vault, steps, first + 1, m, id);
    if m == second {
      WinnerHolds(vault, Before(vault, steps, second), steps[second], id);
      ExpiryReleases(vault, Before(vault, steps, second), steps[second], id);
    }
  }

  lemma ExpiryReleases(vault: Vault, rows: Rows, step: Step, id: Key)
    ensures Expires(vault, rows, step, id) ==> Releases(vault, rows, step, id)
  {
  }

  lemma UnreplayableNotReleased(vault: Vault, rows: Rows, step: Step, id: Key)
    requires id in rows && rows[id].state.Unreplayable?
    ensures !Releases(vault, rows, step, id)
  {
  }

  /** An unreplayable row is never reclaimed. */
  lemma {:induction false} UnreplayableForever(vault: Vault, steps: seq<Step>, start: nat, end: nat, id: Key)
    requires start <= end <= |steps| && id in Before(vault, steps, start)
             && Before(vault, steps, start)[id].state.Unreplayable?
    ensures id in Before(vault, steps, end) && Before(vault, steps, end)[id] == Before(vault, steps, start)[id]
    decreases end - start
  {
    hide Apply, Before, Releases;
    if start < end {
      UnreplayableForever(vault, steps, start, end - 1, id);
      BeforeNext(vault, steps, end - 1);
      UnreplayableNotReleased(vault, Before(vault, steps, end - 1), steps[end - 1], id);
      NotReleasedStays(vault, Before(vault, steps, end - 1), steps[end - 1], id);
    }
  }

  // ------------------------------------------------------------------------- replays

  /** The row holds the sealed response of one finish of this run, and nothing has released it since. */
  ghost predicate Finished(vault: Vault, steps: seq<Step>, n: nat, id: Key, at: nat, response: Response)
    requires n <= |steps|
  {
    && at < n && id in Before(vault, steps, n) && Completes(vault, Before(vault, steps, at), steps[at], id, response)
    && (forall m | at < m < n :: !Releases(vault, Before(vault, steps, m), steps[m], id))
    && var row := Before(vault, steps, n)[id];
       && row.fingerprint == steps[at].request.fingerprint
       && Some(row.state) == (match Sealed(vault, steps[at].request, response, steps[at].nonce)
                              case None => None
                              case Some(envelope) => Some(Complete(envelope)))
  }

  /** Every completed row was completed by its owner's finish. */
  lemma {:induction false} CompleteWasFinished(vault: Vault, steps: seq<Step>, n: nat, id: Key)
    returns (at: nat, response: Response)
    requires n <= |steps| && id in Before(vault, steps, n) && Before(vault, steps, n)[id].state.Complete?
    ensures Finished(vault, steps, n, id, at, response)
    decreases n
  {
    hide Before, Apply, Releases, Completes, Sealed;
    EmptyAtFirst(vault, steps);
    var last := n - 1;
    BeforeNext(vault, steps, last);
    var rows := Before(vault, steps, last);
    if id in rows && rows[id].state.Complete? {
      at, response := CompleteWasFinished(vault, steps, last, id);
      CompleteStays(vault, rows, steps[last], id);
    } else {
      CompletedNow(vault, rows, steps[last], id);
      at, response := last, steps[last].response.value;
    }
  }

  lemma EmptyAtFirst(vault: Vault, steps: seq<Step>)
    ensures Before(vault, steps, 0) == map[]
  {
  }

  lemma CompleteStays(vault: Vault, rows: Rows, step: Step, id: Key)
    requires id in rows && rows[id].state.Complete? && id in Apply(vault, rows, step)
             && Apply(vault, rows, step)[id].state.Complete?
    ensures !Releases(vault, rows, step, id) && Apply(vault, rows, step)[id] == rows[id]
  {
    hide Accepted, Encoded, ValidRequest, Decode;
    if step.DoClean? {
      CleanedRow(rows, step.ids, step.now, id);
    }
  }

  lemma CompletedNow(vault: Vault, rows: Rows, step: Step, id: Key)
    requires id !in rows || !rows[id].state.Complete?
    requires id in Apply(vault, rows, step) && Apply(vault, rows, step)[id].state.Complete?
    ensures step.DoFinish? && step.response.Some? && Completes(vault, rows, step, id, step.response.value)
    ensures var sealed := Sealed(vault, step.request, step.response.value, step.nonce);
            sealed.Some? && Apply(vault, rows, step)[id].state == Complete(sealed.value)
    ensures Apply(vault, rows, step)[id].fingerprint == step.request.fingerprint
  {
    hide Accepted, Encoded, ValidRequest, Decode;
    if step.DoClean? {
      CleanedRow(rows, step.ids, step.now, id);
    }
  }

  /**
   Replay fidelity: a replayed response is the one that the row's owner first
   finished with, under the same fingerprint, in a row not released since and not
   expired.
   */
  lemma ReplayIsFaithful(vault: Vault, steps: seq<Step>, n: nat, replayed: Response) returns (at: nat)
    requires Lawful(vault) && n < |steps| && steps[n].DoBegin?
    requires Begin(vault, Before(vault, steps, n), steps[n].request, steps[n].now).1 == Replay(replayed)
    ensures at < n && Completes(vault, Before(vault, steps, at), steps[at], steps[n].request.id, replayed)
    ensures steps[at].request.fingerprint == steps[n].request.fingerprint
    ensures forall m | at < m < n :: !Releases(vault, Before(vault, steps, m), steps[m], steps[n].request.id)
    ensures !Expired(Before(vault, steps, n)[steps[n].request.id], steps[n].now)
  {
    hide Before, Releases, Completes, ValidRequest;
    var rows, r := Before(vault, steps, n), steps[n].request;
    ReplayedRow(vault, rows, r, steps[n].now, replayed);
    var response;
    at, response := CompleteWasFinished(vault, steps, n, r.id);
    CompletesAccepted(vault, Before(vault, steps, at), steps[at], r.id, response);
    OpensTo(vault, steps[at].request, response, steps[at].nonce);
  }

  lemma ReplayedRow(vault: Vault, rows: Rows, r: Request, now: int, replayed: Response)
    requires Begin(vault, rows, r, now).1 == Replay(replayed)
    ensures r.id in rows && !Expired(rows[r.id], now) && rows[r.id].fingerprint == r.fingerprint
            && rows[r.id].state.Complete?
    ensures var plain := vault.open(r.id, r.fingerprint, rows[r.id].state.envelope);
            plain.Some? && Decode(plain.value) == Some(replayed)
  {
    hide ValidRequest, Decode;
  }

  lemma CompletesAccepted(vault: Vault, rows: Rows, step: Step, id: Key, response: Response)
    requires Completes(vault, rows, step, id, response)
    ensures step.DoFinish? && step.request.id == id && Accepted(response)
  {
  }

  /** A sealed response opens to bytes that decode to it. */
  lemma OpensTo(vault: Vault, r: Request, response: Response, nonce: Bytes)
    requires Lawful(vault) && Accepted(response) && Sealed(vault, r, response, nonce).Some?
    ensures var plain := vault.open(r.id, r.fingerprint, Sealed(vault, r, response, nonce).value);
            plain.Some? && Decode(plain.value) == Some(response)
  {
    RoundTrip(response);
  }

  lemma DamagedRow(vault: Vault, rows: Rows, r: Request, now: int)
    requires Begin(vault, rows, r, now).1 == Damaged
    ensures r.id in rows && rows[r.id].state.Complete? && rows[r.id].fingerprint == r.fingerprint
    ensures var plain := vault.open(r.id, r.fingerprint, rows[r.id].state.envelope);
            plain.None? || Decode(plain.value).None?
  {
    hide ValidRequest, Decode;
  }

  /** With a lawful vault no stored response is ever damaged: begin never marks a row unreplayable. */
  lemma NeverDamaged(vault: Vault, steps: seq<Step>, n: nat)
    requires Lawful(vault) && n < |steps| && steps[n].DoBegin?
    ensures Begin(vault, Before(vault, steps, n), steps[n].request, steps[n].now).1 != Damaged
  {
    hide Before, Releases, Completes, Begin, Decode, Lawful, Accepted;
    var rows, r := Before(vault, steps, n), steps[n].request;
    if Begin(vault, rows, r, steps[n].now).1 == Damaged {
      DamagedRow(vault, rows, r, steps[n].now);
      var at, response := CompleteWasFinished(vault, steps, n, r.id);
      CompletesAccepted(vault, Before(vault, steps, at), steps[at], r.id, response);
      OpensTo(vault, steps[at].request, response, steps[at].nonce);
    }
  }
}
