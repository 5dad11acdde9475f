/**
 The idempotency records: one row per tenant, subject and key, claimed by one
 owner, finished once, and reclaimed only after a completed response has expired.
 Hashes are taken as injective, so keys and fingerprints stand for themselves;
 sealing is an inverse pair.
 */
module IdempotencyStore {
  import opened Basics
  import opened HeaderText
  import opened IdempotencyCodec

  const MAX_COORDINATE := 512
  const MAX_KEY := 256
  const MAX_FINGERPRINT := 4096
  const MAX_OWNER := 512
  const RETENTION := 24 * 3600

  datatype Key = Key(tenant: Bytes, subject: Bytes, key: Bytes)
  datatype Request = Request(id: Key, fingerprint: Bytes, owner: Bytes, expires: Option<int>)

  datatype Envelope = Envelope(keyId: string, nonce: Bytes, ciphertext: Bytes)
  datatype RowState = Pending | Complete(envelope: Envelope) | Unreplayable
  datatype Row = Row(fingerprint: Bytes, owner: Bytes, state: RowState, expires: int)

  type Rows = map<Key, Row>

  /** Sealing binds a response to its row's key and fingerprint; a nonce is drawn for every call. */
  datatype Vault = Vault(seal: (Key, Bytes, Bytes, Bytes) -> Option<Envelope>,
      open: (Key, Bytes, Envelope) -> Option<Bytes>)

  ghost predicate Lawful(vault: Vault) {
    forall id, fingerprint, nonce, plain ::
      var sealed := vault.seal(id, fingerprint, nonce, plain);
      sealed.Some? ==> vault.open(id, fingerprint, sealed.value) == Some(plain)
  }

  datatype Error = Invalid | FingerprintConflict | NotFound | OwnerFenced | NotReplayable

  datatype Answer = New | InProgress | Gone | Damaged | Replay(response: Response) | Refused(error: Error)

  predicate ValidText(b: Bytes, limit: nat) {
    b != [] && |b| <= limit && Utf8(b) && 0x00 !in b && Trim(b) != []
  }

  predicate ValidRequest(r: Request) {
    && ValidText(r.id.tenant, MAX_COORDINATE) && ValidText(r.id.subject, MAX_COORDINATE) && ValidText(r.id.key, MAX_KEY)
    && ValidText(r.fingerprint, MAX_FINGERPRINT) && ValidText(r.owner, MAX_OWNER) && r.expires.Some?
  }

  // -------------------------------------------------------------------- transactions

  predicate Expired(row: Row, now: int) { row.state.Complete? && row.expires <= now }

  function Min(a: int, b: int): (r: int) { if a <= b then a else b }

  /** The claim a new owner writes. */
  function Claimed(r: Request, now: int): (row: Row)
    requires r.expires.Some?
  {
    Row(r.fingerprint, r.owner, Pending, Min(r.expires.value, now + RETENTION))
  }

  /** A free key, or one whose completed response has expired, goes to the caller. */
  function Begin(vault: Vault, rows: Rows, r: Request, now: int): (out: (Rows, Answer)) {
    if !ValidRequest(r) then (rows, Refused(Invalid))
    else if r.id !in rows || Expired(rows[r.id], now) then
      if r.expires.value <= now then (rows, Refused(Invalid)) else (rows[r.id := Claimed(r, now)], New)
    else
      var row := rows[r.id];
      if row.fingerprint != r.fingerprint then (rows, Refused(FingerprintConflict))
      else match row.state
        case Pending => (rows, InProgress)
        case Unreplayable => (rows, Gone)
        case Complete(envelope) =>
          var plain := vault.open(r.id, r.fingerprint, envelope);
          var response := if plain.Some? then Decode(plain.value) else None;
          if response.Some? then (rows, Replay(response.value))
          else (rows[r.id := row.(state := Unreplayable)], Damaged)
  }

  /** Frees a pending claim of the same owner; anything else stays. */
  function Discard(rows: Rows, r: Request): (out: (Rows, Option<Error>)) {
    if !ValidRequest(r) then (rows, Some(Invalid))
    else if r.id in rows && rows[r.id].owner == r.owner && rows[r.id].state.Pending? then (rows - {r.id}, None)
    else (rows, None)
  }

  /** The sealed form of the response to store; nothing for an unreplayable outcome. */
  ghost function Sealed(vault: Vault, r: Request, response: Response, nonce: Bytes): Option<Envelope> {
    if Accepted(response) then vault.seal(r.id, r.fingerprint, nonce, Encoded(response)) else None
  }

  /** Records the outcome of the owner's own pending claim, once. */
  function Record(rows: Rows, r: Request, outcome: RowState, now: int): (out: (Rows, Option<Error>)) {
    if r.id !in rows then (rows, Some(NotFound))
    else
      var row := rows[r.id];
      if row.fingerprint != r.fingerprint then (rows, Some(FingerprintConflict))
      else if row.owner != r.owner then (rows, Some(OwnerFenced))
      else match row.state
        case Complete(_) => (rows, None)
        case Unreplayable => (rows, Some(NotReplayable))
        case Pending =>
          (rows[r.id := row.(state := outcome, expires := if outcome.Complete? then now + RETENTION else row.expires)],
              None)
  }

  ghost function Finish(vault: Vault, rows: Rows, r: Request, response: Option<Response>, nonce: Bytes, now: int)
    : (Rows, Option<Error>)
  {
    if !ValidRequest(r) then (rows, Some(Invalid))
    else if response.None? then Record(rows, r, Unreplayable, now)
    else
      var sealed := Sealed(vault, r, response.value, nonce);
      if sealed.None? then (rows, Some(Invalid)) else Record(rows, r, Complete(sealed.value), now)
  }

  function CleanOne(rows: Rows, id: Key, now: int): (r: Rows) {
    if id in rows && Expired(rows[id], now) then rows - {id} else rows
  }

  /** Removes expired completed rows, among those a maintenance pass looks at. */
  function Clean(rows: Rows, ids: seq<Key>, now: int): (r: Rows) {
    if ids == [] then rows else CleanOne(Clean(rows, ids[..|ids| - 1], now), ids[|ids| - 1], now)
  }

  // --------------------------------------------------------------------------- class

  class Store {
    const vault: Vault
    var rows: Rows

    constructor (vault: Vault)
      ensures rows == map[] && this.vault == vault
    {
      this.vault := vault;
      rows := map[];
    }

    method BeginIdempotency(r: Request, now: int) returns (answer: Answer)
      modifies `rows
      ensures (rows, answer) == Begin(vault, old(rows), r, now)
    {
      if !ValidRequest(r) { return Refused(Invalid); }
      if r.id in rows && rows[r.id].state.Complete? && rows[r.id].expires <= now {
        if r.expires.value <= now { return Refused(Invalid); }
        rows := rows - {r.id};
        answer := Claim(r, now);
        assert rows == old(rows)[r.id := Claimed(r, now)];
        return;
      }
      if r.id !in rows {
        if r.expires.value <= now { return Refused(Invalid); }
        answer := Claim(r, now);
        return;
      }
      var row := rows[r.id];
      if row.fingerprint != r.fingerprint { return Refused(FingerprintConflict); }
      match row.state {
        case Pending => return InProgress;
        case Unreplayable => return Gone;
        case Complete(envelope) =>
          var plain := vault.open(r.id, r.fingerprint, envelope);
          if plain.Some? {
            var response := DecodeResponse(plain.value);
            if response.Some? { return Replay(response.value); }
          }
          rows := rows[r.id := row.(state := Unreplayable)];
          return Damaged;
      }
    }

    method Claim(r: Request, now: int) returns (answer: Answer)
      requires r.expires.Some? && r.id !in rows
      modifies `rows
      ensures rows == old(rows)[r.id := Claimed(r, now)] && answer == New
    {
      var expires := r.expires.value;
      if expires > now + RETENTION { expires := now + RETENTION; }
      rows := rows[r.id := Row(r.fingerprint, r.owner, Pending, expires)];
      return New;
    }

    method DiscardIdempotency(r: Request) returns (e: Option<Error>)
      modifies `rows
      ensures (rows, e) == Discard(old(rows), r)
    {
      if !ValidRequest(r) { return Some(Invalid); }
      if r.id !in rows { return None; }
      if rows[r.id].owner != r.owner || !rows[r.id].state.Pending? { return None; }
      rows := rows - {r.id};
      return None;
    }

    method FinishIdempotency(r: Request, response: Option<Response>, nonce: Bytes, now: int) returns (e: Option<Error>)
      modifies `rows
      ensures (rows, e) == Finish(vault, old(rows), r, response, nonce, now)
    {
      hide Accepted, Encoded, ValidRequest;
      if !ValidRequest(r) { return Some(Invalid); }
      var outcome := Unreplayable;
      if response.Some? {
        var plain := EncodeResponse(response.value);
        if plain.None? { return Some(Invalid); }
        var sealed := vault.seal(r.id, r.fingerprint, nonce, plain.value);
        if sealed.None? { return Some(Invalid); }
        outcome := Complete(sealed.value);
      }
      if r.id !in rows { return Some(NotFound); }
      var row := rows[r.id];
      if row.fingerprint != r.fingerprint { return Some(FingerprintConflict); }
      if row.owner != r.owner { return Some(OwnerFenced); }
      match row.state {
        case Complete(_) => return None;
        case Unreplayable => return Some(NotReplayable);
        case Pending =>
          rows := rows[r.id := row.(state := outcome,
              expires := if outcome.Complete? then now + RETENTION else row.expires)];
          return None;
      }
    }

    method CleanupIdempotency(ids: seq<Key>, now: int)
      modifies `rows
      ensures rows == Clean(old(rows), ids, now)
    {
      for i := 0 to |ids|
        invariant rows == Clean(old(rows), ids[..i], now)
      {
        assert ids[..i + 1][..i] == ids[..i];
        if ids[i] in rows && Expired(rows[ids[i]], now) {
          rows := rows - {ids[i]};
        }
      }
      assert ids[..|ids|] == ids;
    }
  }
}
