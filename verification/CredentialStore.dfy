/**
 Stored credentials and the refresh fence: a row per connection with the current
 record, the intent of an unresolved refresh, and the refresh status.
 */
module CredentialStore {
  import opened Basics

  datatype Identity = Identity(
    tenant: string, connection: string, credential: string, account: string, provider: string, version: Int64)

  datatype Record = Record(identity: Identity, envelope: string, status: string)
  datatype Intent = Intent(identity: Identity, attempt: string, fence: string, leaseUntil: int)
  datatype Lifecycle = Completed | Pending | ReauthRequired
  datatype Credential = Credential(record: Record, intent: Option<Intent>, lifecycle: Lifecycle)

  datatype Key = Key(tenant: string, connection: string)
  datatype Row = Row(version: int, credential: Credential)
  type Rows = map<Key, Row>

  datatype Error = Conflict | Reauth | Invalid | NotFound
  datatype Loaded = Loaded(record: Record) | Unusable(error: Error)

  function KeyOf(i: Identity): (k: Key) { Key(i.tenant, i.connection) }

  predicate Named(i: Identity) {
    i.tenant != "" && i.connection != "" && i.credential != "" && i.account != "" && i.provider != ""
  }

  predicate Refreshable(i: Identity) { Named(i) && 1 <= i.version < MAX_INT64 }

  predicate Active(status: string) { status == "" || status == "active" }

  /** A refresh was begun and has not been resolved by an install. */
  predicate Unresolved(c: Credential) { c.intent.Some? || c.lifecycle != Completed }

  function Write(rows: Rows, k: Key, c: Credential): (r: Rows)
    requires k in rows
  {
    rows[k := Row(rows[k].version + 1, c)]
  }

  function LoadUsable(rows: Rows, k: Key): (r: Loaded) {
    if k !in rows then Unusable(NotFound)
    else
      var c := rows[k].credential;
      if KeyOf(c.record.identity) != k then Unusable(Invalid)
      else if Unresolved(c) then Unusable(Reauth)
      else if !Active(c.record.status) then Unusable(Invalid)
      else Loaded(c.record)
  }

  /** Installs a secret by explicit authentication; it supersedes an unresolved refresh. */
  function Put(rows: Rows, r: Record, expected: int): (out: (Rows, Option<Error>)) {
    var k := KeyOf(r.identity);
    if expected < 0 || expected == MAX_INT64 || !Named(r.identity) || r.identity.version != expected + 1
        then (rows, Some(Conflict))
    else if k !in rows then
      if expected == 0 then (rows[k := Row(1, Credential(r, None, Completed))], None) else (rows, Some(NotFound))
    else
      var current := rows[k].credential.record.identity;
      if current.version != expected || current.(version := r.identity.version) != r.identity
          then (rows, Some(Conflict))
      else (Write(rows, k, Credential(r, None, Completed)), None)
  }

  /** Re-encrypts the same secret; refused while a refresh is unresolved. */
  function Rewrap(rows: Rows, r: Record, expected: int): (out: (Rows, Option<Error>)) {
    var k := KeyOf(r.identity);
    if expected < 1 || expected == MAX_INT64 || r.identity.version != expected + 1 then (rows, Some(Conflict))
    else if k !in rows then (rows, Some(NotFound))
    else
      var c := rows[k].credential;
      if Unresolved(c) || c.record.status == "reauth_required" then (rows, Some(Reauth))
      else if c.record.identity.version != expected || c.record.identity.(version := r.identity.version) != r.identity
              || r.status != c.record.status then (rows, Some(Conflict))
      else (Write(rows, k, c.(record := r)), None)
  }

  /** Takes the refresh fence. */
  function TakeFence(rows: Rows, i: Intent, now: int): (out: (Rows, Option<Error>)) {
    var k := KeyOf(i.identity);
    if !Refreshable(i.identity) || i.attempt == "" || i.fence == "" || i.leaseUntil <= now then (rows, Some(Conflict))
    else if k !in rows then (rows, Some(NotFound))
    else
      var c := rows[k].credential;
      if c.record.identity != i.identity then (rows, Some(Conflict))
      else if Unresolved(c) || !Active(c.record.status) then (rows, Some(Reauth))
      else (Write(rows, k, Credential(c.record, Some(i), Pending)), None)
  }

  predicate Matches(c: Credential, i: Intent) {
    && c.record.identity == i.identity && c.intent.Some? && c.intent.value.identity == i.identity
    && c.intent.value.attempt == i.attempt && c.intent.value.fence == i.fence && c.lifecycle == Pending
  }

  /** Installs the refreshed secret, if the intent still holds the fence and its lease. */
  function InstallRefreshed(rows: Rows, i: Intent, r: Record, now: int): (out: (Rows, Option<Error>)) {
    var k := KeyOf(i.identity);
    if !Refreshable(i.identity) || r.status != "active" then (rows, Some(Conflict))
    else if k !in rows then (rows, Some(NotFound))
    else
      var c := rows[k].credential;
      if !Matches(c, i) || !Active(c.record.status) || r.identity != i.identity.(version := i.identity.version + 1)
         || c.intent.value.leaseUntil <= now then (rows, Some(Conflict))
      else (Write(rows, k, Credential(r, None, Completed)), None)
  }

  /** Records an ambiguous or rejected refresh; the intent stays. */
  function MarkFailed(rows: Rows, i: Intent): (out: (Rows, Option<Error>)) {
    var k := KeyOf(i.identity);
    if k !in rows then (rows, Some(NotFound))
    else
      var c := rows[k].credential;
      if !Matches(c, i) then (rows, Some(Conflict))
      else (Write(rows, k, Credential(c.record.(status := "reauth_required"), c.intent, ReauthRequired)), None)
  }

  // --------------------------------------------------------------------------- class

  class Store {
    var rows: Rows

    constructor ()
      ensures rows == map[]
    {
      rows := map[];
    }

    /** The compare-and-swap under every update: insert at version zero, else replace the version read. */
    method DurablePut(k: Key, version: int, c: Credential) returns (e: Option<Error>)
      modifies `rows
      ensures if version == 0 then
                (if k in old(rows) then e == Some(Conflict) && rows == old(rows)
                    else e == None && rows == old(rows)[k := Row(1, c)])
              else if k in old(rows) && old(rows)[k].version == version
                  then e == None && rows == old(rows)[k := Row(version + 1, c)]
              else e == Some(Conflict) && rows == old(rows)
    {
      if version == 0 {
        if k in rows { return Some(Conflict); }
        rows := rows[k := Row(1, c)];
        return None;
      }
      if k !in rows || rows[k].version != version { return Some(Conflict); }
      rows := rows[k := Row(version + 1, c)];
      return None;
    }

    /** Stored versions start at one. */
    ghost predicate Valid()
      reads this
    {
      forall k | k in rows :: rows[k].version >= 1
    }

    method LoadUsableCredential(k: Key) returns (r: Loaded)
      ensures r == LoadUsable(rows, k)
    {
      if k !in rows { return Unusable(NotFound); }
      var c := rows[k].credential;
      if c.record.identity.tenant != k.tenant || c.record.identity.connection != k.connection {
        return Unusable(Invalid);
      }
      if c.intent.Some? || c.lifecycle == Pending || c.lifecycle == ReauthRequired { return Unusable(Reauth); }
      if c.record.status != "" && c.record.status != "active" { return Unusable(Invalid); }
      return Loaded(c.record);
    }

    method PutCredential(r: Record, expected: int) returns (e: Option<Error>)
      requires Valid()
      modifies `rows
      ensures Valid() && (rows, e) == Put(old(rows), r, expected)
    {
      if expected < 0 || expected == MAX_INT64 || !Named(r.identity) || r.identity.version != expected + 1 {
        return Some(Conflict);
      }
      var k := KeyOf(r.identity);
      if k !in rows {
        if expected != 0 { return Some(NotFound); }
        e := DurablePut(k, 0, Credential(r, None, Completed));
        return;
      }
      var current := rows[k].credential.record.identity;
      if current.version != expected { return Some(Conflict); }
      if current.tenant != r.identity.tenant || current.connection != r.identity.connection
          || current.credential != r.identity.credential
         || current.account != r.identity.account || current.provider != r.identity.provider { return Some(Conflict); }
      e := DurablePut(k, rows[k].version, Credential(r, None, Completed));
    }

    method RewrapCredential(r: Record, expected: int) returns (e: Option<Error>)
      requires Valid()
      modifies `rows
      ensures Valid() && (rows, e) == Rewrap(old(rows), r, expected)
    {
      if expected < 1 || expected == MAX_INT64 || r.identity.version != expected + 1 { return Some(Conflict); }
      var k := KeyOf(r.identity);
      if k !in rows { return Some(NotFound); }
      var c := rows[k].credential;
      if c.intent.Some? || c.lifecycle == Pending || c.lifecycle == ReauthRequired
          || c.record.status == "reauth_required" {
        return Some(Reauth);
      }
      var next := c.record.identity;
      if next.version != expected { return Some(Conflict); }
      next := next.(version := next.version + 1);
      if next != r.identity || r.status != c.record.status { return Some(Conflict); }
      e := DurablePut(k, rows[k].version, c.(record := r));
    }

    method BeginRefresh(i: Intent, now: int) returns (e: Option<Error>)
      requires Valid()
      modifies `rows
      ensures Valid() && (rows, e) == TakeFence(old(rows), i, now)
    {
      if !Refreshable(i.identity) || i.attempt == "" || i.fence == "" || i.leaseUntil <= now { return Some(Conflict); }
      var k := KeyOf(i.identity);
      if k !in rows { return Some(NotFound); }
      var c := rows[k].credential;
      if c.record.identity != i.identity { return Some(Conflict); }
      if c.intent.Some? || c.lifecycle == Pending || c.lifecycle == ReauthRequired || !Active(c.record.status) {
        return Some(Reauth);
      }
      e := DurablePut(k, rows[k].version, c.(intent := Some(i), lifecycle := Pending));
    }

    method CommitRefresh(i: Intent, r: Record, now: int) returns (e: Option<Error>)
      requires Valid()
      modifies `rows
      ensures Valid() && (rows, e) == InstallRefreshed(old(rows), i, r, now)
    {
      if !Refreshable(i.identity) || r.status != "active" { return Some(Conflict); }
      var k := KeyOf(i.identity);
      if k !in rows { return Some(NotFound); }
      var c := rows[k].credential;
      var next := i.identity.(version := i.identity.version + 1);
      if !Matches(c, i) || !Active(c.record.status) || r.identity != next || c.intent.value.leaseUntil <= now {
        return Some(Conflict);
      }
      e := DurablePut(k, rows[k].version, Credential(r, None, Completed));
    }

    method FailRefresh(i: Intent) returns (e: Option<Error>)
      requires Valid()
      modifies `rows
      ensures Valid() && (rows, e) == MarkFailed(old(rows), i)
    {
      var k := KeyOf(i.identity);
      if k !in rows { return Some(NotFound); }
      var c := rows[k].credential;
      if !Matches(c, i) { return Some(Conflict); }
      e := DurablePut(k, rows[k].version,
          c.(lifecycle := ReauthRequired, record := c.record.(status := "reauth_required")));
    }
  }
}
