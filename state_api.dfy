/**
 * The versioned key-value state service: a table of records keyed by name,
 * where each write bumps the key's version and keeps the time the key was
 * created, and the mapping of its errors onto HTTP responses.
 *
 * The table is a map; timestamps are whole seconds and the current time is
 * passed in as `now`.
 */
module StateApi {
  import opened Common

  type Bytes = seq<bv8>

  /** One stored record. */
  datatype KeyValue = KeyValue(key: string, value: Bytes, version: int, created_at: int, updated_at: int)

  /** The body of every response. */
  datatype ApiResponse<T> = ApiResponse(success: bool, data: Option<T>, error: Option<string>)

  /** The service's errors; a database error carries the database's own message. */
  datatype StateError = Database(cause: string) | NotFound(key: string) | Internal(message: string)

  /**
   * The display text of an error: a prefix naming the kind of error, then
   * its payload. Only a missing key's text starts with "Key not found: ".
   */
  function ErrorText(e: StateError): (r: string)
    ensures e.NotFound? <==> |r| >= 15 && r[..15] == "Key not found: "
    ensures e.NotFound? ==> r[15..] == e.key
  {
    match e
    case Database(cause) =>
      var r := "Database error: " + cause;
      assert r[0] == 'D';
      r
    case NotFound(key) => "Key not found: " + key
    case Internal(message) =>
      var r := "Internal error: " + message;
      assert r[0] == 'I';
      r
  }

  const NotFoundStatus: nat := 404
  const InternalServerErrorStatus: nat := 500

  /** An HTTP response carrying an error body. */
  datatype ErrorResponse = ErrorResponse(status: nat, body: ApiResponse<()>)

  /**
   * `into_response`: a missing key is a 404 naming the key; anything else is
   * a 500, and a database error's own message is replaced by a fixed text.
   * The body always reports failure and carries no data.
   */
  function IntoResponse(e: StateError): (r: ErrorResponse)
    ensures r.status == NotFoundStatus <==> e.NotFound?
    ensures r.status == InternalServerErrorStatus <==> !e.NotFound?
    ensures !r.body.success && r.body.data.None? && r.body.error.Some?
    ensures e.Database? ==> r.body.error == Some("Database error")
    ensures !e.Database? ==> r.body.error == Some(ErrorText(e))
  {
    var (status, message) :=
      match e
      case NotFound(_) => (NotFoundStatus, ErrorText(e))
      case Database(_) => (InternalServerErrorStatus, "Database error")
      case Internal(_) => (InternalServerErrorStatus, ErrorText(e));
    ErrorResponse(status, ApiResponse(false, None, Some(message)))
  }

  /** A database error's response never depends on the database's message. */
  lemma DatabaseCauseHidden(c1: string, c2: string)
    ensures IntoResponse(Database(c1)) == IntoResponse(Database(c2))
  {
  }

  /** Two missing keys give the same response only if they are the same key. */
  lemma NotFoundNamesKey(k1: string, k2: string)
    requires IntoResponse(NotFound(k1)) == IntoResponse(NotFound(k2))
    ensures k1 == k2
  {
    var p := "Key not found: ";
    assert (p + k1)[|p|..] == k1 && (p + k2)[|p|..] == k2;
  }

  // ---------------------------------------------------------------------
  // The table as a value
  // ---------------------------------------------------------------------

  type Table = map<string, KeyValue>

  /** Every stored record is filed under its own key and has been written at least once. */
  predicate WellFormed(t: Table)
  {
    forall k :: k in t ==> t[k].key == k && t[k].version >= 1
  }

  /** The version a write of `key` stores: one more than the stored one, or 1 for a new key. */
  function NextVersion(t: Table, key: string): (v: int)
    requires WellFormed(t)
    ensures v >= 1
    ensures key !in t ==> v == 1
    ensures key in t ==> v == t[key].version + 1
  {
    if key in t then t[key].version + 1 else 1
  }

  /**
   * The table after a write (the insert-or-update of the source): value,
   * version and update time are replaced, the creation time of an existing
   * row is kept, and no other key changes.
   */
  function Upsert(t: Table, key: string, value: Bytes, now: int): (t': Table)
    requires WellFormed(t)
    ensures WellFormed(t')
    ensures t'.Keys == t.Keys + {key}
    ensures t'[key].value == value && t'[key].version == NextVersion(t, key) && t'[key].updated_at == now
    ensures t'[key].created_at == if key in t then t[key].created_at else now
    ensures forall k :: k in t && k != key ==> t'[k] == t[k]
  {
    var created := if key in t then t[key].created_at else now;
    t[key := KeyValue(key, value, NextVersion(t, key), created, now)]
  }

  /** One change to the table. */
  datatype Op = Put(key: string, value: Bytes, now: int) | Delete(key: string)

  /** The table after one change. */
  function Apply(t: Table, op: Op): (t': Table)
    requires WellFormed(t)
    ensures WellFormed(t')
  {
    match op
    case Put(key, value, now) => Upsert(t, key, value, now)
    case Delete(key) => t - {key}
  }

  /** The table after a sequence of changes, oldest first. */
  function Replay(t: Table, ops: seq<Op>): (t': Table)
    requires WellFormed(t)
    ensures WellFormed(t')
    decreases |ops|
  {
    if ops == [] then t else Replay(Apply(t, ops[0]), ops[1..])
  }

  /** The number of writes of `key` since its last deletion, or -1 if the history never touches it. */
  function WritesSinceDelete(ops: seq<Op>, key: string): int
  {
    if ops == [] then -1
    else
      var earlier := WritesSinceDelete(ops[..|ops| - 1], key);
      var last := ops[|ops| - 1];
      if last.key != key then earlier
      else if last.Delete? then 0
      else if earlier < 0 then 1
      else earlier + 1
  }

  lemma ReplaySnoc(t: Table, ops: seq<Op>, op: Op)
    requires WellFormed(t)
    ensures Replay(t, ops + [op]) == Apply(Replay(t, ops), op)
    decreases |ops|
  {
    if ops != [] {
      assert (ops + [op])[1..] == ops[1..] + [op];
      ReplaySnoc(Apply(t, ops[0]), ops[1..], op);
    }
  }

  /**
   * Starting from an empty table, a key is stored exactly when it has been
   * written since its last deletion, and its version is the number of those
   * writes: versions restart at 1 after a delete.
   */
  lemma {:induction false} VersionCountsWrites(ops: seq<Op>, key: string)
    ensures var t := Replay(map[], ops);
            && (key in t <==> WritesSinceDelete(ops, key) > 0)
            && (key in t ==> t[key].version == WritesSinceDelete(ops, key))
    decreases |ops|
  {
    if ops != [] {
      var init := ops[..|ops| - 1];
      var last := ops[|ops| - 1];
      assert ops == init + [last];
      VersionCountsWrites(init, key);
      ReplaySnoc(map[], init, last);
      var t := Replay(map[], init);
      assert WritesSinceDelete(init, key) == 0 ==> key !in t;
    }
  }

  // ---------------------------------------------------------------------
  // The state manager
  // ---------------------------------------------------------------------

  /** The state manager: the stored table, changed in place by writes and deletions. */
  class StateManager {
    var table: Table

    ghost predicate Valid()
      reads this
    {
      WellFormed(table)
    }

    /**
     * A manager opened over a database: the rows already stored there (none
     * for a fresh file) are its initial table.
     */
    constructor (initial: Table)
      requires WellFormed(initial)
      ensures Valid() && table == initial
    {
      table := initial;
    }

    /** `get`: the stored record for `key`, if any. */
    function Get(key: string): (r: Option<KeyValue>)
      reads this
      requires Valid()
      ensures r.None? <==> key !in table
      ensures r.Some? ==> r.value == table[key] && r.value.key == key && r.value.version >= 1
    {
      if key in table then Some(table[key]) else None
    }

    /** `get_value`: a successful response carrying the record, or NotFound naming the key when there is none. */
    function GetValue(key: string): (r: Result<ApiResponse<KeyValue>, StateError>)
      reads this
      requires Valid()
      ensures r.Err? <==> key !in table
      ensures r.Err? ==> r.error == NotFound(key) && IntoResponse(r.error).status == NotFoundStatus
      ensures r.Ok? ==> r.value == ApiResponse(true, Some(table[key]), None)
    {
      match Get(key)
      case Some(kv) => Ok(ApiResponse(true, Some(kv), None))
      case None => Err(NotFound(key))
    }

    /**
     * `put`: stores the value with the next version. The stored row keeps
     * its creation time, while the returned record reports `now` for both times.
     */
    method Put(key: string, value: Bytes, now: int) returns (kv: KeyValue)
      requires Valid()
      modifies this
      ensures Valid()
      ensures table == Upsert(old(table), key, value, now)
      ensures kv == KeyValue(key, value, NextVersion(old(table), key), now, now)
      ensures Get(key).Some? && Get(key).value.value == value && Get(key).value.version == kv.version
    {
      var currentVersion := if key in table then table[key].version else 0;
      var newVersion := currentVersion + 1;
      table := Upsert(table, key, value, now);
      kv := KeyValue(key, value, newVersion, now, now);
    }

    /** `delete`: removes the key's row and reports whether there was one. */
    method Delete(key: string) returns (deleted: bool)
      requires Valid()
      modifies this
      ensures Valid()
      ensures deleted <==> key in old(table)
      ensures table == old(table) - {key}
      ensures Get(key).None?
    {
      deleted := key in table;
      table := table - {key};
    }

    /** `list`: every stored key, each once, in no particular order. */
    method List() returns (keys: seq<string>)
      requires Valid()
      ensures forall k :: k in keys <==> k in table
      ensures forall i, j :: 0 <= i < j < |keys| ==> keys[i] != keys[j]
      ensures |keys| == |table|
    {
      keys := [];
      var remaining := table.Keys;
      while remaining != {}
        invariant remaining <= table.Keys
        invariant forall k :: k in keys <==> k in table && k !in remaining
        invariant forall i, j :: 0 <= i < j < |keys| ==> keys[i] != keys[j]
        invariant |keys| + |remaining| == |table|
        decreases remaining
      {
        var k :| k in remaining;
        keys := keys + [k];
        remaining := remaining - {k};
      }
    }
  }

  /** After a delete, the next write of the key starts again at version 1. */
  lemma DeleteThenPutRestarts(t: Table, key: string, value: Bytes, now: int)
    requires WellFormed(t)
    ensures Upsert(t - {key}, key, value, now)[key].version == 1
    ensures Upsert(t - {key}, key, value, now)[key].created_at == now
  {
  }
}
