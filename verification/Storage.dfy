/**
  The two SQLite tables (async_hardened_client/storage.py) as values, with one function per committed
  statement.  `Components.Database` is the object that applies them in place.
*/
module Storage {
  import opened Models

  /** A row of `inflight_requests`; the columns that nothing reads back are not modelled. */
  datatype Row = Row(payload: Stored, retryCount: nat, createdAt: real)

  datatype ErrorKind = DeadLetterError | NonRetryableError

  datatype DeadRow = DeadRow(id: nat, key: Key, payload: Stored, error: ErrorKind, retryCount: nat)

  /** A row as `list_inflight` returns it, with its request restored. */
  datatype InflightRow = InflightRow(key: Key, request: Request, retryCount: nat, createdAt: real)

  datatype Tables = Tables(rows: map<Key, Row>, dead: seq<DeadRow>, nextDeadId: nat)

  /** INSERT .. ON CONFLICT: a conflict resets the retry count but keeps payload and created_at. */
  function UpsertInflight(db: Tables, key: Key, req: Request, now: real): Tables {
    var row :=
      if key in db.rows then db.rows[key].(retryCount := 0)
      else Row(ToStorage(req), 0, now);
    db.(rows := db.rows[key := row])
  }

  function IncrementRetry(db: Tables, key: Key): Tables {
    if key in db.rows
    then db.(rows := db.rows[key := db.rows[key].(retryCount := db.rows[key].retryCount + 1)])
    else db
  }

  function DeleteInflight(db: Tables, key: Key): Tables {
    db.(rows := db.rows - {key})
  }

  /** Always inserts, under the next AUTOINCREMENT id. */
  function PushDeadLetter(db: Tables, key: Key, req: Request, error: ErrorKind, retryCount: nat): Tables {
    var row := DeadRow(db.nextDeadId, key, ToStorage(req), error, retryCount);
    db.(dead := db.dead + [row], nextDeadId := db.nextDeadId + 1)
  }

  function WithoutId(dead: seq<DeadRow>, id: nat): seq<DeadRow> {
    if dead == [] then []
    else if dead[0].id == id then WithoutId(dead[1..], id)
    else [dead[0]] + WithoutId(dead[1..], id)
  }

  function RemoveDeadLetter(db: Tables, id: nat): Tables {
    db.(dead := WithoutId(db.dead, id))
  }

  /** `req` is what a stored payload is restored to, for some value of the defaults. */
  ghost predicate Restores(payload: Stored, req: Request) {
    exists id, now :: FromStorage(payload, id, now) == Ok(req)
  }

  /** What `to_storage` persists restores to the request itself and to no other. */
  lemma StoredRestores(req: Request, r: Request)
    ensures Restores(ToStorage(req), r) <==> r == req
  {
    StorageRoundTrip(req, "", 0.0);
    assert FromStorage(ToStorage(req), "", 0.0) == Ok(req);
    if id, now :| FromStorage(ToStorage(req), id, now) == Ok(r) {
      StorageRoundTrip(req, id, now);
    }
  }

  /** `rows` is a result `list_inflight` may return: every row once, in created_at order. */
  ghost predicate ListsInflight(db: Tables, rows: seq<InflightRow>) {
    && (forall i :: 0 <= i < |rows| ==>
          && rows[i].key in db.rows
          && rows[i].retryCount == db.rows[rows[i].key].retryCount
          && rows[i].createdAt == db.rows[rows[i].key].createdAt
          && Restores(db.rows[rows[i].key].payload, rows[i].request))
    && (forall i, j :: 0 <= i < j < |rows| ==> rows[i].key != rows[j].key && rows[i].createdAt <= rows[j].createdAt)
    && (forall key :: key in db.rows ==> exists i :: 0 <= i < |rows| && rows[i].key == key)
  }

  // ----- the keys of a listing

  function KeysOf(rows: seq<InflightRow>): set<Key> {
    set i | 0 <= i < |rows| :: rows[i].key
  }

  ghost predicate DistinctKeys(rows: seq<InflightRow>) {
    forall i, j :: 0 <= i < j < |rows| ==> rows[i].key != rows[j].key
  }

  lemma KeysNext(rows: seq<InflightRow>, i: nat)
    requires i < |rows|
    ensures KeysOf(rows[..i + 1]) == KeysOf(rows[..i]) + {rows[i].key}
  {
    forall key | key in KeysOf(rows[..i]) + {rows[i].key}
      ensures key in KeysOf(rows[..i + 1])
    {
      var j :| 0 <= j <= i && rows[j].key == key;
      assert rows[..i + 1][j].key == key;
    }
  }

  lemma KeysRest(rows: seq<InflightRow>)
    requires rows != [] && DistinctKeys(rows)
    ensures DistinctKeys(rows[1..]) && KeysOf(rows) == KeysOf(rows[1..]) + {rows[0].key}
    ensures rows[0].key !in KeysOf(rows[1..])
  {
    forall key | key in KeysOf(rows)
      ensures key in KeysOf(rows[1..]) + {rows[0].key}
    {
      var i :| 0 <= i < |rows| && rows[i].key == key;
      assert i > 0 ==> rows[1..][i - 1].key == key;
    }
  }

  lemma {:induction false} KeysCounted(rows: seq<InflightRow>)
    requires DistinctKeys(rows)
    ensures |KeysOf(rows)| == |rows|
  {
    if rows == [] {
    } else {
      KeysRest(rows);
      KeysCounted(rows[1..]);
    }
  }

  /** The key is the primary key of the table: `list_inflight` returns as many rows as the table has. */
  lemma ListingCounts(db: Tables, rows: seq<InflightRow>)
    requires ListsInflight(db, rows)
    ensures DistinctKeys(rows) && KeysOf(rows) == db.rows.Keys && |rows| == |db.rows|
  {
    KeysCounted(rows);
    assert KeysOf(rows) == db.rows.Keys;
  }

  /** The rows recovery has to enqueue: those whose key no caller has registered. */
  function Unclaimed(rows: seq<InflightRow>, claimed: set<Key>): seq<InflightRow> {
    if rows == [] then []
    else
      var n := |rows| - 1;
      Unclaimed(rows[..n], claimed) + if rows[n].key in claimed then [] else [rows[n]]
  }

  lemma UnclaimedNext(rows: seq<InflightRow>, claimed: set<Key>, i: nat)
    requires i < |rows|
    ensures Unclaimed(rows[..i + 1], claimed)
         == Unclaimed(rows[..i], claimed) + if rows[i].key in claimed then [] else [rows[i]]
  {
    assert rows[..i + 1][..i] == rows[..i];
  }

  /** Nothing is enqueued twice or dropped: the unclaimed rows of a prefix are a prefix of the unclaimed rows. */
  lemma {:induction false} UnclaimedPrefix(rows: seq<InflightRow>, claimed: set<Key>, i: nat)
    requires i <= |rows|
    ensures Unclaimed(rows[..i], claimed) <= Unclaimed(rows, claimed)
    decreases |rows|
  {
    var n := |rows| - 1;
    if i == |rows| {
      assert rows[..i] == rows;
    } else {
      UnclaimedPrefix(rows[..n], claimed, i);
      assert rows[..n][..i] == rows[..i];
    }
  }

  /** No caller came first: every row is unclaimed. */
  lemma {:induction false} UnclaimedAll(rows: seq<InflightRow>)
    ensures Unclaimed(rows, {}) == rows
  {
    if rows == [] {
    } else {
      UnclaimedAll(rows[..|rows| - 1]);
    }
  }

  /** The same, told from the first row on. */
  lemma {:induction false} UnclaimedFirst(rows: seq<InflightRow>, claimed: set<Key>)
    requires rows != []
    ensures Unclaimed(rows, claimed)
         == (if rows[0].key in claimed then [] else [rows[0]]) + Unclaimed(rows[1..], claimed)
  {
    var n := |rows| - 1;
    if n == 0 {
    } else {
      UnclaimedFirst(rows[..n], claimed);
      assert rows[..n][1..] == rows[1..][..n - 1];
    }
  }

  lemma {:induction false} ClaimOutside(rows: seq<InflightRow>, claimed: set<Key>, key: Key)
    requires key in claimed || key !in KeysOf(rows)
    ensures Unclaimed(rows, claimed + {key}) == Unclaimed(rows, claimed)
  {
    if rows == [] {
    } else {
      var n := |rows| - 1;
      KeysNext(rows, n);
      assert rows[..n + 1] == rows;
      ClaimOutside(rows[..n], claimed, key);
    }
  }

  /** Claiming the key of an unclaimed row leaves one row less. */
  lemma {:induction false} ClaimOne(rows: seq<InflightRow>, claimed: set<Key>, key: Key)
    requires DistinctKeys(rows) && key in KeysOf(rows) && key !in claimed
    ensures |Unclaimed(rows, claimed + {key})| == |Unclaimed(rows, claimed)| - 1
  {
    KeysRest(rows);
    UnclaimedFirst(rows, claimed);
    UnclaimedFirst(rows, claimed + {key});
    if rows[0].key == key {
      ClaimOutside(rows[1..], claimed, key);
    } else {
      ClaimOne(rows[1..], claimed, key);
    }
  }
}
