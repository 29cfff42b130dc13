/**
  The objects whose state the lifecycle steps change: the registry (async_hardened_client/dedup.py), the
  bounded queue (async_hardened_client/queue.py) and the storage (async_hardened_client/storage.py).
  Each method is the code between two suspending awaits and is proved against the function that the
  lifecycle uses for it.
*/
module Components {
  import opened Models
  import Storage
  import Dedup

  class InFlightRegistry {
    var inflight: map<Key, nat>
    var futures: map<nat, Dedup.Future>
    var dedupHits: nat
    var uniqueRequests: nat
    var created: nat

    function View(): Dedup.Registry
      reads this
    {
      Dedup.Registry(inflight, futures, dedupHits, uniqueRequests)
    }

    /** Registered futures are pending and distinct; futures are numbered in order of creation. */
    ghost predicate Valid()
      reads this
    {
      && (forall key :: key in inflight ==> inflight[key] in futures && futures[inflight[key]] == Dedup.Pending)
      && (forall key, key' :: key in inflight && key' in inflight && inflight[key] == inflight[key'] ==> key == key')
      && (forall f :: f in futures ==> f < created)
    }

    constructor ()
      ensures Valid() && View() == Dedup.EMPTY_REGISTRY && created == 0
    {
      inflight, futures, dedupHits, uniqueRequests, created := map[], map[], 0, 0, 0;
    }

    method GetOrCreate(key: Key) returns (future: nat, owner: bool)
      requires Valid()
      modifies this
      ensures Valid() && View() == Dedup.GetOrCreate(old(View()), key, old(created))
      ensures owner <==> key !in old(inflight)
      ensures future == if owner then old(created) else old(inflight)[key]
      ensures Dedup.IsPending(View(), key) && inflight[key] == future
      ensures uniqueRequests == old(uniqueRequests) + (if owner then 1 else 0)
      ensures dedupHits == old(dedupHits) + if owner then 0 else 1
    {
      if key in inflight && inflight[key] in futures && futures[inflight[key]] == Dedup.Pending {
        dedupHits := dedupHits + 1;
        return inflight[key], false;
      }
      future, owner := created, true;
      futures := futures[future := Dedup.Pending];
      inflight := inflight[key := future];
      uniqueRequests := uniqueRequests + 1;
      created := created + 1;
    }

    /** The common body of `resolve` and `fail`: a done future is left alone. */
    method Settle(key: Key, outcome: Dedup.Future)
      requires Valid() && outcome != Dedup.Pending
      modifies this
      ensures Valid() && View() == Dedup.Settle(old(View()), key, outcome) && created == old(created)
      ensures inflight == old(inflight) - {key}
      ensures futures == if key in old(inflight) then old(futures)[old(inflight)[key] := outcome] else old(futures)
      ensures forall f :: f in old(futures) && old(futures)[f] != Dedup.Pending ==>
        f in futures && futures[f] == old(futures)[f]
    {
      if key in inflight {
        var future := inflight[key];
        inflight := inflight - {key};
        if futures[future] == Dedup.Pending {
          futures := futures[future := outcome];
        }
      }
    }
  }

  class RequestQueue<T> {
    const maxSize: nat
    var items: seq<T>
    var unfinished: nat

    ghost predicate Valid()
      reads this
    {
      maxSize > 0 && |items| <= maxSize
    }

    constructor (maxSize: nat)
      requires maxSize > 0
      ensures Valid() && this.maxSize == maxSize && items == [] && unfinished == 0
    {
      this.maxSize := maxSize;
      items, unfinished := [], 0;
    }

    /** `put`, up to the point where it would wait for a slot. */
    method Enqueue(item: T) returns (done: bool)
      requires Valid()
      modifies this
      ensures Valid() && (done <==> |old(items)| < maxSize)
      ensures items == (if done then old(items) + [item] else old(items))
      ensures unfinished == old(unfinished) + if done then 1 else 0
    {
      done := |items| < maxSize;
      if done {
        items, unfinished := items + [item], unfinished + 1;
      }
    }

    /** `RequestQueue(max_size)`, where `None` stands for the ValueError on a size that is not positive. */
    static method Create(maxSize: int) returns (r: Option<RequestQueue<T>>)
      ensures r.Some? <==> maxSize > 0
      ensures r.Some? ==> fresh(r.value) && r.value.Valid() && r.value.maxSize == maxSize && r.value.items == []
    {
      if maxSize <= 0 {
        return None;
      }
      var queue := new RequestQueue<T>(maxSize);
      return Some(queue);
    }

    /** `get`; `None` where it would wait for an item. */
    method Dequeue() returns (item: Option<T>)
      requires Valid()
      modifies this`items
      ensures Valid() && (item.None? <==> old(items) == [])
      ensures (if item.Some? then [item.value] else []) + items == old(items)
    {
      if items == [] {
        return None;
      }
      item := Some(items[0]);
      items := items[1..];
    }

    /** `raised` is the ValueError of a call too many. */
    method TaskDone() returns (raised: bool)
      requires Valid()
      modifies this`unfinished
      ensures Valid() && (raised <==> old(unfinished) == 0)
      ensures unfinished == old(unfinished) - if raised then 0 else 1
    {
      raised := unfinished == 0;
      if !raised {
        unfinished := unfinished - 1;
      }
    }
  }

  class Database {
    var rows: map<Key, Storage.Row>
    var dead: seq<Storage.DeadRow>
    var nextDeadId: nat

    function View(): Storage.Tables
      reads this
    {
      Storage.Tables(rows, dead, nextDeadId)
    }

    constructor ()
      ensures View() == Storage.Tables(map[], [], 1)
    {
      rows, dead, nextDeadId := map[], [], 1;
    }

    method UpsertInflight(key: Key, req: Request, now: real)
      modifies this`rows
      ensures View() == Storage.UpsertInflight(old(View()), key, req, now)
      ensures key in rows && rows[key].retryCount == 0 && rows - {key} == old(rows) - {key}
      ensures key in old(rows) ==>
        rows[key].createdAt == old(rows)[key].createdAt && rows[key].payload == old(rows)[key].payload
      ensures key !in old(rows) ==>
        rows[key].createdAt == now && forall r :: Storage.Restores(rows[key].payload, r) <==> r == req
    {
      forall r ensures Storage.Restores(ToStorage(req), r) <==> r == req {
        Storage.StoredRestores(req, r);
      }
      if key in rows {
        rows := rows[key := rows[key].(retryCount := 0)];
      } else {
        rows := rows[key := Storage.Row(ToStorage(req), 0, now)];
      }
    }

    /** Returns the new count, or 0 when there is no such row. */
    method IncrementRetry(key: Key) returns (count: nat)
      modifies this`rows
      ensures View() == Storage.IncrementRetry(old(View()), key)
      ensures rows.Keys == old(rows).Keys && rows - {key} == old(rows) - {key}
      ensures count == if key in old(rows) then old(rows)[key].retryCount + 1 else 0
      ensures key in rows ==> rows[key] == old(rows)[key].(retryCount := count)
    {
      if key in rows {
        rows := rows[key := rows[key].(retryCount := rows[key].retryCount + 1)];
        count := rows[key].retryCount;
      } else {
        count := 0;
      }
    }

    method DeleteInflight(key: Key)
      modifies this`rows
      ensures View() == Storage.DeleteInflight(old(View()), key) && rows == old(rows) - {key}
    {
      rows := rows - {key};
    }

    method PushDeadLetter(key: Key, req: Request, error: Storage.ErrorKind, retryCount: nat) returns (id: nat)
      modifies this`dead, this`nextDeadId
      ensures View() == Storage.PushDeadLetter(old(View()), key, req, error, retryCount)
      ensures id == old(nextDeadId) && nextDeadId == id + 1
      ensures |dead| == |old(dead)| + 1 && dead[..|old(dead)|] == old(dead)
      ensures
        var row := dead[|old(dead)|];
        && row.id == id && row.key == key && row.error == error && row.retryCount == retryCount
        && forall r :: Storage.Restores(row.payload, r) <==> r == req
    {
      forall r ensures Storage.Restores(ToStorage(req), r) <==> r == req {
        Storage.StoredRestores(req, r);
      }
      id := nextDeadId;
      dead := dead + [Storage.DeadRow(id, key, ToStorage(req), error, retryCount)];
      nextDeadId := id + 1;
    }

    method RemoveDeadLetter(id: nat)
      modifies this`dead
      ensures View() == Storage.RemoveDeadLetter(old(View()), id)
    {
      var kept: seq<Storage.DeadRow> := [];
      for i := |dead| downto 0
        invariant kept == Storage.WithoutId(dead[i..], id)
      {
        assert dead[i..][1..] == dead[i + 1..];
        if dead[i].id != id {
          kept := [dead[i]] + kept;
        }
      }
      dead := kept;
    }
  }
}
