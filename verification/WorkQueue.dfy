/**
 The rate-limiting work queue of client-go that the node state controller uses: a key is queued at
 most once, is never handed to two workers, and is queued again if it was added while being processed.
 */
module WorkQueue {
  datatype Queue = Queue(
    order: seq<string>,
    dirty: set<string>,
    processing: set<string>,
    waiting: set<string>,
    requeues: map<string, nat>)

  const EMPTY := Queue([], {}, {}, {}, map[])

  /** The keys in line are exactly those that need processing and are not being processed. */
  ghost predicate WellFormed(q: Queue) {
    && (forall key :: key in q.order <==> key in q.dirty && key !in q.processing)
    && (forall i, j :: 0 <= i < j < |q.order| ==> q.order[i] != q.order[j])
  }

  function Add(q: Queue, key: string): Queue {
    if key in q.dirty then q
    else if key in q.processing then q.(dirty := q.dirty + {key})
    else q.(dirty := q.dirty + {key}, order := q.order + [key])
  }

  /** Get: the head of the line moves to processing. */
  function Take(q: Queue): Queue
    requires q.order != []
  {
    var key := q.order[0];
    q.(order := q.order[1..], processing := q.processing + {key}, dirty := q.dirty - {key})
  }

  function Done(q: Queue, key: string): Queue {
    if key in q.dirty && key in q.processing
    then q.(processing := q.processing - {key}, order := q.order + [key])
    else q.(processing := q.processing - {key})
  }

  function NumRequeues(q: Queue, key: string): nat {
    if key in q.requeues then q.requeues[key] else 0
  }

  /** Count a failure and schedule a delayed Add; a key waits at most once. */
  function AddRateLimited(q: Queue, key: string): Queue {
    q.(requeues := q.requeues[key := NumRequeues(q, key) + 1], waiting := q.waiting + {key})
  }

  function Forget(q: Queue, key: string): Queue {
    q.(requeues := q.requeues - {key})
  }

  /** The delay of a waiting key has passed. */
  function Elapse(q: Queue, key: string): Queue {
    Add(q.(waiting := q.waiting - {key}), key)
  }

  const MAX_RETRIES := 5

  /** The end of one round of processing: retry with a delay, or give up after the last retry, or
      forget the failures of a success; then Done. */
  function Settle(q: Queue, key: string, failed: bool): Queue {
    if failed && NumRequeues(q, key) < MAX_RETRIES then Done(AddRateLimited(q, key), key)
    else Done(Forget(q, key), key)
  }

  lemma OperationsWellFormed(q: Queue, key: string, failed: bool)
    requires WellFormed(q)
    ensures WellFormed(Add(q, key)) && WellFormed(Elapse(q, key))
    ensures q.order != [] ==> WellFormed(Take(q)) && q.order[0] !in q.processing && q.order[0] in q.dirty
    ensures key in q.processing ==> WellFormed(Settle(q, key, failed))
  {
    AddWellFormed(q, key);
    AddWellFormed(q.(waiting := q.waiting - {key}), key);
    if q.order != [] {
      assert q.order[0] in q.order;
      var t := Take(q);
      forall k
        ensures k in t.order <==> k in t.dirty && k !in t.processing
      {
        assert q.order == [q.order[0]] + t.order;
      }
    }
    if key in q.processing {
      DoneWellFormed(AddRateLimited(q, key), key);
      DoneWellFormed(Forget(q, key), key);
    }
  }

  lemma AddWellFormed(q: Queue, key: string)
    requires WellFormed(q)
    ensures WellFormed(Add(q, key))
  {
  }

  lemma DoneWellFormed(q: Queue, key: string)
    requires WellFormed(q) && key in q.processing
    ensures WellFormed(Done(q, key))
  {
  }
}
