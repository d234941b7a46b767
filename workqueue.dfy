/** The rate-limited work queue the controller drains: a deduplicating FIFO of
    keys with an in-flight set, a delayed re-add, and a per-key exponential
    failure backoff (client-go's rate-limiting queue over an
    ItemExponentialFailureRateLimiter; that library is not part of this model,
    its contract is modelled as its callers rely on it). */
module WorkQueue {
  import opened Records

  /** A key that AddRateLimited scheduled to be added after `delay`. */
  datatype Timer = Timer(key: string, delay: nat)

  /** The queue operations the controller performs, in call order. */
  datatype QueueOp =
    | OpAdd(key: string)
    | OpGet(key: string)
    | OpQuit
    | OpDone(key: string)
    | OpForget(key: string)
    | OpAddRateLimited(key: string, delay: nat)

  datatype QueueState = QueueState(
    queue: seq<string>,          // keys ready to be handed out, in order
    dirty: set<string>,          // keys that need processing
    processing: set<string>,     // keys a worker holds
    shuttingDown: bool,
    failures: map<string, nat>,  // consecutive failures per key
    waiting: seq<Timer>)         // delayed adds not yet due

  const Empty := QueueState([], {}, {}, false, map[], [])

  function Elements(s: seq<string>): set<string> {
    set k | k in s
  }

  /** The queue holds each key once, and exactly the keys that need processing
      and are not held by a worker. */
  ghost predicate Wf(q: QueueState) {
    && (forall i, j :: 0 <= i < j < |q.queue| ==> q.queue[i] != q.queue[j])
    && Elements(q.queue) == q.dirty - q.processing
  }

  /** Add: a key already waiting is not queued twice, and a key held by a
      worker is only marked, to be queued again when the worker is done. */
  function Added(q: QueueState, k: string): QueueState {
    if q.shuttingDown || k in q.dirty then q
    else if k in q.processing then q.(dirty := q.dirty + {k})
    else q.(dirty := q.dirty + {k}, queue := q.queue + [k])
  }

  /** Get: the head of the queue moves to the in-flight set. */
  function Taken(q: QueueState): QueueState
    requires |q.queue| > 0
  {
    var k := q.queue[0];
    q.(queue := q.queue[1..], processing := q.processing + {k}, dirty := q.dirty - {k})
  }

  /** Done: the key leaves the in-flight set, and is queued again if it was
      added while held. */
  function Finished(q: QueueState, k: string): QueueState {
    var q1 := q.(processing := q.processing - {k});
    if k in q.dirty then q1.(queue := q.queue + [k]) else q1
  }

  function Failures(q: QueueState, k: string): nat {
    if k in q.failures then q.failures[k] else 0
  }

  function Pow2(n: nat): nat {
    if n == 0 then 1 else 2 * Pow2(n - 1)
  }

  /** The delay before retry number `exp` + 1: `base` doubled `exp` times,
      capped at `max`. */
  function Delay(base: nat, max: nat, exp: nat): nat {
    if base * Pow2(exp) > max then max else base * Pow2(exp)
  }

  /** AddAfter: no delay adds at once, otherwise a timer is started. */
  function AddedAfter(q: QueueState, k: string, d: nat): QueueState {
    if q.shuttingDown then q
    else if d == 0 then Added(q, k)
    else q.(waiting := q.waiting + [Timer(k, d)])
  }

  /** AddRateLimited: count one more failure and add after the backoff the
      previous count gives. */
  function RateLimited(q: QueueState, base: nat, max: nat, k: string): QueueState {
    var d := Delay(base, max, Failures(q, k));
    AddedAfter(q.(failures := q.failures[k := Failures(q, k) + 1]), k, d)
  }

  /** Forget: the failure count of the key is reset. */
  function Forgotten(q: QueueState, k: string): QueueState {
    q.(failures := q.failures - {k})
  }

  /** A timer falls due and its key is added. */
  function Fired(q: QueueState, i: nat): QueueState
    requires i < |q.waiting|
  {
    Added(q.(waiting := q.waiting[..i] + q.waiting[i + 1..]), q.waiting[i].key)
  }

  lemma AddedWf(q: QueueState, k: string)
    requires Wf(q)
    ensures Wf(Added(q, k))
  {
    if !q.shuttingDown && k !in q.dirty && k !in q.processing {
      assert k !in Elements(q.queue);
      assert Elements(q.queue + [k]) == Elements(q.queue) + {k};
    }
  }

  lemma TakenWf(q: QueueState)
    requires Wf(q) && |q.queue| > 0
    ensures Wf(Taken(q))
  {
    var k := q.queue[0];
    assert q.queue == [k] + q.queue[1..];
    assert k !in q.queue[1..] by {
      forall j | 0 <= j < |q.queue[1..]| ensures q.queue[1..][j] != k {
        assert q.queue[1..][j] == q.queue[j + 1];
      }
    }
    assert Elements(q.queue) == {k} + Elements(q.queue[1..]);
  }

  /** Done is only called for a key a worker holds. */
  lemma FinishedWf(q: QueueState, k: string)
    requires Wf(q) && k in q.processing
    ensures Wf(Finished(q, k))
  {
    if k in q.dirty {
      assert k !in Elements(q.queue);
      assert Elements(q.queue + [k]) == Elements(q.queue) + {k};
    }
  }

  lemma RateLimitedWf(q: QueueState, base: nat, max: nat, k: string)
    requires Wf(q)
    ensures Wf(RateLimited(q, base, max, k))
  {
    AddedWf(q.(failures := q.failures[k := Failures(q, k) + 1]), k);
  }

  lemma FiredWf(q: QueueState, i: nat)
    requires Wf(q) && i < |q.waiting|
    ensures Wf(Fired(q, i))
  {
    AddedWf(q.(waiting := q.waiting[..i] + q.waiting[i + 1..]), q.waiting[i].key);
  }

  /** Repeated notifications for one key collapse into one pending item. */
  lemma AddDeduplicates(q: QueueState, k: string)
    requires Wf(q)
    ensures Added(Added(q, k), k) == Added(q, k)
    ensures q.shuttingDown || (k in Added(q, k).dirty && (k !in q.processing <==> k in Added(q, k).queue))
  {
    assert k in Elements(q.queue) <==> k in q.queue;
  }

  /** A key added while a worker holds it is not handed to a second worker,
      and is not lost: it is queued again when the first worker is done. */
  lemma AddWhileProcessing(q: QueueState, k: string)
    requires Wf(q) && k in q.processing && !q.shuttingDown
    ensures k !in Added(q, k).queue
    ensures k in Finished(Added(q, k), k).queue
    ensures k !in Finished(Added(q, k), k).processing
  {
    assert k !in Elements(q.queue);
  }

  /** The key handed out by Get is not already held by a worker. */
  lemma TakenNotInFlight(q: QueueState)
    requires Wf(q) && |q.queue| > 0
    ensures q.queue[0] !in q.processing
  {
    assert q.queue[0] in Elements(q.queue);
  }

  lemma DelayAtMostMax(base: nat, max: nat, exp: nat)
    ensures Delay(base, max, exp) <= max
  {
  }

  /** The first retry waits `base` (or `max`, when that is smaller). */
  lemma DelayStart(base: nat, max: nat)
    ensures Delay(base, max, 0) == if base <= max then base else max
  {
  }

  /** Each further consecutive failure doubles the delay, up to `max`. */
  lemma DelayDoubles(base: nat, max: nat, exp: nat)
    ensures Delay(base, max, exp + 1) == if 2 * Delay(base, max, exp) > max then max else 2 * Delay(base, max, exp)
  {
    assert base * Pow2(exp + 1) == 2 * (base * Pow2(exp));
  }

  lemma {:induction false} DelayMonotone(base: nat, max: nat, e1: nat, e2: nat)
    requires e1 <= e2
    ensures Delay(base, max, e1) <= Delay(base, max, e2)
    decreases e2 - e1
  {
    if e1 < e2 {
      DelayMonotone(base, max, e1 + 1, e2);
      DelayDoubles(base, max, e1);
      DelayAtMostMax(base, max, e1);
    }
  }

  /** AddRateLimited counts the failure, waits the backoff of the previous
      count, and Forget resets the count, so that the next failure waits the
      start delay again. */
  lemma RetryCountAndReset(q: QueueState, base: nat, max: nat, k: string)
    ensures Failures(RateLimited(q, base, max, k), k) == Failures(q, k) + 1
    ensures Failures(Forgotten(q, k), k) == 0
    ensures Delay(base, max, Failures(Forgotten(q, k), k)) == if base <= max then base else max
  {
  }

  /** With a zero start delay, as the controller gets it when no retry interval
      is configured, every retry is added at once. */
  lemma ZeroStartRetriesAtOnce(q: QueueState, max: nat, k: string)
    requires !q.shuttingDown
    ensures RateLimited(q, 0, max, k).waiting == q.waiting
    ensures k in RateLimited(q, 0, max, k).dirty
  {
  }

  /** One worker round on the head key: Get, then Forget on success or
      AddRateLimited on failure, then Done. */
  function AfterWork(q: QueueState, base: nat, max: nat, succeeded: bool): QueueState
    requires |q.queue| > 0
  {
    var k := q.queue[0];
    var q1 := Taken(q);
    Finished(if succeeded then Forgotten(q1, k) else RateLimited(q1, base, max, k), k)
  }

  /** After a worker round the key is no longer held; success clears its
      failure count and leaves the key out of the queue; a failure counts one more and is queued again at once
      when its backoff is zero, or waits on a timer with that backoff. */
  lemma AfterWorkReleases(q: QueueState, base: nat, max: nat, succeeded: bool)
    requires Wf(q) && |q.queue| > 0
    ensures var k := q.queue[0];
            var q' := AfterWork(q, base, max, succeeded);
            var d := Delay(base, max, Failures(q, k));
            && Wf(q') && k !in q'.processing
            && (succeeded ==> Failures(q', k) == 0 && k !in q'.queue && q'.waiting == q.waiting)
            && (!succeeded ==> Failures(q', k) == Failures(q, k) + 1)
            && (!succeeded && !q.shuttingDown && d == 0 ==> k in q'.queue && q'.waiting == q.waiting)
            && (!succeeded && !q.shuttingDown && d > 0 ==> k !in q'.queue && q'.waiting == q.waiting + [Timer(k, d)])
  {
    var k := q.queue[0];
    TakenWf(q);
    TakenNotInFlight(q);
    var q1 := Taken(q);
    assert k !in q1.queue by {
      forall j | 0 <= j < |q1.queue| ensures q1.queue[j] != k {
        assert q1.queue[j] == q.queue[j + 1];
      }
    }
    var q2 := if succeeded then Forgotten(q1, k) else RateLimited(q1, base, max, k);
    if !succeeded {
      RateLimitedWf(q1, base, max, k);
    }
    FinishedWf(q2, k);
  }

  /** The queue object the controller's workers share. */
  class Queue {
    var queue: seq<string>
    var dirty: set<string>
    var processing: set<string>
    var shuttingDown: bool
    var failures: map<string, nat>
    var waiting: seq<Timer>
    const baseDelay: nat
    const maxDelay: nat
    ghost var log: seq<QueueOp>

    ghost function Abs(): QueueState
      reads this
    {
      QueueState(queue, dirty, processing, shuttingDown, failures, waiting)
    }

    ghost predicate Valid()
      reads this
    {
      Wf(Abs())
    }

    /** A queue whose rate limiter starts at `baseDelay` and is capped at `maxDelay`. */
    constructor (baseDelay: nat, maxDelay: nat)
      ensures Valid() && Abs() == Empty && log == []
      ensures this.baseDelay == baseDelay && this.maxDelay == maxDelay
    {
      queue, dirty, processing, shuttingDown, failures, waiting := [], {}, {}, false, map[], [];
      this.baseDelay, this.maxDelay := baseDelay, maxDelay;
      log := [];
    }

    method Add(k: string)
      requires Valid()
      modifies this
      ensures Valid() && Abs() == Added(old(Abs()), k) && log == old(log) + [OpAdd(k)]
    {
      AddedWf(Abs(), k);
      if !shuttingDown && k !in dirty {
        dirty := dirty + {k};
        if k !in processing {
          queue := queue + [k];
        }
      }
      log := log + [OpAdd(k)];
    }

    /** Get blocks while the queue is empty and running; the model is entered
        only once it would return. None is the shut-down signal. */
    method Get() returns (k: Option<string>)
      requires Valid() && (|queue| > 0 || shuttingDown)
      modifies this
      ensures Valid()
      ensures old(|queue|) > 0 ==> k == Some(old(queue[0])) && Abs() == Taken(old(Abs())) && log == old(log) + [OpGet(k.value)]
      ensures old(|queue|) == 0 ==> k == None && Abs() == old(Abs()) && log == old(log) + [OpQuit]
    {
      if |queue| == 0 {
        k := None;
        log := log + [OpQuit];
        return;
      }
      TakenWf(Abs());
      var item := queue[0];
      queue := queue[1..];
      processing := processing + {item};
      dirty := dirty - {item};
      k := Some(item);
      log := log + [OpGet(item)];
    }

    method Done(k: string)
      requires Valid() && k in processing
      modifies this
      ensures Valid() && Abs() == Finished(old(Abs()), k) && log == old(log) + [OpDone(k)]
    {
      FinishedWf(Abs(), k);
      processing := processing - {k};
      if k in dirty {
        queue := queue + [k];
      }
      log := log + [OpDone(k)];
    }

    method AddRateLimited(k: string)
      requires Valid()
      modifies this
      ensures Valid() && Abs() == RateLimited(old(Abs()), baseDelay, maxDelay, k)
      ensures log == old(log) + [OpAddRateLimited(k, Delay(baseDelay, maxDelay, Failures(old(Abs()), k)))]
    {
      RateLimitedWf(Abs(), baseDelay, maxDelay, k);
      var exp := if k in failures then failures[k] else 0;
      failures := failures[k := exp + 1];
      var d := Delay(baseDelay, maxDelay, exp);
      log := log + [OpAddRateLimited(k, d)];
      if !shuttingDown {
        if d == 0 {
          if k !in dirty {
            dirty := dirty + {k};
            if k !in processing {
              queue := queue + [k];
            }
          }
        } else {
          waiting := waiting + [Timer(k, d)];
        }
      }
    }

    method Forget(k: string)
      requires Valid()
      modifies this
      ensures Valid() && Abs() == Forgotten(old(Abs()), k) && log == old(log) + [OpForget(k)]
    {
      failures := failures - {k};
      log := log + [OpForget(k)];
    }

    /** The timer at position `i` falls due. */
    method Fire(i: nat)
      requires Valid() && i < |waiting|
      modifies this
      ensures Valid() && Abs() == Fired(old(Abs()), i) && log == old(log)
    {
      FiredWf(Abs(), i);
      var k := waiting[i].key;
      waiting := waiting[..i] + waiting[i + 1..];
      if !shuttingDown && k !in dirty {
        dirty := dirty + {k};
        if k !in processing {
          queue := queue + [k];
        }
      }
    }

    method ShutDown()
      requires Valid()
      modifies this
      ensures Valid() && Abs() == old(Abs()).(shuttingDown := true) && log == old(log)
    {
      shuttingDown := true;
    }
  }
}
