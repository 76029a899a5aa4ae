/**
  The metrics decorator itself: a subscriber to the upstream producer and, at once, the
  subscription handed to the downstream consumer. Its real state is the terminal flag it
  inherits from `AtomicBoolean`, the upstream subscription `s` and the start timestamp. The
  counters and timer of the metrics backend and the two consumers of forwarded signals are
  external collaborators; ghost fields record what the decorator did to them. The ghost
  `history` lists every call so far, and `Valid()` says the object is in the state
  `SubscriberSpec.Run(history)`, so every lemma about `Run` holds of the object.
 */
module Metrics {
  import opened Wrappers
  import opened Int64
  import opened SubscriberSpec

  class MetricsSubscriber<T, E> {
    /** The inherited `AtomicBoolean`: set by the first terminal signal. */
    var terminated: bool
    /** The upstream subscription; `None` stands for Java's `null`. */
    var s: Option<Subscription>
    var start: Long

    ghost var nextCount: nat
    ghost var completeCount: nat
    ghost var errorCount: nat
    ghost var cancelledCount: nat
    /** The durations recorded into the timer, in nanoseconds. */
    ghost var durations: seq<Long>
    /** The signals forwarded to `actual`. */
    ghost var downstream: seq<Signal<T, E>>
    /** The commands forwarded to `s`. */
    ghost var upstream: seq<Command>
    /** Every call made on this object so far. */
    ghost var history: seq<Event<T, E>>

    ghost function Snapshot(): State<T, E>
      reads this
    {
      State(terminated, s, start, nextCount, completeCount, errorCount, cancelledCount,
            durations, downstream, upstream)
    }

    ghost predicate Valid()
      reads this
    {
      Snapshot() == Run(history)
    }

    constructor ()
      ensures Valid() && history == []
      ensures !terminated && s == None && start == 0
      ensures nextCount == completeCount == errorCount == cancelledCount == 0
      ensures durations == [] && downstream == [] && upstream == []
    {
      terminated, s, start := false, None, 0;
      nextCount, completeCount, errorCount, cancelledCount := 0, 0, 0, 0;
      durations, downstream, upstream := [], [], [];
      history := [];
    }

    /** At any point of the object's life, at most one terminal has been accounted. */
    lemma AtMostOneTerminal()
      requires Valid()
      ensures completeCount + errorCount + cancelledCount <= 1
      ensures completeCount + errorCount + cancelledCount == 1 <==> terminated
      ensures |durations| == completeCount + errorCount + cancelledCount
    {
      RunAccounted(history);
    }

    /** `compareAndSet(false, true)`, run without interference. */
    method CompareAndSet() returns (won: bool)
      modifies this`terminated
      ensures won == !old(terminated) && terminated
    {
      won := !terminated;
      terminated := true;
    }

    /**
      Accepts the subscription only if none is stored yet; then stores it, reads the clock
      into `start` and notifies the downstream consumer. A second call changes nothing.
     */
    method OnSubscribe(sub: Subscription, now: Long)
      requires Valid()
      modifies this
      ensures Valid() && history == old(history) + [Event.OnSubscribe(sub, now)]
      ensures old(s).None? ==> s == Some(sub) && start == now
      ensures old(s).Some? ==> s == old(s) && start == old(start)
      ensures downstream == old(downstream) + (if old(s).None? then [Subscribed] else [])
      ensures terminated == old(terminated) && upstream == old(upstream)
      ensures nextCount == old(nextCount) && completeCount == old(completeCount)
      ensures errorCount == old(errorCount) && cancelledCount == old(cancelledCount)
      ensures durations == old(durations)
    {
      ghost var before := history;
      // Operators.validate(this.s, s): only a first subscription is valid
      if s.None? {
        s := Some(sub);
        start := now;
        downstream := downstream + [Subscribed];
      }
      history := history + [Event.OnSubscribe(sub, now)];
      RunSnoc(before, Event.OnSubscribe(sub, now));
    }

    /** Counts the value and forwards it, unmodified. */
    method OnNext(t: T)
      requires Valid()
      modifies this
      ensures Valid() && history == old(history) + [Event.OnNext(t)]
      ensures nextCount == old(nextCount) + 1
      ensures downstream == old(downstream) + [Value(t)]
      ensures terminated == old(terminated) && s == old(s) && start == old(start)
      ensures completeCount == old(completeCount) && errorCount == old(errorCount)
      ensures cancelledCount == old(cancelledCount)
      ensures durations == old(durations) && upstream == old(upstream)
    {
      ghost var before := history;
      nextCount := nextCount + 1;
      downstream := downstream + [Value(t)];
      history := history + [Event.OnNext(t)];
      RunSnoc(before, Event.OnNext(t));
    }

    /**
      If this is the first terminal signal, counts an error and records the elapsed time;
      forwards the error downstream in every case.
     */
    method OnError(e: E, now: Long)
      requires Valid()
      modifies this
      ensures Valid() && history == old(history) + [Event.OnError(e, now)]
      ensures terminated
      ensures errorCount == old(errorCount) + (if old(terminated) then 0 else 1)
      ensures durations == old(durations) + (if old(terminated) then [] else [Sub(now, old(start))])
      ensures downstream == old(downstream) + [Failed(e)]
      ensures s == old(s) && start == old(start) && nextCount == old(nextCount)
      ensures completeCount == old(completeCount) && cancelledCount == old(cancelledCount)
      ensures upstream == old(upstream)
    {
      ghost var before := history;
      var won := CompareAndSet();
      if won {
        errorCount := errorCount + 1;
        durations := durations + [Sub(now, start)];
      }
      downstream := downstream + [Failed(e)];
      history := history + [Event.OnError(e, now)];
      RunSnoc(before, Event.OnError(e, now));
    }

    /**
      If this is the first terminal signal, counts a completion and records the elapsed time;
      forwards the completion downstream in every case.
     */
    method OnComplete(now: Long)
      requires Valid()
      modifies this
      ensures Valid() && history == old(history) + [Event.OnComplete(now)]
      ensures terminated
      ensures completeCount == old(completeCount) + (if old(terminated) then 0 else 1)
      ensures durations == old(durations) + (if old(terminated) then [] else [Sub(now, old(start))])
      ensures downstream == old(downstream) + [Completed]
      ensures s == old(s) && start == old(start) && nextCount == old(nextCount)
      ensures errorCount == old(errorCount) && cancelledCount == old(cancelledCount)
      ensures upstream == old(upstream)
    {
      ghost var before := history;
      var won := CompareAndSet();
      if won {
        completeCount := completeCount + 1;
        durations := durations + [Sub(now, start)];
      }
      downstream := downstream + [Completed];
      history := history + [Event.OnComplete(now)];
      RunSnoc(before, Event.OnComplete(now));
    }

    /**
      Forwards the demand, with the same count, to the upstream subscription. `ok` is false
      when no subscription is stored: there `s.request(n)` throws a NullPointerException and
      nothing is forwarded.
     */
    method Request(n: Long) returns (ok: bool)
      requires Valid()
      modifies this
      ensures Valid() && history == old(history) + [Event.Request(n)]
      ensures ok == s.Some?
      ensures upstream == old(upstream) + (if ok then [Demand(n)] else [])
      ensures terminated == old(terminated) && s == old(s) && start == old(start)
      ensures nextCount == old(nextCount) && completeCount == old(completeCount)
      ensures errorCount == old(errorCount) && cancelledCount == old(cancelledCount)
      ensures durations == old(durations) && downstream == old(downstream)
    {
      ghost var before := history;
      ok := s.Some?;
      if ok {
        upstream := upstream + [Demand(n)];
      }
      history := history + [Event.Request(n)];
      RunSnoc(before, Event.Request(n));
    }

    /**
      If this is the first terminal signal, counts a cancellation and records the elapsed
      time; then forwards the cancellation upstream in every case. `ok` is false when no
      subscription is stored: the accounting has happened, then `s.cancel()` throws a
      NullPointerException and nothing is forwarded.
     */
    method Cancel(now: Long) returns (ok: bool)
      requires Valid()
      modifies this
      ensures Valid() && history == old(history) + [Event.Cancel(now)]
      ensures ok == s.Some?
      ensures terminated
      ensures cancelledCount == old(cancelledCount) + (if old(terminated) then 0 else 1)
      ensures durations == old(durations) + (if old(terminated) then [] else [Sub(now, old(start))])
      ensures upstream == old(upstream) + (if ok then [Cancellation] else [])
      ensures s == old(s) && start == old(start) && nextCount == old(nextCount)
      ensures completeCount == old(completeCount) && errorCount == old(errorCount)
      ensures downstream == old(downstream)
    {
      ghost var before := history;
      var won := CompareAndSet();
      if won {
        cancelledCount := cancelledCount + 1;
        durations := durations + [Sub(now, start)];
      }
      ok := s.Some?;
      if ok {
        upstream := upstream + [Cancellation];
      }
      history := history + [Event.Cancel(now)];
      RunSnoc(before, Event.Cancel(now));
    }
  }
}
