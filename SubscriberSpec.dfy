/**
  The behaviour of the metrics decorator as a pure state machine. A `State` is everything
  the decorator holds or causes: the terminal flag, the upstream subscription `s`, the start
  timestamp, the four counters and the timer's recorded durations of the metrics backend,
  and the signals it has forwarded in each direction. `Step` is one call of the decorator;
  `Run` is a whole sequence of calls from a fresh instance. The lemmas state what holds
  after ANY sequence of calls.
 */
module SubscriberSpec {
  import opened Wrappers
  import opened Int64

  /** The identity of an upstream subscription handle. */
  datatype Subscription = Subscription(id: nat)

  /** A signal forwarded to the downstream consumer `actual`. */
  datatype Signal<T, E> =
    | Subscribed       // actual.onSubscribe(this)
    | Value(value: T)  // actual.onNext(t)
    | Failed(error: E) // actual.onError(t)
    | Completed        // actual.onComplete()

  /** A command forwarded to the upstream subscription `s`. */
  datatype Command = Demand(n: Long) | Cancellation

  /** One call into the decorator; `now` is the clock reading `System.nanoTime()` would give. */
  datatype Event<T, E> =
    | OnSubscribe(sub: Subscription, now: Long)
    | OnNext(value: T)
    | OnError(error: E, now: Long)
    | OnComplete(now: Long)
    | Request(n: Long)
    | Cancel(now: Long)

  /** The three ways a stream can end; each has its own counter. */
  datatype TerminalKind = Completion | Failure | Cancelled

  datatype State<T, E> = State(
    terminated: bool,          // the inherited AtomicBoolean
    sub: Option<Subscription>, // the field `s`
    start: Long,               // the field `start`
    next: nat,                 // the "next" counter
    complete: nat,             // the "complete" counter
    error: nat,                // the "error" counter
    cancelled: nat,            // the "cancelled" counter
    durations: seq<Long>,      // what the timer has recorded
    downstream: seq<Signal<T, E>>,
    upstream: seq<Command>)

  /** A freshly constructed decorator: Java's default field values and untouched metrics. */
  function Initial<T, E>(): State<T, E> {
    State(false, None, 0, 0, 0, 0, 0, [], [], [])
  }

  function Terminals<T, E>(st: State<T, E>): nat {
    st.complete + st.error + st.cancelled
  }

  function CountOf<T, E>(st: State<T, E>, k: TerminalKind): nat {
    match k
    case Completion => st.complete
    case Failure => st.error
    case Cancelled => st.cancelled
  }

  predicate IsTerminal<T, E>(ev: Event<T, E>) {
    ev.OnError? || ev.OnComplete? || ev.Cancel?
  }

  function KindOf<T, E>(ev: Event<T, E>): TerminalKind
    requires IsTerminal(ev)
  {
    match ev
    case OnError(_, _) => Failure
    case OnComplete(_) => Completion
    case Cancel(_) => Cancelled
  }

  /**
    The guarded accounting of a terminal signal: `compareAndSet(false, true)` run
    sequentially. Only the call that finds the flag false increments its counter and records
    `now - start` (as a Java `long` subtraction) into the timer.
   */
  function Account<T, E>(st: State<T, E>, k: TerminalKind, now: Long): State<T, E> {
    if st.terminated then st
    else
      var st' := st.(terminated := true, durations := st.durations + [Sub(now, st.start)]);
      match k
      case Completion => st'.(complete := st.complete + 1)
      case Failure => st'.(error := st.error + 1)
      case Cancelled => st'.(cancelled := st.cancelled + 1)
  }

  /** One call into the decorator. */
  function Step<T, E>(st: State<T, E>, ev: Event<T, E>): State<T, E> {
    match ev
    case OnSubscribe(sub, now) =>
      // Operators.validate(this.s, s): a second subscription is rejected
      if st.sub.Some? then st
      else st.(sub := Some(sub), start := now, downstream := st.downstream + [Subscribed])
    case OnNext(v) =>
      st.(next := st.next + 1, downstream := st.downstream + [Value(v)])
    case OnError(e, now) =>
      var st' := Account(st, Failure, now);
      st'.(downstream := st'.downstream + [Failed(e)])
    case OnComplete(now) =>
      var st' := Account(st, Completion, now);
      st'.(downstream := st'.downstream + [Completed])
    case Request(n) =>
      // with no subscription stored, `s.request(n)` throws and forwards nothing
      if st.sub.None? then st
      else st.(upstream := st.upstream + [Demand(n)])
    case Cancel(now) =>
      // the accounting happens before `s.cancel()`, which throws when `s` is null
      var st' := Account(st, Cancelled, now);
      if st'.sub.None? then st'
      else st'.(upstream := st'.upstream + [Cancellation])
  }

  function Last<X>(h: seq<X>): X
    requires h != []
  {
    h[|h| - 1]
  }

  function Init<X>(h: seq<X>): seq<X>
    requires h != []
  {
    h[..|h| - 1]
  }

  /** The state a fresh decorator reaches through the calls `h`, in order. */
  function Run<T, E>(h: seq<Event<T, E>>): State<T, E> {
    if h == [] then Initial() else Step(Run(Init(h)), Last(h))
  }

  // ---------------------------------------------------------------------------------
  // Reference descriptions of the traffic, independent of the state machine

  /** The values of the `OnNext` calls in `h`, in order. */
  function NextValues<T, E>(h: seq<Event<T, E>>): seq<T> {
    if h == [] then []
    else NextValues(Init(h)) + (if Last(h).OnNext? then [Last(h).value] else [])
  }

  /** The signal a producer-side call carries, if any. */
  function ProducedBy<T, E>(ev: Event<T, E>): seq<Signal<T, E>> {
    match ev
    case OnNext(v) => [Value(v)]
    case OnError(e, _) => [Failed(e)]
    case OnComplete(_) => [Completed]
    case _ => []
  }

  /** The command a consumer-side call carries, if any. */
  function IssuedBy<T, E>(ev: Event<T, E>): seq<Command> {
    match ev
    case Request(n) => [Demand(n)]
    case Cancel(_) => [Cancellation]
    case _ => []
  }

  /** The signals the producer sent through `h`: values, errors and completions, in order. */
  function Produced<T, E>(h: seq<Event<T, E>>): seq<Signal<T, E>> {
    if h == [] then [] else Produced(Init(h)) + ProducedBy(Last(h))
  }

  /** The demand and cancellation the consumer issued through `h`, in order. */
  function Issued<T, E>(h: seq<Event<T, E>>): seq<Command> {
    if h == [] then [] else Issued(Init(h)) + IssuedBy(Last(h))
  }

  /** The downstream trace with the `Subscribed` notifications taken out. */
  function Payload<T, E>(sigs: seq<Signal<T, E>>): seq<Signal<T, E>> {
    if sigs == [] then []
    else Payload(Init(sigs)) + (if Last(sigs).Subscribed? then [] else [Last(sigs)])
  }

  /** The number of `Subscribed` notifications in a downstream trace. */
  function Notifications<T, E>(sigs: seq<Signal<T, E>>): nat {
    if sigs == [] then 0
    else Notifications(Init(sigs)) + (if Last(sigs).Subscribed? then 1 else 0)
  }

  /** The first terminal call (onError, onComplete or cancel) in `h`, if any. */
  function FirstTerminal<T, E>(h: seq<Event<T, E>>): (r: Option<Event<T, E>>)
    ensures r.Some? ==> IsTerminal(r.value)
  {
    if h == [] then None
    else if FirstTerminal(Init(h)).Some? then FirstTerminal(Init(h))
    else if IsTerminal(Last(h)) then Some(Last(h))
    else None
  }

  /** The at-most-one-terminal invariant of the decorator. */
  predicate Accounted<T, E>(st: State<T, E>) {
    && Terminals(st) <= 1
    && (Terminals(st) == 1 <==> st.terminated)
    && |st.durations| == Terminals(st)
  }


  /** The terminal bookkeeping of a state, everything `Account` may change. */
  predicate SameAccounting<T, E>(a: State<T, E>, b: State<T, E>) {
    && a.terminated == b.terminated
    && a.complete == b.complete && a.error == b.error && a.cancelled == b.cancelled
    && a.durations == b.durations
  }

  // ---------------------------------------------------------------------------------
  // Facts about one call and about sequences, used by the proofs

  lemma InitAppend<X>(h: seq<X>, x: X)
    ensures Init(h + [x]) == h && Last(h + [x]) == x
  {
  }

  lemma InitOfCons<X>(x: X, h: seq<X>)
    requires h != []
    ensures Init([x] + h) == [x] + Init(h) && Last([x] + h) == Last(h)
  {
  }

  lemma RunSnoc<T, E>(h: seq<Event<T, E>>, ev: Event<T, E>)
    ensures Run(h + [ev]) == Step(Run(h), ev)
  {
    InitAppend(h, ev);
  }

  lemma PayloadAppend<T, E>(sigs: seq<Signal<T, E>>, more: seq<Signal<T, E>>)
    requires |more| <= 1
    ensures Payload(sigs + more) ==
              Payload(sigs) + (if more == [] || more[0].Subscribed? then [] else more)
    ensures Notifications(sigs + more) ==
              Notifications(sigs) + (if more != [] && more[0].Subscribed? then 1 else 0)
  {
    if more == [] {
      assert sigs + more == sigs;
    } else {
      assert sigs + more == sigs + [more[0]];
      InitAppend(sigs, more[0]);
    }
  }

  /** What one call does to the terminal bookkeeping. */
  lemma StepAccounting<T, E>(st: State<T, E>, ev: Event<T, E>)
    ensures Step(st, ev).terminated == (st.terminated || IsTerminal(ev))
    ensures st.terminated || !IsTerminal(ev) ==> SameAccounting(Step(st, ev), st)
    ensures !st.terminated && IsTerminal(ev) ==>
              && CountOf(Step(st, ev), KindOf(ev)) == CountOf(st, KindOf(ev)) + 1
              && Terminals(Step(st, ev)) == Terminals(st) + 1
              && Step(st, ev).durations == st.durations + [Sub(ev.now, st.start)]
  {
  }

  /** What one call forwards, and what it does to `s`, `start` and the next counter. */
  lemma StepForwarding<T, E>(st: State<T, E>, ev: Event<T, E>)
    ensures Step(st, ev).downstream ==
              st.downstream +
              (if ev.OnSubscribe? then (if st.sub.None? then [Subscribed] else [])
               else ProducedBy(ev))
    ensures Step(st, ev).upstream == st.upstream + (if st.sub.Some? then IssuedBy(ev) else [])
    ensures Step(st, ev).sub == (if st.sub.None? && ev.OnSubscribe? then Some(ev.sub) else st.sub)
    ensures Step(st, ev).start == (if st.sub.None? && ev.OnSubscribe? then ev.now else st.start)
    ensures Step(st, ev).next == st.next + (if ev.OnNext? then 1 else 0)
  {
  }

  // ---------------------------------------------------------------------------------
  // Properties over any sequence of calls

  /**
    After any sequence of calls, at most one of the complete, error and cancelled counters has
    been incremented, at most once; the flag is set exactly when one has; and the timer holds
    exactly as many durations as there were accounted terminals, so at most one.
   */
  lemma {:induction false} RunAccounted<T, E>(h: seq<Event<T, E>>)
    ensures Accounted(Run(h))
    ensures |Run(h).durations| <= 1
  {
    if h != [] {
      RunAccounted(Init(h));
      StepAccounting(Run(Init(h)), Last(h));
    }
  }

  /** The accounting a state shows when `first` is the first terminal call it has seen. */
  predicate AccountedFor<T, E>(st: State<T, E>, first: Option<Event<T, E>>) {
    match first
    case None => !st.terminated && Terminals(st) == 0 && st.durations == []
    case Some(ev) =>
      IsTerminal(ev) && st.terminated && Terminals(st) == 1 && CountOf(st, KindOf(ev)) == 1
  }

  lemma StepAccountedFor<T, E>(st: State<T, E>, first: Option<Event<T, E>>, ev: Event<T, E>)
    requires AccountedFor(st, first)
    ensures AccountedFor(Step(st, ev),
                         if first.Some? then first else if IsTerminal(ev) then Some(ev) else None)
  {
    StepAccounting(st, ev);
  }

  /**
    Which terminal is accounted: none before the first onError, onComplete or cancel; after it,
    the flag is set and exactly the counter of that first terminal's kind is one.
   */
  lemma {:induction false} RunFirstTerminalWins<T, E>(h: seq<Event<T, E>>)
    ensures FirstTerminal(h).None? ==>
              !Run(h).terminated && Terminals(Run(h)) == 0 && Run(h).durations == []
    ensures FirstTerminal(h).Some? ==>
              && Run(h).terminated
              && Terminals(Run(h)) == 1
              && CountOf(Run(h), KindOf(FirstTerminal(h).value)) == 1
  {
    RunAccountedFor(h);
  }

  lemma {:induction false} RunAccountedFor<T, E>(h: seq<Event<T, E>>)
    ensures AccountedFor(Run(h), FirstTerminal(h))
  {
    if h != [] {
      RunAccountedFor(Init(h));
      StepAccountedFor(Run(Init(h)), FirstTerminal(Init(h)), Last(h));
    }
  }

  /**
    Once the flag is set it stays set, and no later call changes a terminal counter or
    records a duration: the accounting of a prefix `h` is final for every extension `h + more`.
   */
  lemma {:induction false} TerminatedIsFinal<T, E>(h: seq<Event<T, E>>, more: seq<Event<T, E>>)
    requires Run(h).terminated
    ensures SameAccounting(Run(h + more), Run(h))
  {
    if more == [] {
      assert h + more == h;
    } else {
      TerminatedIsFinal(h, Init(more));
      assert h + more == (h + Init(more)) + [Last(more)];
      RunSnoc(h + Init(more), Last(more));
      StepAccounting(Run(h + Init(more)), Last(more));
    }
  }

  /**
    Every value, error and completion is forwarded downstream unmodified and in order, whatever
    the flag was; and the next counter counts exactly the values delivered.
   */
  lemma {:induction false} RunForwardsSignals<T, E>(h: seq<Event<T, E>>)
    ensures Run(h).next == |NextValues(h)|
    ensures Payload(Run(h).downstream) == Produced(h)
    ensures Notifications(Run(h).downstream) == (if Run(h).sub.Some? then 1 else 0)
  {
    if h != [] {
      var st := Run(Init(h));
      RunForwardsSignals(Init(h));
      StepForwarding(st, Last(h));
      assert Run(h) == Step(st, Last(h));
      PayloadAppend(st.downstream,
        if Last(h).OnSubscribe? then (if st.sub.None? then [Subscribed] else [])
        else ProducedBy(Last(h)));
    }
  }

  /** A leading `onSubscribe` is not a terminal call. */
  lemma {:induction false} FirstTerminalOfSubscribed<T, E>(sub: Subscription, t0: Long, rest: seq<Event<T, E>>)
    ensures FirstTerminal([OnSubscribe(sub, t0)] + rest) == FirstTerminal(rest)
  {
    if rest == [] {
      assert Init([OnSubscribe(sub, t0)] + rest) == [];
    } else {
      InitOfCons(OnSubscribe(sub, t0), rest);
      FirstTerminalOfSubscribed(sub, t0, Init(rest));
    }
  }

  /**
    A stream that starts with a subscription: the first `onSubscribe` fixes `s` and `start`
    for good (later ones are rejected); the consumer sees one subscription notification and
    then exactly the producer's signals; the producer sees exactly the consumer's demand and
    cancellations, with the same counts; and the timer holds `now - start` of the first
    terminal call, or nothing if there was none.
   */
  lemma {:induction false} SubscribedRun<T, E>(sub: Subscription, t0: Long, rest: seq<Event<T, E>>)
    ensures Run([OnSubscribe(sub, t0)] + rest).sub == Some(sub)
    ensures Run([OnSubscribe(sub, t0)] + rest).start == t0
    ensures Run([OnSubscribe(sub, t0)] + rest).downstream == [Subscribed] + Produced(rest)
    ensures Run([OnSubscribe(sub, t0)] + rest).upstream == Issued(rest)
    ensures Run([OnSubscribe(sub, t0)] + rest).durations ==
              match FirstTerminal(rest)
              case None => []
              case Some(ev) => [Sub(ev.now, t0)]
  {
    var h := [OnSubscribe(sub, t0)] + rest;
    if rest == [] {
      var none: seq<Event<T, E>> := [];
      assert h == none + [OnSubscribe(sub, t0)];
      RunSnoc(none, OnSubscribe(sub, t0));
    } else {
      var p := [OnSubscribe(sub, t0)] + Init(rest);
      InitOfCons(OnSubscribe(sub, t0), rest);
      var st := Run(p);
      assert Run(h) == Step(st, Last(rest));
      SubscribedRun(sub, t0, Init(rest));
      RunFirstTerminalWins(p);
      FirstTerminalOfSubscribed(sub, t0, Init(rest));
      StepForwarding(st, Last(rest));
      StepAccounting(st, Last(rest));
    }
  }

  // ---------------------------------------------------------------------------------
  // Scenarios

  /**
    Subscribe, three values, complete: next = 3, complete = 1, error = cancelled = 0, and the
    one recorded duration is the time that elapsed, even across a clock wrap-around.
   */
  lemma ThreeValuesThenComplete<T, E>(sub: Subscription, t0: Long, elapsed: int, a: T, b: T, c: T)
    requires 0 <= elapsed < TWO_63
    ensures var st: State<T, E> := Run([OnSubscribe(sub, t0), OnNext(a), OnNext(b), OnNext(c),
                                        OnComplete(Add(t0, elapsed))]);
            && st.next == 3 && st.complete == 1 && st.error == 0 && st.cancelled == 0
            && st.durations == [elapsed]
            && st.downstream == [Subscribed, Value(a), Value(b), Value(c), Completed]
  {
    var e0: Event<T, E> := OnSubscribe(sub, t0);
    var e4: Event<T, E> := OnComplete(Add(t0, elapsed));
    RunSnoc([], e0);
    RunSnoc([e0], OnNext(a));
    RunSnoc([e0, OnNext(a)], OnNext(b));
    RunSnoc([e0, OnNext(a), OnNext(b)], OnNext(c));
    RunSnoc([e0, OnNext(a), OnNext(b), OnNext(c)], e4);
    assert [] + [e0] == [e0];
    assert [e0] + [OnNext(a)] == [e0, OnNext(a)];
    assert [e0, OnNext(a)] + [OnNext(b)] == [e0, OnNext(a), OnNext(b)];
    assert [e0, OnNext(a), OnNext(b)] + [OnNext(c)] == [e0, OnNext(a), OnNext(b), OnNext(c)];
    assert [e0, OnNext(a), OnNext(b), OnNext(c)] + [e4] == [e0, OnNext(a), OnNext(b), OnNext(c), e4];
    ElapsedRecovered(t0, elapsed);
  }

  /**
    Complete, then cancel: both signals are forwarded, each in its own direction, but only
    "complete" is counted and only one duration is recorded.
   */
  lemma CompleteThenCancel<T, E>(sub: Subscription, t0: Long, t1: Long, t2: Long)
    ensures var st: State<T, E> := Run([OnSubscribe(sub, t0), OnComplete(t1), Cancel(t2)]);
            && st.downstream == [Subscribed, Completed]
            && st.upstream == [Cancellation]
            && st.complete == 1 && st.cancelled == 0 && st.error == 0
            && st.durations == [Sub(t1, t0)]
  {
    var e0: Event<T, E> := OnSubscribe(sub, t0);
    RunSnoc([], e0);
    RunSnoc([e0], OnComplete(t1));
    RunSnoc([e0, OnComplete(t1)], Cancel(t2));
    assert [] + [e0] == [e0];
    assert [e0] + [OnComplete(t1)] == [e0, OnComplete(t1)];
    assert [e0, OnComplete(t1)] + [Cancel(t2)] == [e0, OnComplete(t1), Cancel(t2)];
  }

  /**
    Cancel wins the race against an error: the error still reaches the consumer and the
    cancellation still reaches the producer, but only "cancelled" is counted.
   */
  lemma CancelThenError<T, E>(sub: Subscription, t0: Long, v: T, t1: Long, e: E, t2: Long)
    ensures var st: State<T, E> := Run([OnSubscribe(sub, t0), OnNext(v), Cancel(t1), OnError(e, t2)]);
            && st.next == 1 && st.cancelled == 1 && st.error == 0 && st.complete == 0
            && st.downstream == [Subscribed, Value(v), Failed(e)]
            && st.upstream == [Cancellation]
            && st.durations == [Sub(t1, t0)]
  {
    var e0: Event<T, E> := OnSubscribe(sub, t0);
    RunSnoc([], e0);
    RunSnoc([e0], OnNext(v));
    RunSnoc([e0, OnNext(v)], Cancel(t1));
    RunSnoc([e0, OnNext(v), Cancel(t1)], OnError(e, t2));
    assert [] + [e0] == [e0];
    assert [e0] + [OnNext(v)] == [e0, OnNext(v)];
    assert [e0, OnNext(v)] + [Cancel(t1)] == [e0, OnNext(v), Cancel(t1)];
    assert [e0, OnNext(v), Cancel(t1)] + [OnError(e, t2)] == [e0, OnNext(v), Cancel(t1), OnError(e, t2)];
  }
}
