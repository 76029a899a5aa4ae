# MetricsSubscriber, modelled in Dafny

`MetricsSubscriber` is the stream decorator of rsocket-ipc's metrics support. It sits between
an upstream producer and a downstream consumer and plays both roles at once: it is the
subscriber the producer signals (`onSubscribe`, `onNext`, `onError`, `onComplete`), and it is
the subscription the consumer drives (`request`, `cancel`). It forwards every signal
unchanged. As it goes, it increments a "next" counter per value and exactly one of the
"complete", "error" or "cancelled" counters, and it records one timer sample: the time
between subscription and the first terminal signal. The class extends `AtomicBoolean`.
`compareAndSet(false, true)` on that flag decides which terminal signal is the one counted.

The project has four modules:

- `Wrappers`: `Option`, standing for a Java reference that may be `null`.
- `Int64`: Java `long` arithmetic. `System.nanoTime() - start` is a 64-bit subtraction
  that wraps around. `Int64.ElapsedRecovered` proves that this wrapped difference still gives
  the true elapsed time, even when the clock reading has wrapped.
- `SubscriberSpec`: the decorator as a pure state machine.
  - `State` holds the flag, `s`, `start`, the four counters, the recorded durations and the
    signals forwarded in each direction.
  - `Step` is one call. `Run(h)` is the state a fresh instance reaches through the calls `h`.
  - The lemmas state what holds after any sequence of calls. They compare the run against
    reference descriptions of the traffic that do not use the state machine. `Produced`,
    `Issued` and `NextValues` list what the producer and the consumer sent; `FirstTerminal`
    is the first terminal call.
- `Metrics`: the class `MetricsSubscriber`, with its real fields and ghost fields.
  - Real fields: the flag `terminated`, `s` and `start`.
  - Ghost fields: the counters, the timer's durations, the downstream and upstream traces, and
    the `history` of calls.
  - Each method updates the fields as the Java method does and states the whole new state.
  - `Valid()` says the object is in state `Run(history)`, so every `SubscriberSpec` lemma
    applies to any sequence of calls on the object.

The clock is the parameter `now` of `OnSubscribe`, `OnError`, `OnComplete` and `Cancel`. It
stands for the `System.nanoTime()` reading the Java method would take. The `actual` consumer
is modelled only by its trace of signals, and the upstream subscription `s` only by its trace
of commands.

`request` and `cancel` dereference `s`. Before any subscription is stored, `s` is `null`, and
Java throws a `NullPointerException` at that point. The model returns `ok == false` and
forwards nothing. `cancel` has already done its accounting by the time it throws, and the
model keeps that behaviour.

## Model

| member | source | states |
|---|---|---|
| `Metrics.MetricsSubscriber.constructor` | rsocket-ipc-core/src/main/java/io/rsocket/ipc/metrics/MetricsSubscriber.java:35-48 | a fresh decorator: flag false, no subscription, `start` 0, all counters 0, nothing recorded or forwarded |
| `Metrics.MetricsSubscriber.CompareAndSet` | rsocket-ipc-core/src/main/java/io/rsocket/ipc/metrics/MetricsSubscriber.java:68 | test-and-set of the inherited flag: succeeds exactly when the flag was false, and leaves it true |
| `Metrics.MetricsSubscriber.OnSubscribe` | rsocket-ipc-core/src/main/java/io/rsocket/ipc/metrics/MetricsSubscriber.java:51-58 | when no subscription is stored: stores it, sets `start := now` and notifies downstream once; when one is stored: `s`, `start` and the downstream trace are unchanged; never touches counters, flag or timer |
| `Metrics.MetricsSubscriber.OnNext` | rsocket-ipc-core/src/main/java/io/rsocket/ipc/metrics/MetricsSubscriber.java:61-64 | next counter +1, the same value appended downstream, everything else unchanged |
| `Metrics.MetricsSubscriber.OnError` | rsocket-ipc-core/src/main/java/io/rsocket/ipc/metrics/MetricsSubscriber.java:67-73 | flag set; error counter +1 and `now - start` recorded only if the flag was false; the error forwarded downstream in every case; nothing else changes |
| `Metrics.MetricsSubscriber.OnComplete` | rsocket-ipc-core/src/main/java/io/rsocket/ipc/metrics/MetricsSubscriber.java:76-82 | flag set; complete counter +1 and `now - start` recorded only if the flag was false; completion forwarded downstream in every case; nothing else changes |
| `Metrics.MetricsSubscriber.Request` | rsocket-ipc-core/src/main/java/io/rsocket/ipc/metrics/MetricsSubscriber.java:85-87 | `request(n)` forwarded upstream with the same `n` when a subscription is stored (otherwise the null dereference, `ok` false); counters, flag, timer, `start` and downstream unchanged |
| `Metrics.MetricsSubscriber.Cancel` | rsocket-ipc-core/src/main/java/io/rsocket/ipc/metrics/MetricsSubscriber.java:90-96 | flag set; cancelled counter +1 and `now - start` recorded only if the flag was false; then a cancel forwarded upstream whatever the flag was (unless `s` is null, `ok` false) |
| `Metrics.MetricsSubscriber.AtMostOneTerminal` | rsocket-ipc-core/src/main/java/io/rsocket/ipc/metrics/MetricsSubscriber.java:66-96 | on a valid object: complete + error + cancelled <= 1, the sum is 1 exactly when the flag is set, and the timer holds exactly that many durations |
| `SubscriberSpec.RunAccounted` | rsocket-ipc-core/src/main/java/io/rsocket/ipc/metrics/MetricsSubscriber.java:66-96 | after any sequence of calls: complete + error + cancelled <= 1, sum 1 iff flag set, timer holds at most one duration, one per accounted terminal |
| `SubscriberSpec.RunFirstTerminalWins` | rsocket-ipc-core/src/main/java/io/rsocket/ipc/metrics/MetricsSubscriber.java:66-96 | no terminal call yet: flag false, terminal counters 0, no duration; otherwise the flag is set and exactly the counter of the FIRST terminal call's kind is 1 |
| `SubscriberSpec.TerminatedIsFinal` | rsocket-ipc-core/src/main/java/io/rsocket/ipc/metrics/MetricsSubscriber.java:66-96 | once the flag is set it stays set, and no later calls change a terminal counter or record a duration |
| `SubscriberSpec.RunForwardsSignals` | rsocket-ipc-core/src/main/java/io/rsocket/ipc/metrics/MetricsSubscriber.java:50-82 | after any calls: the next counter equals the number of values delivered; downstream, leaving out the subscription notifications, is exactly the producer's values, errors and completions in order; there is one notification exactly when `s` is set, and none otherwise |
| `SubscriberSpec.SubscribedRun` | rsocket-ipc-core/src/main/java/io/rsocket/ipc/metrics/MetricsSubscriber.java:50-96 | for a stream that starts with `onSubscribe(sub)` at `t0`: `s == sub` and `start == t0` for good; downstream is one notification then exactly the producer's signals; upstream is exactly the consumer's requests (same counts) and cancels in order; the timer holds `now - t0` of the first terminal call, or nothing |
| `SubscriberSpec.ThreeValuesThenComplete` | rsocket-ipc-core/src/main/java/io/rsocket/ipc/metrics/MetricsSubscriber.java:50-82 | subscribe, 3 values, complete: next 3, complete 1, error 0, cancelled 0, one recorded duration equal to the elapsed time |
| `SubscriberSpec.CompleteThenCancel` | rsocket-ipc-core/src/main/java/io/rsocket/ipc/metrics/MetricsSubscriber.java:75-96 | complete then cancel: completion forwarded downstream and cancel forwarded upstream, but only "complete" counted and one duration recorded |
| `SubscriberSpec.CancelThenError` | rsocket-ipc-core/src/main/java/io/rsocket/ipc/metrics/MetricsSubscriber.java:60-96 | one value, then a cancel that wins against an error: the error still reaches downstream and the cancel upstream, only "cancelled" is counted, and the duration is that of the cancel |
| `Int64.Wrap` | rsocket-ipc-core/src/main/java/io/rsocket/ipc/metrics/MetricsSubscriber.java:70 | Java's `long` truncation: the identity on values in range, and always congruent to the exact value modulo 2^64 |
| `Int64.ElapsedRecovered` | rsocket-ipc-core/src/main/java/io/rsocket/ipc/metrics/MetricsSubscriber.java:70 | if the clock advanced by `e < 2^63` ns since `start`, the wrapped `now - start` is exactly `e`, also across a clock wrap-around |

## Left out

- Concurrency: `compareAndSet(false, true)` is modelled as a sequential test-and-set. Calls
  from the producer's and the consumer's threads are modelled as interleaved one at a time:
  each call is one atomic `Step`. Real races, and the visibility of the non-volatile fields
  `s` and `start` across threads, are not modelled.
- Reentrancy: `actual.onSubscribe(this)` may call `request` synchronously before
  `onSubscribe` returns. The model runs such a call after the whole `OnSubscribe` step. In
  both cases `s` is already stored, which is why the source stores it first.
- `Operators.validate` is Reactor library code and is not part of this model. Only its
  "already set means reject" rule is modelled. Its other effects are not: cancelling the
  rejected duplicate subscription, reporting the duplicate or a `null` argument through
  Reactor's hooks, and rejecting a `null` subscription (the model's subscription parameter is
  never null).
- `currentContext` (lines 99-101) only delegates to the consumer's Reactor `Context`.
- Micrometer's `Counter` and `Timer` are modelled as ghost naturals and a ghost sequence of
  `long` durations. Their storage, their `TimeUnit` conversion and their treatment of
  negative durations are outside the model.
- `System.nanoTime()` is the parameter `now`. Nothing requires the readings to be monotonic.
  `Int64.ElapsedRecovered` gives the recorded duration when they are.
- Wiring of the counters and the timer (constructor arguments, names, tags) and the `actual`
  reference. The model keeps only the traces of what was forwarded.
- The values and errors forwarded are opaque type parameters `T` and `E`. Java's `null`
  value and the Reactive Streams rule against it are not modelled.
