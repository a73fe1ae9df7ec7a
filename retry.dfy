/**
 * The bounded retry driver: attempt `fn(0)`, `fn(1)`, ... at most `retries`
 * times, return the first success, pause `delay` ms after every failure and,
 * when no attempt succeeds, throw the last error (or `null` if none was made).
 *
 * The awaited operation is a total function from the attempt index to its
 * result; pauses and invocations are recorded as trace events.
 */
module Retry {
  import opened Wrappers
  import opened Types

  /** How a retried run ends: a value, or the thrown error (`None` is `throw null`). */
  datatype Outcome<+T, +E> = Success(value: T) | Failure(thrown: Option<E>)

  /** Observable steps of a run: `fn` invoked with an index, or a pause of `ms`. */
  datatype Event = Invoked(index: nat) | Slept(ms: int)

  const DefaultRetries := 1
  const DefaultDelay := 0

  function Retries(options: RetryOptions): int {
    options.retries.GetOr(DefaultRetries)
  }

  function Delay(options: RetryOptions): int {
    options.delay.GetOr(DefaultDelay)
  }

  /** The pause that follows a failed attempt: none unless `delay` is positive. */
  function Pause(delay: int): seq<Event> {
    if delay > 0 then [Slept(delay)] else []
  }

  /**
   * Reference definition of the run from attempt `i` on, when `lastError`
   * holds the error of the attempt before it.
   */
  function RunFrom<T, E>(fn: nat -> Result<T, E>, retries: int, delay: int, i: nat, lastError: Option<E>)
    : (Outcome<T, E>, seq<Event>)
    decreases retries - i
  {
    if retries <= i then (Failure(lastError), [])
    else match fn(i)
      case Ok(v) => (Success(v), [Invoked(i)])
      case Err(e) =>
        var (outcome, rest) := RunFrom(fn, retries, delay, i + 1, Some(e));
        (outcome, [Invoked(i)] + Pause(delay) + rest)
  }

  /** The whole run, with the options' defaults applied. */
  function Run<T, E>(fn: nat -> Result<T, E>, options: RetryOptions): (Outcome<T, E>, seq<Event>) {
    RunFrom(fn, Retries(options), Delay(options), 0, None)
  }

  /** The driver itself: a loop with an early return on success. */
  method Retry<T, E>(fn: nat -> Result<T, E>, options: RetryOptions) returns (outcome: Outcome<T, E>, trace: seq<Event>)
    ensures (outcome, trace) == Run(fn, options)
  {
    var retries, delay := Retries(options), Delay(options);
    var lastError: Option<E> := None;
    trace := [];
    var i: nat := 0;
    while i < retries
      invariant RunFrom(fn, retries, delay, 0, None).0 == RunFrom(fn, retries, delay, i, lastError).0
      invariant RunFrom(fn, retries, delay, 0, None).1 == trace + RunFrom(fn, retries, delay, i, lastError).1
      decreases retries - i
    {
      var attempt := fn(i);
      RunFromStep(fn, retries, delay, i, lastError, trace);
      if attempt.Ok? {
        return Success(attempt.value), trace + [Invoked(i)];
      }
      lastError := Some(attempt.error);
      trace := trace + ([Invoked(i)] + Pause(delay));
      i := i + 1;
    }
    assert RunFrom(fn, retries, delay, i, lastError) == (Failure(lastError), []);
    assert trace + [] == trace;
    outcome := Failure(lastError);
  }

  /**
   * One step of the run, seen from a caller that has already produced
   * `trace`: attempt `i` either ends the run or fails, and the run goes on
   * from `i + 1` after the invocation and the pause.
   */
  lemma RunFromStep<T, E>(fn: nat -> Result<T, E>, retries: int, delay: int, i: nat, lastError: Option<E>, trace: seq<Event>)
    requires i < retries
    ensures fn(i).Ok? ==> RunFrom(fn, retries, delay, i, lastError) == (Success(fn(i).value), [Invoked(i)])
    ensures fn(i).Err? ==>
      var next := RunFrom(fn, retries, delay, i + 1, Some(fn(i).error));
      RunFrom(fn, retries, delay, i, lastError).0 == next.0
      && trace + RunFrom(fn, retries, delay, i, lastError).1 == (trace + ([Invoked(i)] + Pause(delay))) + next.1
  {
  }

  /** Extending a trace by attempt `i`, with or without its pause, records one more invocation. */
  lemma InvocationStep(trace: seq<Event>, i: nat, delay: int)
    ensures Invocations(trace + [Invoked(i)]) == Invocations(trace) + [i]
    ensures Invocations(trace + ([Invoked(i)] + Pause(delay))) == Invocations(trace) + [i]
  {
    InvocationsAppend(trace, [Invoked(i)]);
    InvocationsAppend(trace, [Invoked(i)] + Pause(delay));
    StepObservations(i, delay, []);
    assert [Invoked(i)] + Pause(delay) + [] == [Invoked(i)] + Pause(delay);
  }

  // ----- Observations of a trace -----

  /** The indices `fn` was invoked with, in order. */
  function Invocations(trace: seq<Event>): seq<nat> {
    if trace == [] then []
    else (if trace[0].Invoked? then [trace[0].index] else []) + Invocations(trace[1..])
  }

  /** The number of pauses in a trace. */
  function SleepCount(trace: seq<Event>): nat {
    if trace == [] then 0
    else (if trace[0].Slept? then 1 else 0) + SleepCount(trace[1..])
  }

  /** `[lo, lo + 1, ..., hi - 1]`. */
  function Range(lo: nat, hi: int): seq<nat>
    decreases hi - lo
  {
    if hi <= lo then [] else [lo] + Range(lo + 1, hi)
  }

  lemma {:induction false} InvocationsAppend(a: seq<Event>, b: seq<Event>)
    ensures Invocations(a + b) == Invocations(a) + Invocations(b)
    ensures SleepCount(a + b) == SleepCount(a) + SleepCount(b)
  {
    if a != [] {
      assert (a + b)[0] == a[0];
      assert (a + b)[1..] == a[1..] + b;
      InvocationsAppend(a[1..], b);
      assert Invocations(a + b) == (if a[0].Invoked? then [a[0].index] else []) + Invocations(a[1..] + b);
      assert SleepCount(a + b) == (if a[0].Slept? then 1 else 0) + SleepCount(a[1..] + b);
    } else {
      assert a + b == b;
    }
  }

  lemma StepObservations(i: nat, delay: int, rest: seq<Event>)
    ensures Invocations([Invoked(i)] + Pause(delay) + rest) == [i] + Invocations(rest)
    ensures SleepCount([Invoked(i)] + Pause(delay) + rest) == (if delay > 0 then 1 else 0) + SleepCount(rest)
  {
    InvocationsAppend([Invoked(i)] + Pause(delay), rest);
    InvocationsAppend([Invoked(i)], Pause(delay));
  }

  // ----- Properties of a run -----

  lemma {:induction false} InvokedInOrderFrom<T, E>(fn: nat -> Result<T, E>, retries: int, delay: int, i: nat, lastError: Option<E>)
    ensures var n := |Invocations(RunFrom(fn, retries, delay, i, lastError).1)|;
      Invocations(RunFrom(fn, retries, delay, i, lastError).1) == Range(i, i + n)
      && (n == 0 || i + n <= retries)
    ensures retries <= i ==> RunFrom(fn, retries, delay, i, lastError) == (Failure(lastError), [])
    decreases retries - i
  {
    if i < retries && fn(i).Err? {
      var rest := RunFrom(fn, retries, delay, i + 1, Some(fn(i).error)).1;
      InvokedInOrderFrom(fn, retries, delay, i + 1, Some(fn(i).error));
      StepObservations(i, delay, rest);
    }
  }

  /**
   * `fn` is invoked with the indices `0, 1, ..., n - 1` in this order, each
   * once, and `n` never exceeds `retries`: no index `>= retries` is ever
   * tried, and with `retries <= 0` nothing is invoked and `null` is thrown.
   */
  lemma InvokedInOrder<T, E>(fn: nat -> Result<T, E>, options: RetryOptions)
    ensures var n := |Invocations(Run(fn, options).1)|;
      Invocations(Run(fn, options).1) == Range(0, n) && n <= (if Retries(options) < 0 then 0 else Retries(options))
    ensures Retries(options) <= 0 ==> Run(fn, options) == (Failure(None), [])
  {
    InvokedInOrderFrom(fn, Retries(options), Delay(options), 0, None);
  }

  lemma {:induction false} FirstSuccessFrom<T, E>(fn: nat -> Result<T, E>, retries: int, delay: int, i: nat, lastError: Option<E>, k: nat)
    requires i <= k < retries && fn(k).Ok?
    requires forall j :: i <= j < k ==> fn(j).Err?
    ensures RunFrom(fn, retries, delay, i, lastError).0 == Success(fn(k).value)
    ensures Invocations(RunFrom(fn, retries, delay, i, lastError).1) == Range(i, k + 1)
    ensures SleepCount(RunFrom(fn, retries, delay, i, lastError).1) == if delay > 0 then k - i else 0
    ensures var t := RunFrom(fn, retries, delay, i, lastError).1; t != [] && t[|t| - 1] == Invoked(k)
    decreases k - i
  {
    if i < k {
      var rest := RunFrom(fn, retries, delay, i + 1, Some(fn(i).error)).1;
      FirstSuccessFrom(fn, retries, delay, i + 1, Some(fn(i).error), k);
      StepObservations(i, delay, rest);
    }
  }

  /**
   * When attempt `k` is the first to succeed, the run returns its value, `fn`
   * was invoked exactly with `0..k`, there was one pause per earlier failure
   * (none if `delay <= 0`) and the run ends with the successful invocation:
   * no pause follows it.
   */
  lemma FirstSuccessReturned<T, E>(fn: nat -> Result<T, E>, options: RetryOptions, k: nat)
    requires k < Retries(options) && fn(k).Ok?
    requires forall j :: 0 <= j < k ==> fn(j).Err?
    ensures Run(fn, options).0 == Success(fn(k).value)
    ensures Invocations(Run(fn, options).1) == Range(0, k + 1)
    ensures SleepCount(Run(fn, options).1) == if Delay(options) > 0 then k else 0
    ensures var t := Run(fn, options).1; t != [] && t[|t| - 1] == Invoked(k)
  {
    FirstSuccessFrom(fn, Retries(options), Delay(options), 0, None, k);
  }

  lemma {:induction false} AllFailuresFrom<T, E>(fn: nat -> Result<T, E>, retries: int, delay: int, i: nat, lastError: Option<E>)
    requires i < retries
    requires forall j :: i <= j < retries ==> fn(j).Err?
    ensures RunFrom(fn, retries, delay, i, lastError).0 == Failure(Some(fn(retries - 1).error))
    ensures Invocations(RunFrom(fn, retries, delay, i, lastError).1) == Range(i, retries)
    ensures SleepCount(RunFrom(fn, retries, delay, i, lastError).1) == if delay > 0 then retries - i else 0
    decreases retries - i
  {
    var rest := RunFrom(fn, retries, delay, i + 1, Some(fn(i).error)).1;
    if i + 1 < retries {
      AllFailuresFrom(fn, retries, delay, i + 1, Some(fn(i).error));
    }
    StepObservations(i, delay, rest);
  }

  /**
   * When every attempt fails, the run throws the error of the last attempt
   * (`retries - 1`), after invoking `fn` with every index below `retries` and
   * pausing once after each failure, the last one included.
   */
  lemma AllFailuresRethrowLast<T, E>(fn: nat -> Result<T, E>, options: RetryOptions)
    requires 0 < Retries(options)
    requires forall j :: 0 <= j < Retries(options) ==> fn(j).Err?
    ensures Run(fn, options).0 == Failure(Some(fn(Retries(options) - 1).error))
    ensures Invocations(Run(fn, options).1) == Range(0, Retries(options))
    ensures SleepCount(Run(fn, options).1) == if Delay(options) > 0 then Retries(options) else 0
  {
    AllFailuresFrom(fn, Retries(options), Delay(options), 0, None);
  }

  lemma {:induction false} SucceedsIffFrom<T, E>(fn: nat -> Result<T, E>, retries: int, delay: int, i: nat, lastError: Option<E>)
    ensures RunFrom(fn, retries, delay, i, lastError).0.Success? <==> exists k :: i <= k < retries && fn(k).Ok?
    decreases retries - i
  {
    if i < retries && fn(i).Err? {
      SucceedsIffFrom(fn, retries, delay, i + 1, Some(fn(i).error));
      assert (exists k :: i <= k < retries && fn(k).Ok?) <==> (exists k :: i + 1 <= k < retries && fn(k).Ok?) by {
        forall k | i <= k < retries && fn(k).Ok? ensures i + 1 <= k { }
      }
    }
  }

  /** The run succeeds if and only if some attempt below `retries` succeeds. */
  lemma SucceedsIffSomeAttemptSucceeds<T, E>(fn: nat -> Result<T, E>, options: RetryOptions)
    ensures Run(fn, options).0.Success? <==> exists k :: 0 <= k < Retries(options) && fn(k).Ok?
  {
    SucceedsIffFrom(fn, Retries(options), Delay(options), 0, None);
  }

  lemma {:induction false} PausesFollowFailuresFrom<T, E>(fn: nat -> Result<T, E>, retries: int, delay: int, i: nat, lastError: Option<E>)
    ensures var t := RunFrom(fn, retries, delay, i, lastError).1;
      (t != [] ==> t[0] == Invoked(i))
      && forall p :: 0 <= p < |t| && t[p].Slept? ==>
           0 < p && t[p - 1].Invoked? && fn(t[p - 1].index).Err? && 0 < delay && t[p].ms == delay
    decreases retries - i
  {
    if i < retries && fn(i).Err? {
      var rest := RunFrom(fn, retries, delay, i + 1, Some(fn(i).error)).1;
      PausesFollowFailuresFrom(fn, retries, delay, i + 1, Some(fn(i).error));
      var t := [Invoked(i)] + Pause(delay) + rest;
      var m := |Pause(delay)| + 1;
      forall p | 0 <= p < |t| && t[p].Slept?
        ensures 0 < p && t[p - 1].Invoked? && fn(t[p - 1].index).Err? && 0 < delay && t[p].ms == delay
      {
        if p >= m {
          assert t[p] == rest[p - m];
          if p == m {
            assert false;
          } else {
            assert t[p - 1] == rest[p - 1 - m];
          }
        }
      }
    }
  }

  /**
   * Pauses happen only right after a failed invocation and last `delay` ms:
   * the run starts with an invocation (never a pause), and a successful run
   * ends with the invocation that succeeded.
   */
  lemma PausesFollowFailures<T, E>(fn: nat -> Result<T, E>, options: RetryOptions)
    ensures var t := Run(fn, options).1;
      (t != [] ==> t[0] == Invoked(0))
      && (forall p :: 0 <= p < |t| && t[p].Slept? ==>
            0 < p && t[p - 1].Invoked? && fn(t[p - 1].index).Err? && t[p].ms == Delay(options) > 0)
    ensures Run(fn, options).0.Success? ==>
      var t := Run(fn, options).1;
      t != [] && t[|t| - 1].Invoked? && fn(t[|t| - 1].index) == Ok(Run(fn, options).0.value)
  {
    PausesFollowFailuresFrom(fn, Retries(options), Delay(options), 0, None);
    if Run(fn, options).0.Success? {
      SucceedsIffSomeAttemptSucceeds(fn, options);
      var k :| 0 <= k < Retries(options) && fn(k).Ok? && forall j :: 0 <= j < k ==> fn(j).Err? by {
        FirstOk(fn, Retries(options));
      }
      FirstSuccessReturned(fn, options, k);
    }
  }

  /** Some first success exists whenever some success exists. */
  lemma {:induction false} FirstOk<T, E>(fn: nat -> Result<T, E>, retries: int)
    requires exists k :: 0 <= k < retries && fn(k).Ok?
    ensures exists k :: 0 <= k < retries && fn(k).Ok? && forall j :: 0 <= j < k ==> fn(j).Err?
    decreases if retries < 0 then 0 else retries
  {
    var k :| 0 <= k < retries && fn(k).Ok?;
    if exists j :: 0 <= j < k && fn(j).Ok? {
      FirstOk(fn, k);
    } else {
      assert forall j :: 0 <= j < k ==> fn(j).Err?;
    }
  }

  /**
   * Options left out behave as one attempt without pausing: the run returns
   * that attempt's value or throws its error.
   */
  lemma DefaultOptionsSingleAttempt<T, E>(fn: nat -> Result<T, E>)
    ensures Run(fn, RetryOptions(None, None)) ==
      (match fn(0)
       case Ok(v) => (Success(v), [Invoked(0)])
       case Err(e) => (Failure(Some(e)), [Invoked(0)]))
  {
    if fn(0).Err? {
      assert RunFrom(fn, 1, 0, 1, Some(fn(0).error)) == (Failure(Some(fn(0).error)), []);
      assert [Invoked(0)] + Pause(0) + [] == [Invoked(0)];
    }
  }
}
