/** Outbound decorators of the event bridge (bot/engine/engine_unified.go):
    the rate-limit gate and the retry with capped doubling back-off that wrap
    every send primitive, the HMAC signature of forwarded bodies, and the
    webhook POST with its fixed three-attempt schedule.

    The limiter, the wrapped primitive and the context are not modelled; the
    i-th decorated call's fate is an input: `gate(i)` says whether the limiter
    admitted it, `next(i)` is what the primitive returned, and `cancel(i)` says
    whether the context was cancelled during the wait that follows it. */
module EngineSend {
  import opened Text

  const Millisecond: int := 1_000_000
  const Second: int := 1_000_000_000

  datatype SendError = LimiterRefused | Cancelled | SendFailed(reason: String)

  /** What a send function returns: a message id and an optional error. */
  datatype SendResult = SendResult(id: String, err: Option<SendError>)

  /** `WithRateLimit`: the wrapped primitive's result counts only when the
      limiter admitted the call; a refusal is an error with an empty id. */
  function RateLimited(admitted: bool, inner: SendResult): (r: SendResult)
    ensures r.err.None? ==> admitted && r == inner
    ensures !admitted ==> r.err == Some(LimiterRefused) && r.id == ""
  {
    if !admitted then SendResult("", Some(LimiterRefused)) else inner
  }

  /** The i-th call of the rate-limited primitive. */
  function Attempt(i: nat, gate: nat -> bool, next: nat -> SendResult): SendResult {
    RateLimited(gate(i), next(i))
  }

  /** The back-off doubles while it is under five seconds. */
  function NextDelay(d: int): int {
    if d < 5 * Second then 2 * d else d
  }

  /** The wait after the k-th failed attempt. */
  function DelayAt(d: int, k: nat): int {
    if k == 0 then d else NextDelay(DelayAt(d, k - 1))
  }

  /** The outcome of a decorated call: result, number of attempts made and
      the waits completed between them. */
  datatype Run = Run(result: SendResult, tries: nat, waits: seq<int>)

  /** Reference semantics of `WithRetry` from attempt `i` on, with current
      delay `d` and the result of the previous attempt `last`. */
  function RetryFrom(attempts: int, i: nat, d: int, last: SendResult,
                     gate: nat -> bool, next: nat -> SendResult, cancel: nat -> bool): Run
    decreases attempts - i
  {
    if i >= attempts then Run(last, i, [])
    else
      var r := Attempt(i, gate, next);
      if r.err.None? then Run(r, i + 1, [])
      else if cancel(i) then Run(SendResult("", Some(Cancelled)), i + 1, [])
      else
        var rest := RetryFrom(attempts, i + 1, NextDelay(d), r, gate, next, cancel);
        Run(rest.result, rest.tries, [d] + rest.waits)
  }

  /** A call that made no attempt returns an empty id and no error. */
  const NoAttempt: SendResult := SendResult("", None)

  /** `WithRetry(attempts, delay, WithRateLimit(lim, next))` as a loop. */
  method WithRetry(attempts: int, delay: int, gate: nat -> bool, next: nat -> SendResult, cancel: nat -> bool)
    returns (run: Run)
    ensures run == RetryFrom(attempts, 0, delay, NoAttempt, gate, next, cancel)
  {
    var last := NoAttempt;
    var d := delay;
    var waits: seq<int> := [];
    var i: nat := 0;
    while i < attempts
      invariant d == DelayAt(delay, i)
      invariant i > 0 ==> i <= attempts
      invariant var rest := RetryFrom(attempts, i, d, last, gate, next, cancel);
        RetryFrom(attempts, 0, delay, NoAttempt, gate, next, cancel) == Run(rest.result, rest.tries, waits + rest.waits)
      decreases attempts - i
    {
      var r := Attempt(i, gate, next);
      if r.err.None? {
        return Run(r, i + 1, waits);
      }
      if cancel(i) {
        return Run(SendResult("", Some(Cancelled)), i + 1, waits);
      }
      waits := waits + [d];
      last := r;
      d := NextDelay(d);
      i := i + 1;
    }
    run := Run(last, i, waits);
  }

  /** The back-off schedule starting one step later. */
  lemma {:induction false} DelayShift(d: int, k: nat)
    ensures DelayAt(NextDelay(d), k) == DelayAt(d, k + 1)
  {
    if k > 0 {
      DelayShift(d, k - 1);
    }
  }

  /** A non-negative delay never shrinks and never grows past ten seconds
      unless it started there: doubling stops at five seconds. */
  lemma {:induction false} BackoffBounded(d: int, k: nat)
    requires d >= 0
    ensures d <= DelayAt(d, k)
    ensures DelayAt(d, k) <= (if d < 5 * Second then 10 * Second else d)
  {
    if k > 0 {
      BackoffBounded(d, k - 1);
    }
  }

  /** Attempts are bounded: none when `attempts <= 0`, else between one and
      `attempts`. */
  lemma {:induction false} RetryTries(attempts: int, i: nat, d: int, last: SendResult,
                                      gate: nat -> bool, next: nat -> SendResult, cancel: nat -> bool)
    ensures var run := RetryFrom(attempts, i, d, last, gate, next, cancel);
      (i >= attempts ==> run == Run(last, i, [])) &&
      (i < attempts ==> i < run.tries <= attempts)
    decreases attempts - i
  {
    if i < attempts && Attempt(i, gate, next).err.Some? && !cancel(i) {
      RetryTries(attempts, i + 1, NextDelay(d), Attempt(i, gate, next), gate, next, cancel);
    }
  }

  /** Retrying stops at the first success and returns it; every earlier
      attempt failed. */
  lemma {:induction false} RetryStopsAtFirstSuccess(attempts: int, i: nat, d: int, last: SendResult,
                                                    gate: nat -> bool, next: nat -> SendResult, cancel: nat -> bool)
    requires i < attempts
    ensures var run := RetryFrom(attempts, i, d, last, gate, next, cancel);
      run.tries > i &&
      (forall k :: i <= k < run.tries - 1 ==> Attempt(k, gate, next).err.Some?) &&
      (run.result.err.None? ==> run.result == Attempt(run.tries - 1, gate, next))
    decreases attempts - i
  {
    RetryTries(attempts, i, d, last, gate, next, cancel);
    var r := Attempt(i, gate, next);
    if r.err.Some? && !cancel(i) {
      if i + 1 < attempts {
        RetryStopsAtFirstSuccess(attempts, i + 1, NextDelay(d), r, gate, next, cancel);
      }
    }
  }

  /** The waits follow the doubling schedule; a wait follows every failed
      attempt that was not cancelled, including the last one, whose error is
      then returned. */
  lemma {:induction false} RetryWaits(attempts: int, i: nat, d: int, last: SendResult,
                                      gate: nat -> bool, next: nat -> SendResult, cancel: nat -> bool)
    requires i < attempts
    ensures var run := RetryFrom(attempts, i, d, last, gate, next, cancel);
      (forall k :: 0 <= k < |run.waits| ==> run.waits[k] == DelayAt(d, k)) &&
      (|run.waits| == run.tries - i || |run.waits| == run.tries - i - 1) &&
      (|run.waits| == run.tries - i ==> run.tries == attempts && run.result == Attempt(attempts - 1, gate, next))
    decreases attempts - i
  {
    var r := Attempt(i, gate, next);
    if r.err.Some? && !cancel(i) {
      var rest := RetryFrom(attempts, i + 1, NextDelay(d), r, gate, next, cancel);
      if i + 1 < attempts {
        RetryWaits(attempts, i + 1, NextDelay(d), r, gate, next, cancel);
        forall k | 0 <= k < |rest.waits|
          ensures rest.waits[k] == DelayAt(d, k + 1)
        {
          DelayShift(d, k);
        }
      }
    }
  }

  /** The three call sites: text messages retry 3 times from 250 ms, media
      3 times from 400 ms, status posts twice from 600 ms. */
  lemma CallSiteSchedules(gate: nat -> bool, next: nat -> SendResult, cancel: nat -> bool)
    ensures var run := RetryFrom(3, 0, 250 * Millisecond, NoAttempt, gate, next, cancel);
      1 <= run.tries <= 3 && run.waits <= [250 * Millisecond, 500 * Millisecond, 1000 * Millisecond]
    ensures var run := RetryFrom(3, 0, 400 * Millisecond, NoAttempt, gate, next, cancel);
      1 <= run.tries <= 3 && run.waits <= [400 * Millisecond, 800 * Millisecond, 1600 * Millisecond]
    ensures var run := RetryFrom(2, 0, 600 * Millisecond, NoAttempt, gate, next, cancel);
      1 <= run.tries <= 2 && run.waits <= [600 * Millisecond, 1200 * Millisecond]
  {
    RetryTries(3, 0, 250 * Millisecond, NoAttempt, gate, next, cancel);
    RetryWaits(3, 0, 250 * Millisecond, NoAttempt, gate, next, cancel);
    RetryTries(3, 0, 400 * Millisecond, NoAttempt, gate, next, cancel);
    RetryWaits(3, 0, 400 * Millisecond, NoAttempt, gate, next, cancel);
    RetryTries(2, 0, 600 * Millisecond, NoAttempt, gate, next, cancel);
    RetryWaits(2, 0, 600 * Millisecond, NoAttempt, gate, next, cancel);
  }

  // ----- Webhook forwarding -----

  /** HMAC-SHA256 keyed by the secret over the body; not modelled. */
  type Mac = (String, seq<byte>) -> seq<byte>

  const SignaturePrefix: String := "sha256="

  /** `signBodyHMACSHA256`: no signature without a secret, otherwise
      `sha256=` and the lower-case hex digest. */
  function SignBody(secret: String, body: seq<byte>, mac: Mac): (sig: String)
    ensures secret == "" <==> sig == ""
    ensures secret != "" ==> HasPrefix(sig, SignaturePrefix) && sig[|SignaturePrefix|..] == Hex(mac(secret, body))
  {
    if secret == "" then "" else SignaturePrefix + Hex(mac(secret, body))
  }

  datatype HttpOutcome = TransportError | Status(code: int)

  datatype PostError = BadRequest | PostCancelled | Transport | NonSuccess(code: int)

  datatype PostRun = PostRun(err: Option<PostError>, sends: nat, waits: seq<int>)

  const PostAttempts: nat := 3

  /** `250 * (1 << i)` milliseconds. */
  function PostDelay(i: nat): int {
    if i == 0 then 250 * Millisecond else 2 * PostDelay(i - 1)
  }

  function FailureOf(o: HttpOutcome): PostError {
    if o.TransportError? then Transport else NonSuccess(o.code)
  }

  predicate IsSuccess(o: HttpOutcome) {
    o.Status? && 200 <= o.code < 300
  }

  /** Reference semantics of `postJSONWithRetry` from attempt `i` on. A URL
      the request cannot be built from fails before any send. */
  function PostFrom(i: nat, urlOk: bool, outcome: nat -> HttpOutcome, cancel: nat -> bool,
                    lastErr: Option<PostError>): PostRun
    decreases PostAttempts - i
  {
    if i >= PostAttempts then PostRun(lastErr, i, [])
    else if !urlOk then PostRun(Some(BadRequest), i, [])
    else if IsSuccess(outcome(i)) then PostRun(None, i + 1, [])
    else if cancel(i) then PostRun(Some(PostCancelled), i + 1, [])
    else
      var rest := PostFrom(i + 1, urlOk, outcome, cancel, Some(FailureOf(outcome(i))));
      PostRun(rest.err, rest.sends, [PostDelay(i)] + rest.waits)
  }

  /** `postJSONWithRetry` as a loop. */
  method PostJsonWithRetry(urlOk: bool, outcome: nat -> HttpOutcome, cancel: nat -> bool) returns (run: PostRun)
    ensures run == PostFrom(0, urlOk, outcome, cancel, None)
  {
    var lastErr: Option<PostError> := None;
    var waits: seq<int> := [];
    var i: nat := 0;
    while i < PostAttempts
      invariant i <= PostAttempts
      invariant var rest := PostFrom(i, urlOk, outcome, cancel, lastErr);
        PostFrom(0, urlOk, outcome, cancel, None) == PostRun(rest.err, rest.sends, waits + rest.waits)
    {
      if !urlOk {
        return PostRun(Some(BadRequest), i, waits);
      }
      var o := outcome(i);
      if IsSuccess(o) {
        return PostRun(None, i + 1, waits);
      }
      ghost var before := PostFrom(i, urlOk, outcome, cancel, lastErr);
      lastErr := Some(FailureOf(o));
      if cancel(i) {
        return PostRun(Some(PostCancelled), i + 1, waits);
      }
      ghost var rest := PostFrom(i + 1, urlOk, outcome, cancel, lastErr);
      assert before == PostRun(rest.err, rest.sends, [PostDelay(i)] + rest.waits);
      assert waits + ([PostDelay(i)] + rest.waits) == (waits + [PostDelay(i)]) + rest.waits;
      waits := waits + [PostDelay(i)];
      i := i + 1;
    }
    run := PostRun(lastErr, i, waits);
  }

  /** A webhook delivery sends at most three requests, waits 250, 500 and
      1000 ms after failures (also after the third), succeeds exactly when
      some request got a 2xx before a cancellation, and otherwise reports the
      last failure. */
  lemma {:induction false} PostSchedule(i: nat, outcome: nat -> HttpOutcome, cancel: nat -> bool, lastErr: Option<PostError>)
    requires i <= PostAttempts
    requires i == PostAttempts ==> lastErr.Some?
    ensures var run := PostFrom(i, true, outcome, cancel, lastErr);
      i <= run.sends <= PostAttempts &&
      (forall k :: 0 <= k < |run.waits| ==> run.waits[k] == PostDelay(i + k)) &&
      (run.err.None? <==> (i < PostAttempts && IsSuccess(outcome(run.sends - 1)))) &&
      (forall k :: i <= k < run.sends - 1 ==> !IsSuccess(outcome(k)) && !cancel(k)) &&
      (|run.waits| == PostAttempts - i ==>
        (run.sends == PostAttempts &&
         run.err == (if i < PostAttempts then Some(FailureOf(outcome(PostAttempts - 1))) else lastErr)))
    decreases PostAttempts - i
  {
    if i < PostAttempts && !IsSuccess(outcome(i)) && !cancel(i) {
      PostSchedule(i + 1, outcome, cancel, Some(FailureOf(outcome(i))));
    }
  }

  lemma PostDelays()
    ensures PostDelay(0) == 250 * Millisecond && PostDelay(1) == 500 * Millisecond && PostDelay(2) == 1000 * Millisecond
  {
  }
}
