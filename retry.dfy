/** The retry loops that wrap one chat-model call. Every pipeline variant waits
    on the rate limiter, calls the model, strips Markdown fences from the reply
    and decodes it as JSON, at most four times (`maxRetries := 3`). The variants
    differ in what they retry, how long they back off and what error they return.

    The limiter, the model and the JSON decoder are oracles: attempt `i` is
    described by `att(i)`, and `p.decode` stands for json.Unmarshal into the
    expected type. `p.clean` is the reply clean-up every loop applies before
    decoding; every caller in this model requires it to be `Text.StripFences`
    (the predicates named StripsFences), the code the loops share. Sleeping is
    recorded, not performed: `backoffs` lists the attempts after which the loop
    slept, attempt `j` sleeping `Backoff(j)` seconds. */
module Retry {
  import opened Base
  import opened Text

  /** Contexts of the errors the agents wrap. */
  const JsonUnmarshal: Bytes := [106, 115, 111, 110, 32, 117, 110, 109, 97, 114, 115, 104, 97, 108] // "json unmarshal"
  const JsonUnmarshalError: Bytes := [106, 115, 111, 110, 32, 117, 110, 109, 97, 114, 115, 104, 97, 108, 32, 101, 114, 114, 111, 114] // "json unmarshal error"
  const LimiterWaitError: Bytes := [108, 105, 109, 105, 116, 101, 114, 32, 119, 97, 105, 116, 32, 101, 114, 114, 111, 114] // "limiter wait error"

  // `maxRetries` is 3 in every loop: attempts are numbered 0 to 3.

  /** What the model returned for one call: a reply text or an error message. */
  datatype Reply = Replied(content: Bytes) | Failed(msg: Bytes)

  /** One attempt as the oracles decide it: the limiter's error, if any, the
      model's reply, and whether the context is cancelled before a back-off ends. */
  datatype Attempt = Attempt(waitErr: Option<Error>, reply: Reply, cancelled: bool)

  type Attempts = nat -> Attempt

  /** How a reply becomes a value: clean it up, then decode the JSON. */
  datatype Parser<T> = Parser(clean: Bytes -> Bytes, decode: Bytes -> Result<T, Error>)

  datatype Outcome<T> = Outcome(result: Result<T, Error>, calls: nat, backoffs: seq<nat>)

  /** `baseDelay * (1 << i)` with a base delay of 2 seconds. */
  function Backoff(i: nat): (d: nat)
    ensures d >= 2
  {
    if i == 0 then 2 else 2 * Backoff(i - 1)
  }

  /** Each back-off lasts twice as long as the one before it. */
  lemma {:induction false} BackoffIncreases(i: nat, j: nat)
    requires i < j
    ensures Backoff(i) < Backoff(j) && Backoff(i + 1) == 2 * Backoff(i)
    decreases j - i
  {
    if i + 1 < j {
      BackoffIncreases(i + 1, j);
    }
  }

  predicate Increasing(ds: seq<nat>)
  {
    forall k, l :: 0 <= k < l < |ds| ==> ds[k] < ds[l]
  }

  /** `ds` is a strictly increasing list of attempt numbers in `lo..hi-1`. */
  predicate Schedule(ds: seq<nat>, lo: nat, hi: nat)
  {
    (forall k :: 0 <= k < |ds| ==> lo <= ds[k] < hi) &&
    (forall k, l :: 0 <= k < l < |ds| ==> ds[k] < ds[l])
  }

  /** The sleep durations, in seconds, in the order slept: each one is the
      back-off of the attempt it follows, and later sleeps are longer. */
  function Delays<T(==)>(o: Outcome<T>): (ds: seq<nat>)
    ensures |ds| == |o.backoffs|
    ensures forall k :: 0 <= k < |ds| ==> ds[k] == Backoff(o.backoffs[k])
    ensures Increasing(o.backoffs) ==> Increasing(ds)
  {
    var ds := seq(|o.backoffs|, k requires 0 <= k < |o.backoffs| => Backoff(o.backoffs[k]));
    assert Increasing(o.backoffs) ==> Increasing(ds) by {
      if Increasing(o.backoffs) {
        forall k, l | 0 <= k < l < |ds| ensures ds[k] < ds[l] {
          BackoffIncreases(o.backoffs[k], o.backoffs[l]);
        }
      }
    }
    ds
  }

  function Sum(ds: seq<nat>): nat
  {
    if ds == [] then 0 else ds[0] + Sum(ds[1..])
  }

  /** Sleeping after a schedule of attempts in `lo..hi-1` takes at most
      `Backoff(lo) + … + Backoff(hi - 1)`, which is `Backoff(hi) - Backoff(lo)`. */
  lemma {:induction false} ScheduleSleep(ds: seq<nat>, bs: seq<nat>, lo: nat, hi: nat)
    requires lo <= hi && Schedule(bs, lo, hi)
    requires |ds| == |bs| && forall k :: 0 <= k < |ds| ==> ds[k] == Backoff(bs[k])
    ensures Sum(ds) + Backoff(lo) <= Backoff(hi)
    decreases |bs|
  {
    if bs != [] {
      assert Schedule(bs[1..], bs[0] + 1, hi) by {
        forall k | 0 <= k < |bs[1..]| ensures bs[0] + 1 <= bs[1..][k] {
          assert bs[1..][k] == bs[k + 1];
        }
      }
      ScheduleSleep(ds[1..], bs[1..], bs[0] + 1, hi);
      BackoffIncreases(bs[0], hi);
      if lo < bs[0] {
        BackoffIncreases(lo, bs[0]);
      }
    } else if lo < hi {
      BackoffIncreases(lo, hi);
    }
  }

  /** Prefix the outcome of the remaining attempts with what happened so far. */
  function After<T(==)>(calls: nat, backoffs: seq<nat>, o: Outcome<T>): Outcome<T>
  {
    Outcome(o.result, calls + o.calls, backoffs + o.backoffs)
  }

  /** The error texts the loops match on. */
  function Text429(): Bytes { Ascii("429") }
  function TextTooManyRequests(): Bytes { Ascii("too many requests") }

  /** The test shared by the retry loops that back off on rate limiting:
      the message contains "429" or, ignoring case, "too many requests". */
  predicate IsRateLimited(msg: Bytes)
  {
    Contains(msg, Text429()) || Contains(ToLowerAscii(msg), TextTooManyRequests())
  }

  /** The narrower test of the engine's deep-analysis loop. */
  predicate Is429(msg: Bytes)
  {
    Contains(msg, Text429())
  }


  /** How one attempt ends, up to decoding: the limiter failed, the model
      failed with a message, or the reply, stripped of its fences, decoded or not. */
  datatype Step<T> =
    | Limited(err: Error)
    | ModelFailed(msg: Bytes)
    | Decoded(value: T)
    | Undecodable(err: Error, clean: Bytes)

  function StepOf<T>(a: Attempt, p: Parser<T>): (s: Step<T>)
    ensures s.Limited? <==> a.waitErr.Some?
    ensures s.ModelFailed? <==> a.waitErr.None? && a.reply.Failed?
    ensures s.Decoded? ==> a.reply.Replied? && p.decode(p.clean(a.reply.content)) == Ok(s.value)
  {
    if a.waitErr.Some? then Limited(a.waitErr.value)
    else match a.reply
      case Failed(msg) => ModelFailed(msg)
      case Replied(content) =>
        var clean := p.clean(content);
        match p.decode(clean)
        case Ok(v) => Decoded(v)
        case Err(e) => Undecodable(e, clean)
  }

  /** The reply of attempt `j`, stripped of its fences, decoded to `v`. */
  predicate DecodedAt<T(==)>(att: Attempts, p: Parser<T>, j: nat, v: T)
  {
    StepOf(att(j), p) == Decoded(v)
  }

  /** What the loop body does with one attempt: return (after calling the
      model or not), or go round again, having slept or not, with a new `lastErr`. */
  datatype Next<T> = Stop(result: Result<T, Error>, called: bool) | Again(lastErr: Option<Error>, slept: bool)

  function Stopped<T>(r: Result<T, Error>, called: bool): Outcome<T>
  {
    Outcome(r, if called then 1 else 0, [])
  }

  /** One more call at attempt `i`, possibly followed by its back-off, then `rest`. */
  function Continue<T>(i: nat, slept: bool, rest: Outcome<T>): Outcome<T>
  {
    Outcome(rest.result, 1 + rest.calls, (if slept then [i] else []) + rest.backoffs)
  }

  lemma ContinueSchedule<T>(i: nat, slept: bool, rest: Outcome<T>, hi: nat)
    requires i < hi && Schedule(rest.backoffs, i + 1, hi) && |rest.backoffs| <= rest.calls
    ensures var o := Continue(i, slept, rest); Schedule(o.backoffs, i, hi) && |o.backoffs| <= o.calls
  {
    if slept {
      assert Continue(i, slept, rest).backoffs == [i] + rest.backoffs;
    } else {
      assert Continue(i, slept, rest).backoffs == rest.backoffs;
    }
  }

  /** The attempts slept after are this one, if it slept, and those of the rest. */
  lemma ContinueBackoffs<T>(i: nat, slept: bool, rest: Outcome<T>)
    ensures forall k :: k in Continue(i, slept, rest).backoffs ==> (slept && k == i) || k in rest.backoffs
  {
  }

  /** Going round the loop once more moves one call, and its back-off, into the prefix. */
  lemma AfterContinue<T>(calls: nat, backoffs: seq<nat>, i: nat, slept: bool, rest: Outcome<T>)
    ensures After(calls, backoffs, Continue(i, slept, rest))
         == After(calls + 1, backoffs + (if slept then [i] else []), rest)
  {
    var b := if slept then [i] else [];
    assert backoffs + (b + rest.backoffs) == (backoffs + b) + rest.backoffs;
  }

  /** Returning from the loop at attempt `i` ends the outcome with that call. */
  lemma AfterStopped<T>(calls: nat, backoffs: seq<nat>, r: Result<T, Error>)
    ensures After(calls, backoffs, Stopped(r, true)) == Outcome(r, calls + 1, backoffs)
    ensures After(calls, backoffs, Stopped(r, false)) == Outcome(r, calls, backoffs)
  {
    assert backoffs + [] == backoffs;
  }

  // ---- generateDomainReport (engine and domain_radar command) ---------------

  /** The body of generateDomainReport's loop at attempt `i`: a limiter error is
      returned unwrapped; a rate-limited model error backs off while attempts
      remain, any other model error is returned; a reply that does not decode is
      retried at once while attempts remain, the last one being returned as
      "json unmarshal: %w". */
  function GenerateNext<T>(s: Step<T>, i: nat): (n: Next<T>)
    ensures n.Again? ==> i < 3
    ensures n.Stop? && n.result.Ok? ==> s == Decoded(n.result.value) && n.called
    ensures n.Stop? && !n.called <==> s.Limited?
  {
    match s
    case Limited(e) => Stop(Err(e), false)
    case ModelFailed(msg) =>
      if IsRateLimited(msg) && i < 3 then Again(Some(Opaque(msg)), true) else Stop(Err(Opaque(msg)), true)
    case Decoded(v) => Stop(Ok(v), true)
    case Undecodable(e, _) =>
      if i < 3 then Again(Some(e), false) else Stop(Err(Wrapped(JsonUnmarshal, e)), true)
  }

  /** Attempts `i..3` of generateDomainReport. Its trailing `return nil, lastErr`
      is never reached: the fourth attempt always returns. */
  function GenerateSpec<T>(att: Attempts, p: Parser<T>, i: nat): (o: Outcome<T>)
    requires i <= 3
    ensures o.calls <= 4 - i
    ensures Schedule(o.backoffs, i, 3) && |o.backoffs| <= o.calls
    decreases 3 - i
  {
    var n := GenerateNext(StepOf(att(i), p), i);
    if n.Stop? then Stopped(n.result, n.called)
    else
      var rest := GenerateSpec(att, p, i + 1);
      ContinueSchedule(i, n.slept, rest, 3);
      Continue(i, n.slept, rest)
  }

  /** One pass of generateDomainReport's loop body. */
  method GenerateAttempt<T>(a: Attempt, p: Parser<T>, i: nat) returns (n: Next<T>)
    ensures n == GenerateNext(StepOf(a, p), i)
  {
    if a.waitErr.Some? {
      return Stop(Err(a.waitErr.value), false);
    }
    match a.reply {
      case Failed(msg) =>
        if IsRateLimited(msg) && i < 3 {
          return Again(Some(Opaque(msg)), true);
        }
        return Stop(Err(Opaque(msg)), true);
      case Replied(content) =>
        var r := p.decode(p.clean(content));
        if r.Err? {
          if i < 3 {
            return Again(Some(r.error), false);
          }
          return Stop(Err(Wrapped(JsonUnmarshal, r.error)), true);
        }
        return Stop(Ok(r.value), true);
    }
  }

  /** The loop of generateDomainReport. */
  method GenerateWithRetry<T>(att: Attempts, p: Parser<T>) returns (o: Outcome<T>)
    ensures o == GenerateSpec(att, p, 0)
  {
    var calls: nat, backoffs: seq<nat> := 0, [];
    var lastErr: Option<Error> := None;
    var i := 0;
    while true
      invariant 0 <= i <= 3
      invariant GenerateSpec(att, p, 0) == After(calls, backoffs, GenerateSpec(att, p, i))
      decreases 3 - i
    {
      var n := GenerateAttempt(att(i), p, i);
      if n.Stop? {
        AfterStopped(calls, backoffs, n.result);
        return Outcome(n.result, if n.called then calls + 1 else calls, backoffs);
      }
      AfterContinue(calls, backoffs, i, n.slept, GenerateSpec(att, p, i + 1));
      lastErr := n.lastErr;
      calls := calls + 1;
      backoffs := backoffs + if n.slept then [i] else [];
      i := i + 1;
    }
  }


  // ---- deepInterpretReport (engine and domain_radar command) ----------------

  /** The body of the engine's deepInterpretReport loop at attempt `i`: only a
      message containing "429" is retried, and its back-off is slept even after
      the last attempt, without recording the error; a reply that does not decode
      is always retried, becoming the last error. */
  function DeepNext<T>(s: Step<T>, lastErr: Option<Error>): (n: Next<T>)
    ensures n.Stop? && n.result.Ok? ==> s == Decoded(n.result.value) && n.called
    ensures n.Stop? && !n.called <==> s.Limited?
  {
    match s
    case Limited(e) => Stop(Err(e), false)
    case ModelFailed(msg) => if Is429(msg) then Again(lastErr, true) else Stop(Err(Opaque(msg)), true)
    case Decoded(v) => Stop(Ok(v), true)
    case Undecodable(e, _) => Again(Some(e), false)
  }

  /** "failed after retries" */
  const FailedAfterRetries: Bytes := [102, 97, 105, 108, 101, 100, 32, 97, 102, 116, 101, 114, 32, 114, 101, 116, 114, 105, 101, 115]

  /** Attempts `i..3` of deepInterpretReport; once they are used up the error is
      "failed after retries: %v" of the last decoding error, nil if there was none. */
  function DeepSpec<T>(att: Attempts, p: Parser<T>, i: nat, lastErr: Option<Error>): (o: Outcome<T>)
    requires i <= 4
    ensures o.calls <= 4 - i
    ensures Schedule(o.backoffs, i, 4) && |o.backoffs| <= o.calls
    decreases 4 - i
  {
    if i == 4 then Outcome(Err(Mentioning(FailedAfterRetries, lastErr)), 0, [])
    else
      var n := DeepNext(StepOf(att(i), p), lastErr);
      if n.Stop? then Stopped(n.result, n.called)
      else
        var rest := DeepSpec(att, p, i + 1, n.lastErr);
        ContinueSchedule(i, n.slept, rest, 4);
        Continue(i, n.slept, rest)
  }

  /** One pass of the engine's deepInterpretReport loop body. */
  method DeepAttempt<T>(a: Attempt, p: Parser<T>, lastErr: Option<Error>) returns (n: Next<T>)
    ensures n == DeepNext(StepOf(a, p), lastErr)
  {
    if a.waitErr.Some? {
      return Stop(Err(a.waitErr.value), false);
    }
    match a.reply {
      case Failed(msg) =>
        if Is429(msg) {
          return Again(lastErr, true);
        }
        return Stop(Err(Opaque(msg)), true);
      case Replied(content) =>
        var r := p.decode(p.clean(content));
        if r.Err? {
          return Again(Some(r.error), false);
        }
        return Stop(Ok(r.value), true);
    }
  }

  /** The loop of the engine's deepInterpretReport. */
  method DeepWithRetry<T>(att: Attempts, p: Parser<T>) returns (o: Outcome<T>)
    ensures o == DeepSpec(att, p, 0, None)
  {
    var calls: nat, backoffs: seq<nat> := 0, [];
    var lastErr: Option<Error> := None;
    var i := 0;
    while i <= 3
      invariant 0 <= i <= 4
      invariant DeepSpec(att, p, 0, None) == After(calls, backoffs, DeepSpec(att, p, i, lastErr))
      decreases 4 - i
    {
      var done;
      done, calls, backoffs, lastErr := DeepPass(att, p, i, calls, backoffs, lastErr);
      if done.Some? {
        return done.value;
      }
      i := i + 1;
    }
    assert backoffs + [] == backoffs;
    assert DeepSpec(att, p, 4, lastErr) == Outcome(Err(Mentioning(FailedAfterRetries, lastErr)), 0, []);
    o := Outcome(Err(Mentioning(FailedAfterRetries, lastErr)), calls, backoffs);
  }

  /** Attempt `i` of that loop with its bookkeeping: the outcome if it returns,
      otherwise the calls, back-offs and last error it goes round with. */
  method DeepPass<T>(att: Attempts, p: Parser<T>, i: nat, calls: nat, backoffs: seq<nat>, lastErr: Option<Error>)
    returns (done: Option<Outcome<T>>, calls': nat, backoffs': seq<nat>, lastErr': Option<Error>)
    requires i <= 3
    ensures done.Some? ==> done.value == After(calls, backoffs, DeepSpec(att, p, i, lastErr))
    ensures done.None? ==>
      After(calls, backoffs, DeepSpec(att, p, i, lastErr)) == After(calls', backoffs', DeepSpec(att, p, i + 1, lastErr'))
  {
    var n := DeepAttempt(att(i), p, lastErr);
    DeepSpecStep(att, p, i, lastErr, n);
    if n.Stop? {
      AfterStopped(calls, backoffs, n.result);
      return Some(Outcome(n.result, if n.called then calls + 1 else calls, backoffs)), calls, backoffs, lastErr;
    }
    AfterContinue(calls, backoffs, i, n.slept, DeepSpec(att, p, i + 1, n.lastErr));
    done, calls', backoffs', lastErr' := None, calls + 1, backoffs + (if n.slept then [i] else []), n.lastErr;
  }

  /** Attempt `i` of deepInterpretReport either ends the loop or hands over to
      attempt `i + 1`. */
  lemma DeepSpecStep<T>(att: Attempts, p: Parser<T>, i: nat, lastErr: Option<Error>, n: Next<T>)
    requires i < 4 && n == DeepNext(StepOf(att(i), p), lastErr)
    ensures n.Stop? ==> DeepSpec(att, p, i, lastErr) == Stopped(n.result, n.called)
    ensures n.Again? ==> DeepSpec(att, p, i, lastErr) == Continue(i, n.slept, DeepSpec(att, p, i + 1, n.lastErr))
  {
  }


  // ---- summarizeContent and the older deepInterpretReport -------------------

  /** The body of summarizeContent's loop at attempt `i` (in the command-line
      agents, and of deepInterpretReport in the older domain radar): a limiter
      error is wrapped as "limiter wait error: %w"; a rate-limited model error
      backs off while attempts remain, unless the context is cancelled first,
      which returns ctx.Err(); any other model error is returned; a reply that
      does not decode is retried at once while attempts remain, the last failure
      being returned as "json unmarshal error: %w, content: %s" with the cleaned
      reply. */
  function SummarizeNext<T>(s: Step<T>, cancelled: bool, i: nat): (n: Next<T>)
    ensures n.Again? ==> i < 3
    ensures n.Stop? && n.result.Ok? ==> s == Decoded(n.result.value) && n.called
    ensures n.Stop? && !n.called <==> s.Limited?
  {
    match s
    case Limited(e) => Stop(Err(Wrapped(LimiterWaitError, e)), false)
    case ModelFailed(msg) =>
      if IsRateLimited(msg) && i < 3 then
        if cancelled then Stop(Err(Cancelled), true) else Again(Some(Opaque(msg)), true)
      else Stop(Err(Opaque(msg)), true)
    case Decoded(v) => Stop(Ok(v), true)
    case Undecodable(e, clean) =>
      var err := WrappedWithContent(JsonUnmarshalError, e, clean);
      if i < 3 then Again(Some(err), false) else Stop(Err(err), true)
  }

  /** Attempts `i..3` of summarizeContent. Its trailing "max retries exceeded"
      is never reached: the fourth attempt always returns. */
  function SummarizeSpec<T>(att: Attempts, p: Parser<T>, i: nat): (o: Outcome<T>)
    requires i <= 3
    ensures o.calls <= 4 - i
    ensures Schedule(o.backoffs, i, 3) && |o.backoffs| <= o.calls
    decreases 3 - i
  {
    var n := SummarizeNext(StepOf(att(i), p), att(i).cancelled, i);
    if n.Stop? then Stopped(n.result, n.called)
    else
      var rest := SummarizeSpec(att, p, i + 1);
      ContinueSchedule(i, n.slept, rest, 3);
      Continue(i, n.slept, rest)
  }

  /** One pass of summarizeContent's loop body. */
  method SummarizeAttempt<T>(a: Attempt, p: Parser<T>, i: nat) returns (n: Next<T>)
    ensures n == SummarizeNext(StepOf(a, p), a.cancelled, i)
  {
    if a.waitErr.Some? {
      return Stop(Err(Wrapped(LimiterWaitError, a.waitErr.value)), false);
    }
    match a.reply {
      case Failed(msg) =>
        if IsRateLimited(msg) && i < 3 {
          if a.cancelled {
            return Stop(Err(Cancelled), true);
          }
          return Again(Some(Opaque(msg)), true);
        }
        return Stop(Err(Opaque(msg)), true);
      case Replied(content) =>
        var clean := p.clean(content);
        var r := p.decode(clean);
        if r.Err? {
          var lastErr := WrappedWithContent(JsonUnmarshalError, r.error, clean);
          if i < 3 {
            return Again(Some(lastErr), false);
          }
          return Stop(Err(lastErr), true);
        }
        return Stop(Ok(r.value), true);
    }
  }

  /** The loop of summarizeContent. */
  method SummarizeWithRetry<T>(att: Attempts, p: Parser<T>) returns (o: Outcome<T>)
    ensures o == SummarizeSpec(att, p, 0)
  {
    var calls: nat, backoffs: seq<nat> := 0, [];
    var lastErr: Option<Error> := None;
    var i := 0;
    while true
      invariant 0 <= i <= 3
      invariant SummarizeSpec(att, p, 0) == After(calls, backoffs, SummarizeSpec(att, p, i))
      decreases 3 - i
    {
      var n := SummarizeAttempt(att(i), p, i);
      if n.Stop? {
        AfterStopped(calls, backoffs, n.result);
        return Outcome(n.result, if n.called then calls + 1 else calls, backoffs);
      }
      AfterContinue(calls, backoffs, i, n.slept, SummarizeSpec(att, p, i + 1));
      lastErr := n.lastErr;
      calls := calls + 1;
      backoffs := backoffs + if n.slept then [i] else [];
      i := i + 1;
    }
  }


  // ---- the RSS agent's single-shot summarizeContent ---------------------------

  /** summarizeContent of the RSS agent: one limiter wait, one model call, no
      retry, with the error texts of the retrying version. */
  function SummarizeOnce<T>(a: Attempt, p: Parser<T>): (o: Outcome<T>)
    ensures o.calls <= 1 && o.backoffs == []
    ensures o.result.Ok? ==> a.reply.Replied? && p.decode(p.clean(a.reply.content)) == Ok(o.result.value)
    ensures o.calls == 0 <==> a.waitErr.Some?
  {
    match StepOf(a, p)
    case Limited(e) => Outcome(Err(Wrapped(LimiterWaitError, e)), 0, [])
    case ModelFailed(msg) => Outcome(Err(Opaque(msg)), 1, [])
    case Decoded(v) => Outcome(Ok(v), 1, [])
    case Undecodable(e, clean) => Outcome(Err(WrappedWithContent(JsonUnmarshalError, e, clean)), 1, [])
  }

  /** The RSS agent's summarizeContent: wait, call, clean up, decode. */
  method SummarizeOnceCall<T>(a: Attempt, p: Parser<T>) returns (o: Outcome<T>)
    ensures o == SummarizeOnce(a, p)
  {
    if a.waitErr.Some? {
      return Outcome(Err(Wrapped(LimiterWaitError, a.waitErr.value)), 0, []);
    }
    if a.reply.Failed? {
      return Outcome(Err(Opaque(a.reply.msg)), 1, []);
    }
    var clean := p.clean(a.reply.content);
    var r := p.decode(clean);
    if r.Err? {
      return Outcome(Err(WrappedWithContent(JsonUnmarshalError, r.error, clean)), 1, []);
    }
    return Outcome(Ok(r.value), 1, []);
  }

  // ---- properties ----------------------------------------------------------------

  /** A successful generateDomainReport returns what the decoder made of the reply
      of its last call, which is attempt `i + calls - 1`. */
  lemma {:induction false} GenerateResultIsDecodedReply<T>(att: Attempts, p: Parser<T>, i: nat)
    requires i <= 3
    ensures var o := GenerateSpec(att, p, i);
      o.result.Ok? ==> o.calls >= 1 && DecodedAt(att, p, i + o.calls - 1, o.result.value)
    decreases 3 - i
  {
    var n := GenerateNext(StepOf(att(i), p), i);
    if n.Again? {
      GenerateResultIsDecodedReply(att, p, i + 1);
    }
  }

  /** The same for deepInterpretReport. */
  lemma {:induction false} DeepResultIsDecodedReply<T>(att: Attempts, p: Parser<T>, i: nat, lastErr: Option<Error>)
    requires i <= 4
    ensures var o := DeepSpec(att, p, i, lastErr);
      o.result.Ok? ==> o.calls >= 1 && DecodedAt(att, p, i + o.calls - 1, o.result.value)
    decreases 4 - i
  {
    if i < 4 {
      var n := DeepNext(StepOf(att(i), p), lastErr);
      if n.Again? {
        var rest := DeepSpec(att, p, i + 1, n.lastErr);
        assert DeepSpec(att, p, i, lastErr) == Continue(i, n.slept, rest);
        DeepResultIsDecodedReply(att, p, i + 1, n.lastErr);
      } else {
        assert DeepSpec(att, p, i, lastErr) == Stopped(n.result, n.called);
      }
    }
  }

  /** The same for summarizeContent. */
  lemma {:induction false} SummarizeResultIsDecodedReply<T>(att: Attempts, p: Parser<T>, i: nat)
    requires i <= 3
    ensures var o := SummarizeSpec(att, p, i);
      o.result.Ok? ==> o.calls >= 1 && DecodedAt(att, p, i + o.calls - 1, o.result.value)
    decreases 3 - i
  {
    var n := SummarizeNext(StepOf(att(i), p), att(i).cancelled, i);
    if n.Again? {
      SummarizeResultIsDecodedReply(att, p, i + 1);
    }
  }

  /** A limiter error at attempt `i` ends every loop there, with no further
      model call: generateDomainReport and the engine's deepInterpretReport
      return it as it is, summarizeContent wraps it. */
  lemma LimiterErrorStopsAtOnce<T>(att: Attempts, p: Parser<T>, i: nat, lastErr: Option<Error>)
    requires i <= 3 && att(i).waitErr.Some?
    ensures GenerateSpec(att, p, i) == Outcome(Err(att(i).waitErr.value), 0, [])
    ensures DeepSpec(att, p, i, lastErr) == Outcome(Err(att(i).waitErr.value), 0, [])
    ensures SummarizeSpec(att, p, i) ==
      Outcome(Err(Wrapped(LimiterWaitError, att(i).waitErr.value)), 0, [])
  {
  }

  /** A model error at attempt `i` that is not rate limiting ends every loop
      with that error, after that one call and without a back-off. */
  lemma OtherErrorStopsAtOnce<T>(att: Attempts, p: Parser<T>, i: nat, lastErr: Option<Error>, msg: Bytes)
    requires i <= 3 && att(i).waitErr.None? && att(i).reply == Failed(msg) && !IsRateLimited(msg)
    ensures GenerateSpec(att, p, i) == Outcome(Err(Opaque(msg)), 1, [])
    ensures DeepSpec(att, p, i, lastErr) == Outcome(Err(Opaque(msg)), 1, [])
    ensures SummarizeSpec(att, p, i) == Outcome(Err(Opaque(msg)), 1, [])
  {
  }

  /** The engine's deepInterpretReport only retries "429": a "Too Many
      Requests" message without it ends that loop, wherever it comes. */
  lemma DeepNon429Stops<T>(att: Attempts, p: Parser<T>, i: nat, lastErr: Option<Error>, msg: Bytes)
    requires i <= 3 && att(i).waitErr.None? && att(i).reply == Failed(msg) && !Is429(msg)
    ensures DeepSpec(att, p, i, lastErr) == Outcome(Err(Opaque(msg)), 1, [])
  {
  }

  /** A rate-limited model error on the fourth attempt is returned as it is,
      without a back-off, by generateDomainReport and summarizeContent. */
  lemma RateLimitedOnLastAttempt<T>(att: Attempts, p: Parser<T>, msg: Bytes)
    requires att(3).waitErr.None? && att(3).reply == Failed(msg)
    ensures GenerateSpec(att, p, 3) == Outcome(Err(Opaque(msg)), 1, [])
    ensures SummarizeSpec(att, p, 3) == Outcome(Err(Opaque(msg)), 1, [])
  {
  }

  /** Attempt `k` failed in the model with a rate-limiting message: the only
      kind of failure any loop backs off after. */
  predicate RateLimitedAt(att: Attempts, k: nat)
  {
    att(k).waitErr.None? && att(k).reply.Failed? && IsRateLimited(att(k).reply.msg)
  }

  /** generateDomainReport sleeps only after a rate-limited model error: never
      after a limiter error, nor after a reply that does not decode. */
  lemma {:induction false} GenerateBackoffsRateLimited<T>(att: Attempts, p: Parser<T>, i: nat)
    requires i <= 3
    ensures forall k :: k in GenerateSpec(att, p, i).backoffs ==> RateLimitedAt(att, k)
    decreases 3 - i
  {
    var n := GenerateNext(StepOf(att(i), p), i);
    if n.Again? {
      GenerateBackoffsRateLimited(att, p, i + 1);
      assert GenerateSpec(att, p, i) == Continue(i, n.slept, GenerateSpec(att, p, i + 1));
      assert n.slept ==> RateLimitedAt(att, i);
    }
  }

  /** The engine's deepInterpretReport sleeps only after a model error that
      contains "429". */
  lemma {:induction false} DeepBackoffsRateLimited<T>(att: Attempts, p: Parser<T>, i: nat, lastErr: Option<Error>)
    requires i <= 4
    ensures forall k :: k in DeepSpec(att, p, i, lastErr).backoffs ==>
      att(k).waitErr.None? && att(k).reply.Failed? && Is429(att(k).reply.msg)
    decreases 4 - i
  {
    if i < 4 {
      var n := DeepNext(StepOf(att(i), p), lastErr);
      DeepSpecStep(att, p, i, lastErr, n);
      if n.Again? {
        DeepSleepIs429(att(i), p, lastErr);
        DeepBackoffsRateLimited(att, p, i + 1, n.lastErr);
        ContinueBackoffs(i, n.slept, DeepSpec(att, p, i + 1, n.lastErr));
      }
    }
  }

  lemma DeepSleepIs429<T>(a: Attempt, p: Parser<T>, lastErr: Option<Error>)
    ensures var n := DeepNext(StepOf(a, p), lastErr);
      n.Again? && n.slept ==> a.waitErr.None? && a.reply.Failed? && Is429(a.reply.msg)
  {
  }

  /** summarizeContent sleeps only after a rate-limited model error whose
      back-off the context lets finish. */
  lemma {:induction false} SummarizeBackoffsRateLimited<T>(att: Attempts, p: Parser<T>, i: nat)
    requires i <= 3
    ensures forall k :: k in SummarizeSpec(att, p, i).backoffs ==> RateLimitedAt(att, k) && !att(k).cancelled
    decreases 3 - i
  {
    var n := SummarizeNext(StepOf(att(i), p), att(i).cancelled, i);
    if n.Again? {
      SummarizeBackoffsRateLimited(att, p, i + 1);
      assert SummarizeSpec(att, p, i) == Continue(i, n.slept, SummarizeSpec(att, p, i + 1));
      assert n.slept ==> RateLimitedAt(att, i) && !att(i).cancelled;
    }
  }

  /** However the attempts go, generateDomainReport and summarizeContent sleep
      at most 2 + 4 + 8 seconds, and the engine's deepInterpretReport at most
      2 + 4 + 8 + 16, its last back-off included. */
  lemma SleepBounds<T>(att: Attempts, p: Parser<T>)
    ensures Sum(Delays(GenerateSpec(att, p, 0))) <= 2 + 4 + 8
    ensures Sum(Delays(SummarizeSpec(att, p, 0))) <= 2 + 4 + 8
    ensures Sum(Delays(DeepSpec(att, p, 0, None))) <= 2 + 4 + 8 + 16
  {
    var g, s, d := GenerateSpec(att, p, 0), SummarizeSpec(att, p, 0), DeepSpec(att, p, 0, None);
    ScheduleSleep(Delays(g), g.backoffs, 0, 3);
    ScheduleSleep(Delays(s), s.backoffs, 0, 3);
    ScheduleSleep(Delays(d), d.backoffs, 0, 4);
    assert Backoff(3) == 16 && Backoff(4) == 32;
  }

  /** The rate-limit test ignores case: a message in which "too many requests"
      occurs in any mix of upper and lower case is rate limiting. */
  lemma RateLimitedAnyCase(msg: Bytes, i: nat)
    requires i + |TextTooManyRequests()| <= |msg|
    requires forall k :: 0 <= k < |TextTooManyRequests()| ==> LowerAscii(msg[i + k]) == TextTooManyRequests()[k]
    ensures IsRateLimited(msg)
  {
    var lower := ToLowerAscii(msg);
    assert OccursAt(lower, TextTooManyRequests(), i) by {
      assert lower[i..i + |TextTooManyRequests()|] == TextTooManyRequests();
    }
    ContainsIffOccurs(lower, TextTooManyRequests());
  }

  /** Two rate-limited calls followed by a reply that decodes to `v`: the result
      is `v` after three calls, having slept 2 s and then 4 s. */
  lemma {:induction false} RetryAfterTwoRateLimits<T>(att: Attempts, p: Parser<T>, v: T)
    requires forall j :: 0 <= j < 3 ==> att(j).waitErr.None? && !att(j).cancelled
    requires att(0).reply.Failed? && Is429(att(0).reply.msg)
    requires att(1).reply.Failed? && Is429(att(1).reply.msg)
    requires DecodedAt(att, p, 2, v)
    ensures GenerateSpec(att, p, 0) == Outcome(Ok(v), 3, [0, 1])
    ensures DeepSpec(att, p, 0, None) == Outcome(Ok(v), 3, [0, 1])
    ensures SummarizeSpec(att, p, 0) == Outcome(Ok(v), 3, [0, 1])
    ensures Delays(GenerateSpec(att, p, 0)) == [2, 4]
  {
    var a0, a1, a2 := att(0), att(1), att(2);
    assert a0.waitErr.None? && a1.waitErr.None? && a2.waitErr.None?;
    assert !a0.cancelled && !a1.cancelled;
    assert GenerateSpec(att, p, 2) == Outcome(Ok(v), 1, []);
    assert GenerateSpec(att, p, 1) == Outcome(Ok(v), 2, [1]);
    assert DeepSpec(att, p, 2, None) == Outcome(Ok(v), 1, []);
    assert DeepSpec(att, p, 1, None) == Outcome(Ok(v), 2, [1]);
    assert SummarizeSpec(att, p, 2) == Outcome(Ok(v), 1, []);
    assert SummarizeSpec(att, p, 1) == Outcome(Ok(v), 2, [1]);
    assert Backoff(1) == 4;
  }

  /** Replies that never decode: generateDomainReport returns the fourth decoding
      error wrapped, after four calls and no sleep; deepInterpretReport returns
      "failed after retries" naming that same error. */
  lemma {:induction false} DecodeFailuresExhaust<T>(att: Attempts, p: Parser<T>)
    requires forall j :: 0 <= j <= 3 ==> StepOf(att(j), p).Undecodable?
    ensures GenerateSpec(att, p, 0) ==
      Outcome(Err(Wrapped(JsonUnmarshal, StepOf(att(3), p).err)), 4, [])
    ensures DeepSpec(att, p, 0, None) ==
      Outcome(Err(Mentioning(FailedAfterRetries, Some(StepOf(att(3), p).err))), 4, [])
  {
    var e3 := StepOf(att(3), p).err;
    assert StepOf(att(0), p).Undecodable? && StepOf(att(1), p).Undecodable?;
    assert StepOf(att(2), p).Undecodable? && StepOf(att(3), p).Undecodable?;
    var g3 := GenerateSpec(att, p, 3);
    assert g3 == Outcome(Err(Wrapped(JsonUnmarshal, e3)), 1, []);
    assert GenerateSpec(att, p, 2) == Continue(2, false, g3);
    assert GenerateSpec(att, p, 1) == Continue(1, false, GenerateSpec(att, p, 2));
    var fail := Err(Mentioning(FailedAfterRetries, Some(e3)));
    forall e: Option<Error> ensures DeepSpec(att, p, 3, e) == Outcome(fail, 1, []) {
    }
    forall e: Option<Error> ensures DeepSpec(att, p, 2, e) == Outcome(fail, 2, []) {
    }
    forall e: Option<Error> ensures DeepSpec(att, p, 1, e) == Outcome(fail, 3, []) {
    }
  }

  /** Four calls that all answer "429": deepInterpretReport sleeps after each of
      them, the last included, and then fails naming no error at all, since a
      rate-limit error is never recorded as its last error. */
  lemma {:induction false} DeepRateLimitedThroughout<T>(att: Attempts, p: Parser<T>)
    requires forall j :: 0 <= j <= 3 ==> att(j).waitErr.None? && att(j).reply.Failed? && Is429(att(j).reply.msg)
    ensures DeepSpec(att, p, 0, None) ==
      Outcome(Err(Mentioning(FailedAfterRetries, None)), 4, [0, 1, 2, 3])
    ensures Delays(DeepSpec(att, p, 0, None)) == [2, 4, 8, 16]
  {
    DeepRateLimitedFrom(att, p, 0);
    assert AttemptNumbers(0, 4) == [0, 1, 2, 3];
    assert Backoff(1) == 4 && Backoff(2) == 8 && Backoff(3) == 16;
  }

  /** The attempt numbers `lo..hi-1`, in order. */
  function AttemptNumbers(lo: nat, hi: nat): (r: seq<nat>)
    ensures |r| == if lo < hi then hi - lo else 0
    decreases hi - lo
  {
    if lo >= hi then [] else [lo] + AttemptNumbers(lo + 1, hi)
  }

  lemma {:induction false} DeepRateLimitedFrom<T>(att: Attempts, p: Parser<T>, i: nat)
    requires i <= 4
    requires forall j :: i <= j <= 3 ==> att(j).waitErr.None? && att(j).reply.Failed? && Is429(att(j).reply.msg)
    ensures DeepSpec(att, p, i, None) ==
      Outcome(Err(Mentioning(FailedAfterRetries, None)), 4 - i, AttemptNumbers(i, 4))
    decreases 4 - i
  {
    if i < 4 {
      RateLimitedAgain(att, p, i);
      DeepSpecStep(att, p, i, None, Again(None, true));
      DeepRateLimitedFrom(att, p, i + 1);
    }
  }

  lemma RateLimitedAgain<T>(att: Attempts, p: Parser<T>, j: nat)
    requires att(j).waitErr.None? && att(j).reply.Failed? && Is429(att(j).reply.msg)
    ensures DeepNext(StepOf(att(j), p), None) == Again(None, true)
  {
  }

  /** Cancellation during any back-off ends summarizeContent with ctx.Err(),
      after the call that was rate limited. */
  lemma CancelledDuringBackoff<T>(att: Attempts, p: Parser<T>, i: nat)
    requires i < 3 && RateLimitedAt(att, i) && att(i).cancelled
    ensures SummarizeSpec(att, p, i) == Outcome(Err(Cancelled), 1, [])
  {
  }

  /** The RSS agent's single shot is the last attempt of the retrying
      summarizeContent: the one where nothing is retried any more. */
  lemma SummarizeOnceIsLastAttempt<T>(att: Attempts, p: Parser<T>)
    ensures SummarizeOnce(att(3), p) == SummarizeSpec(att, p, 3)
  {
  }

  /** It also decides like the first attempt of the retrying version whenever
      that attempt ends the retrying loop. */
  lemma SummarizeOnceIsFirstAttempt<T>(att: Attempts, p: Parser<T>)
    requires SummarizeNext(StepOf(att(0), p), att(0).cancelled, 0).Stop?
    requires !att(0).cancelled
    ensures SummarizeOnce(att(0), p) == SummarizeSpec(att, p, 0)
  {
  }
}
