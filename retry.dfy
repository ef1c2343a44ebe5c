/**
 * The retry-bounded completion call. The remote chat-completion service is
 * an oracle: `remote(q, k)` is what the k-th remote call of the run (counted
 * from 0 over the whole process) answers to request `q`. What the caller can
 * observe — each call, each logged failure, each pause — is recorded as a
 * trace of events instead of being performed.
 */
module Retry {
  import opened Wrappers

  /** Retry bound, pause length in seconds, credential and model name. */
  datatype Config = Config(apiKey: string, model: string, attempts: nat, delay: nat)

  datatype Message = Message(role: string, content: string)

  datatype Request = Request(apiKey: string, model: string, messages: seq<Message>)

  /** One remote call: the completion's choices, or an exception raised by the client. */
  datatype Reply = Completion(choices: seq<string>) | Raised(error: string)

  type Remote = (Request, nat) -> Reply

  /** What the outside world sees while the pipeline runs. */
  datatype Event =
    | Called(request: Request)
    | AttemptFailed(attempt: nat, total: nat)
    | Slept(seconds: nat)
    | Progress(row: nat, total: nat)
    | Saved(path: string)

  /** A returned completion text, or the terminal error naming the attempt bound. */
  datatype CallResult = Returned(text: string) | RuntimeError(attempts: nat)

  /** The outcome of one call, what it showed the world, and how many remote calls it made. */
  datatype Run = Run(result: CallResult, trace: seq<Event>, calls: nat)

  /** The request for a system prompt and a user prompt. */
  function ChatRequest(cfg: Config, system: string, user: string): Request {
    Request(cfg.apiKey, cfg.model, [Message("system", system), Message("user", user)])
  }

  /**
   * The text of the first choice; a reply with no choices fails like an
   * exception, since reading choice 0 raises inside the same try block.
   */
  function Content(reply: Reply): Option<string> {
    if reply.Completion? && |reply.choices| > 0 then Some(reply.choices[0]) else None
  }

  /** What the attempt with 0-based number `k` of a call whose first remote call has index `first` yields. */
  function Answer(remote: Remote, req: Request, first: nat, k: nat): Option<string> {
    Content(remote(req, first + k))
  }

  /**
   * The state machine of one call, from the point where `done` attempts have
   * failed: call; on success stop; on failure log the attempt, then either
   * pause and go on, or stop with the terminal error.
   */
  function Attempts(remote: Remote, cfg: Config, req: Request, first: nat, done: nat): Run
    requires done < cfg.attempts
    decreases cfg.attempts - done
  {
    match Answer(remote, req, first, done)
    case Some(text) => Run(Returned(text), [Called(req)], 1)
    case None =>
      if done + 1 < cfg.attempts then
        var rest := Attempts(remote, cfg, req, first, done + 1);
        Run(rest.result, [Called(req), AttemptFailed(done + 1, cfg.attempts), Slept(cfg.delay)] + rest.trace, rest.calls + 1)
      else
        Run(RuntimeError(cfg.attempts), [Called(req), AttemptFailed(cfg.attempts, cfg.attempts)], 1)
  }

  /**
   * One attempt of the state machine, seen after a trace `t` already
   * logged: an answer ends the call with the single call event; a failure
   * with attempts left logs the call, the failure and the pause and goes
   * on from the next attempt; the last failure ends the call with the
   * terminal error.
   */
  // The prefix `t` on both sides of each trace equation is the trace logged
  // before this attempt; it hands the loop invariant of CallLlm the
  // associativity step it needs.
  lemma AttemptStep(remote: Remote, cfg: Config, req: Request, first: nat, done: nat, t: seq<Event>)
    requires done < cfg.attempts
    ensures var now := Attempts(remote, cfg, req, first, done);
      Answer(remote, req, first, done).Some? ==>
        now.result == Returned(Answer(remote, req, first, done).value) && t + now.trace == t + [Called(req)]
    ensures var now := Attempts(remote, cfg, req, first, done);
      Answer(remote, req, first, done).None? && done + 1 < cfg.attempts ==>
        var rest := Attempts(remote, cfg, req, first, done + 1);
        now.result == rest.result
        && t + now.trace == t + [Called(req)] + [AttemptFailed(done + 1, cfg.attempts)] + [Slept(cfg.delay)] + rest.trace
    ensures var now := Attempts(remote, cfg, req, first, done);
      Answer(remote, req, first, done).None? && done + 1 >= cfg.attempts ==>
        now.result == RuntimeError(cfg.attempts)
        && t + now.trace == t + [Called(req)] + [AttemptFailed(cfg.attempts, cfg.attempts)]
  {
    var now := Attempts(remote, cfg, req, first, done);
    if Answer(remote, req, first, done).None? && done + 1 < cfg.attempts {
      var rest := Attempts(remote, cfg, req, first, done + 1);
      var step := [Called(req), AttemptFailed(done + 1, cfg.attempts), Slept(cfg.delay)];
      assert now.trace == step + rest.trace;
      assert t + (step + rest.trace) == (t + step) + rest.trace;
      assert t + step == t + [Called(req)] + [AttemptFailed(done + 1, cfg.attempts)] + [Slept(cfg.delay)];
    } else if Answer(remote, req, first, done).None? {
      assert now.trace == [Called(req), AttemptFailed(cfg.attempts, cfg.attempts)];
      assert t + now.trace == t + [Called(req)] + [AttemptFailed(cfg.attempts, cfg.attempts)];
    }
  }

  /**
   * The loop sees a reply only through `Content`: two services whose replies
   * give the same first-choice text, or both fail, at every attempt of the
   * call lead to the same result and trace. An exception of any kind and a
   * completion with no choices are handled alike.
   */
  lemma {:induction false} OnlyContentMatters(r1: Remote, r2: Remote, cfg: Config, req: Request, first: nat, done: nat)
    requires done < cfg.attempts
    requires forall k :: done <= k < cfg.attempts ==> Answer(r1, req, first, k) == Answer(r2, req, first, k)
    ensures Attempts(r1, cfg, req, first, done) == Attempts(r2, cfg, req, first, done)
    decreases cfg.attempts - done
  {
    if done + 1 < cfg.attempts {
      OnlyContentMatters(r1, r2, cfg, req, first, done + 1);
    }
  }

  /** Number of remote calls in a trace. */
  function Calls(t: seq<Event>): nat {
    if t == [] then 0 else (if t[0].Called? then 1 else 0) + Calls(t[1..])
  }

  /** Number of pauses in a trace. */
  function Sleeps(t: seq<Event>): nat {
    if t == [] then 0 else (if t[0].Slept? then 1 else 0) + Sleeps(t[1..])
  }

  /** The logged failures of a trace, in order. */
  function Failures(t: seq<Event>): seq<Event> {
    if t == [] then [] else (if t[0].AttemptFailed? then [t[0]] else []) + Failures(t[1..])
  }

  lemma {:induction false} CountsAppend(a: seq<Event>, b: seq<Event>)
    ensures Calls(a + b) == Calls(a) + Calls(b)
    ensures Sleeps(a + b) == Sleeps(a) + Sleeps(b)
    ensures Failures(a + b) == Failures(a) + Failures(b)
  {
    if a != [] {
      assert (a + b)[1..] == a[1..] + b;
      CountsAppend(a[1..], b);
    } else {
      assert a + b == b;
    }
  }

  lemma RetryStepCounts(req: Request, attempt: nat, total: nat, delay: nat, rest: seq<Event>)
    ensures var t := [Called(req), AttemptFailed(attempt, total), Slept(delay)] + rest;
      Calls(t) == Calls(rest) + 1 && Sleeps(t) == Sleeps(rest) + 1
      && Failures(t) == [AttemptFailed(attempt, total)] + Failures(rest)
  {
    var t := [Called(req), AttemptFailed(attempt, total), Slept(delay)] + rest;
    var t1 := [AttemptFailed(attempt, total), Slept(delay)] + rest;
    var t2 := [Slept(delay)] + rest;
    assert t[1..] == t1 && t1[1..] == t2 && t2[1..] == rest;
    assert Calls(t2) == Calls(rest) && Sleeps(t2) == Sleeps(rest) + 1 && Failures(t2) == Failures(rest);
    assert Calls(t1) == Calls(rest) && Sleeps(t1) == Sleeps(rest) + 1;
    assert Failures(t1) == [AttemptFailed(attempt, total)] + Failures(rest);
  }

  lemma LastStepCounts(req: Request, attempt: nat, total: nat)
    ensures var t := [Called(req), AttemptFailed(attempt, total)];
      Calls(t) == 1 && Sleeps(t) == 0 && Failures(t) == [AttemptFailed(attempt, total)]
  {
    var t := [Called(req), AttemptFailed(attempt, total)];
    var t1 := [AttemptFailed(attempt, total)];
    assert t[1..] == t1 && t1[1..] == [];
    assert Calls(t1) == 0 && Sleeps(t1) == 0 && Failures(t1) == [AttemptFailed(attempt, total)];
  }

  /**
   * At most the bound of calls are made, one pause separates consecutive
   * calls, and the failure log numbers the failed attempts 1, 2, ... in order,
   * each against the bound.
   */
  lemma {:induction false} CallsWithinBound(remote: Remote, cfg: Config, req: Request, first: nat, done: nat)
    requires done < cfg.attempts
    ensures var run := Attempts(remote, cfg, req, first, done);
      1 <= Calls(run.trace) <= cfg.attempts - done
      && Sleeps(run.trace) == Calls(run.trace) - 1
      && |Failures(run.trace)| == (if run.result.Returned? then Calls(run.trace) - 1 else Calls(run.trace))
      && forall j :: 0 <= j < |Failures(run.trace)| ==> Failures(run.trace)[j] == AttemptFailed(done + 1 + j, cfg.attempts)
    decreases cfg.attempts - done
  {
    match Answer(remote, req, first, done)
    case Some(text) =>
      assert [Called(req)][1..] == [];
    case None =>
      if done + 1 < cfg.attempts {
        var rest := Attempts(remote, cfg, req, first, done + 1);
        CallsWithinBound(remote, cfg, req, first, done + 1);
        RetryStepCounts(req, done + 1, cfg.attempts, cfg.delay, rest.trace);
      } else {
        LastStepCounts(req, cfg.attempts, cfg.attempts);
      }
  }

  /** The call count a run reports is the number of calls in its trace. */
  lemma {:induction false} CallsCounted(remote: Remote, cfg: Config, req: Request, first: nat, done: nat)
    requires done < cfg.attempts
    ensures var run := Attempts(remote, cfg, req, first, done);
      Calls(run.trace) == run.calls
    decreases cfg.attempts - done
  {
    match Answer(remote, req, first, done)
    case Some(text) =>
      assert [Called(req)][1..] == [];
    case None =>
      if done + 1 < cfg.attempts {
        var rest := Attempts(remote, cfg, req, first, done + 1);
        CallsCounted(remote, cfg, req, first, done + 1);
        RetryStepCounts(req, done + 1, cfg.attempts, cfg.delay, rest.trace);
      } else {
        LastStepCounts(req, cfg.attempts, cfg.attempts);
      }
  }

  /**
   * When attempts `done` .. `k`-1 fail and attempt `k` succeeds, the call
   * returns attempt `k`'s text after exactly k - done + 1 calls and
   * k - done pauses.
   */
  lemma {:induction false} SucceedsAt(remote: Remote, cfg: Config, req: Request, first: nat, done: nat, k: nat)
    requires done <= k < cfg.attempts
    requires forall j :: done <= j < k ==> Answer(remote, req, first, j).None?
    requires Answer(remote, req, first, k).Some?
    ensures var run := Attempts(remote, cfg, req, first, done);
      run.result == Returned(Answer(remote, req, first, k).value)
      && Calls(run.trace) == k - done + 1 && Sleeps(run.trace) == k - done
    decreases k - done
  {
    if done == k {
      assert [Called(req)][1..] == [];
    } else {
      assert Answer(remote, req, first, done).None?;
      var rest := Attempts(remote, cfg, req, first, done + 1);
      SucceedsAt(remote, cfg, req, first, done + 1, k);
      RetryStepCounts(req, done + 1, cfg.attempts, cfg.delay, rest.trace);
    }
  }

  /**
   * When every remaining attempt fails, the call ends in the terminal error
   * naming the bound, after exactly one call per remaining attempt and one
   * pause fewer, and its last event is the logged final failure: no pause
   * follows it.
   */
  lemma {:induction false} ExhaustedRaises(remote: Remote, cfg: Config, req: Request, first: nat, done: nat)
    requires done < cfg.attempts
    requires forall j :: done <= j < cfg.attempts ==> Answer(remote, req, first, j).None?
    ensures var run := Attempts(remote, cfg, req, first, done);
      run.result == RuntimeError(cfg.attempts)
      && Calls(run.trace) == cfg.attempts - done && Sleeps(run.trace) == cfg.attempts - done - 1
      && run.trace[|run.trace| - 1] == AttemptFailed(cfg.attempts, cfg.attempts)
    decreases cfg.attempts - done
  {
    assert Answer(remote, req, first, done).None?;
    if done + 1 < cfg.attempts {
      var rest := Attempts(remote, cfg, req, first, done + 1);
      ExhaustedRaises(remote, cfg, req, first, done + 1);
      RetryStepCounts(req, done + 1, cfg.attempts, cfg.delay, rest.trace);
    } else {
      LastStepCounts(req, cfg.attempts, cfg.attempts);
    }
  }

  /**
   * The call returns `s` exactly when some attempt within the bound answers
   * `s` and every attempt before it failed: earlier failures are never
   * surfaced, and no later answer is used.
   */
  lemma {:induction false} ReturnsFirstAnswer(remote: Remote, cfg: Config, req: Request, first: nat, done: nat, s: string)
    requires done < cfg.attempts
    ensures Attempts(remote, cfg, req, first, done).result == Returned(s) <==>
      exists k :: done <= k < cfg.attempts && Answer(remote, req, first, k) == Some(s)
        && forall j :: done <= j < k ==> Answer(remote, req, first, j).None?
    decreases cfg.attempts - done
  {
    if Attempts(remote, cfg, req, first, done).result == Returned(s) {
      match Answer(remote, req, first, done)
      case Some(text) =>
        assert done <= done < cfg.attempts && Answer(remote, req, first, done) == Some(s);
      case None =>
        if done + 1 < cfg.attempts {
          ReturnsFirstAnswer(remote, cfg, req, first, done + 1, s);
          var k :| done + 1 <= k < cfg.attempts && Answer(remote, req, first, k) == Some(s)
            && forall j :: done + 1 <= j < k ==> Answer(remote, req, first, j).None?;
          assert forall j :: done <= j < k ==> Answer(remote, req, first, j).None?;
        }
    }
    if exists k :: done <= k < cfg.attempts && Answer(remote, req, first, k) == Some(s)
        && forall j :: done <= j < k ==> Answer(remote, req, first, j).None? {
      var k :| done <= k < cfg.attempts && Answer(remote, req, first, k) == Some(s)
        && forall j :: done <= j < k ==> Answer(remote, req, first, j).None?;
      SucceedsAt(remote, cfg, req, first, done, k);
    }
  }

  /** The call succeeds if and only if some attempt within the bound succeeds. */
  lemma {:induction false} SucceedsIff(remote: Remote, cfg: Config, req: Request, first: nat, done: nat)
    requires done < cfg.attempts
    ensures Attempts(remote, cfg, req, first, done).result.Returned? <==>
      exists k :: done <= k < cfg.attempts && Answer(remote, req, first, k).Some?
    decreases cfg.attempts - done
  {
    match Answer(remote, req, first, done)
    case Some(text) =>
    case None =>
      if done + 1 < cfg.attempts {
        SucceedsIff(remote, cfg, req, first, done + 1);
        assert forall k :: done <= k < cfg.attempts && Answer(remote, req, first, k).Some? ==> done + 1 <= k;
      }
  }

  /**
   * The shape of the trace: it opens with a call; every call carries the
   * request; every later call comes right after a pause of the configured
   * delay; every pause is followed by a call, so none follows the last attempt.
   */
  lemma {:induction false} PauseBetweenCalls(remote: Remote, cfg: Config, req: Request, first: nat, done: nat)
    requires done < cfg.attempts
    ensures var t := Attempts(remote, cfg, req, first, done).trace;
      |t| > 0 && t[0] == Called(req)
      && (forall i :: 0 <= i < |t| && t[i].Called? ==> t[i] == Called(req))
      && (forall i :: 0 < i < |t| && t[i].Called? ==> t[i - 1] == Slept(cfg.delay))
      && (forall i :: 0 <= i < |t| && t[i].Slept? ==> i + 1 < |t| && t[i + 1] == Called(req))
    decreases cfg.attempts - done
  {
    match Answer(remote, req, first, done)
    case Some(text) =>
    case None =>
      if done + 1 < cfg.attempts {
        var rest := Attempts(remote, cfg, req, first, done + 1).trace;
        PauseBetweenCalls(remote, cfg, req, first, done + 1);
        var t := [Called(req), AttemptFailed(done + 1, cfg.attempts), Slept(cfg.delay)] + rest;
        assert forall i :: 3 <= i < |t| ==> t[i] == rest[i - 3];
      }
  }

  /**
   * With three attempts and a five-second pause: a service that raises on
   * the first two calls and answers on the third yields that answer after
   * two logged failures and two pauses.
   */
  lemma FlakyServiceScenario(req: Request)
    ensures var cfg := Config(req.apiKey, req.model, 3, 5);
      var remote: Remote := (q, k) => if k < 2 then Raised("timeout") else Completion(["ok"]);
      Attempts(remote, cfg, req, 0, 0)
      == Run(Returned("ok"),
             [Called(req), AttemptFailed(1, 3), Slept(5), Called(req), AttemptFailed(2, 3), Slept(5), Called(req)],
             3)
  {
    var cfg := Config(req.apiKey, req.model, 3, 5);
    var remote: Remote := (q, k) => if k < 2 then Raised("timeout") else Completion(["ok"]);
    var last := Attempts(remote, cfg, req, 0, 2);
    assert last == Run(Returned("ok"), [Called(req)], 1);
    var middle := Attempts(remote, cfg, req, 0, 1);
    assert middle.trace == [Called(req), AttemptFailed(2, 3), Slept(5)] + last.trace;
  }

  /**
   * With three attempts: a service that always answers with no choices
   * ends in the terminal error after three calls, two pauses and three
   * logged failures, the last one numbered 3/3.
   */
  lemma EmptyServiceScenario(req: Request)
    ensures var cfg := Config(req.apiKey, req.model, 3, 5);
      var remote: Remote := (q, k) => Completion([]);
      Attempts(remote, cfg, req, 0, 0)
      == Run(RuntimeError(3),
             [Called(req), AttemptFailed(1, 3), Slept(5), Called(req), AttemptFailed(2, 3), Slept(5),
              Called(req), AttemptFailed(3, 3)],
             3)
  {
    var cfg := Config(req.apiKey, req.model, 3, 5);
    var remote: Remote := (q, k) => Completion([]);
    var last := Attempts(remote, cfg, req, 0, 2);
    assert last == Run(RuntimeError(3), [Called(req), AttemptFailed(3, 3)], 1);
    var middle := Attempts(remote, cfg, req, 0, 1);
    assert middle.trace == [Called(req), AttemptFailed(2, 3), Slept(5)] + last.trace;
  }
}
