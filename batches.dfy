/**
 * The per-row summarisation of a whole table: one prompt per article, in
 * row order, each sent through the retry-bounded call; the first terminal
 * error aborts the batch.
 */
module Batches {
  import opened Wrappers
  import opened Prompts
  import opened Retry

  datatype BatchResult = Summaries(list: seq<string>) | Aborted(attempts: nat)

  datatype Batch = Batch(result: BatchResult, trace: seq<Event>)

  /** The request for one article: an empty system prompt and the article's prompt. */
  function SummaryRequest(cfg: Config, article: string): Request {
    ChatRequest(cfg, "", Prompt(article))
  }

  /** Puts one more summary in front of a batch outcome; an abort stays an abort. */
  function Prepend(s: string, r: BatchResult): BatchResult {
    match r
    case Summaries(list) => Summaries([s] + list)
    case Aborted(n) => r
  }

  /** The requests for the rows of a table, in row order. */
  function Requests(cfg: Config, texts: seq<string>): (qs: seq<Request>)
    ensures |qs| == |texts|
  {
    if texts == [] then [] else [SummaryRequest(cfg, texts[0])] + Requests(cfg, texts[1..])
  }

  /** Row `i`'s request is built from row `i`'s article. */
  lemma {:induction false} RequestAt(cfg: Config, texts: seq<string>, i: nat)
    requires i < |texts|
    ensures Requests(cfg, texts)[i] == SummaryRequest(cfg, texts[i])
    decreases i
  {
    if i > 0 {
      RequestAt(cfg, texts[1..], i - 1);
    }
  }

  /**
   * The batch over rows `i`, `i` + 1, ... of a table whose rows have the
   * requests `reqs`, when the next remote call has index `first`.
   */
  function Summarize(remote: Remote, cfg: Config, reqs: seq<Request>, i: nat, first: nat): Batch
    requires cfg.attempts >= 1
    decreases |reqs| - i
  {
    if i >= |reqs| then Batch(Summaries([]), [])
    else
      var run := Attempts(remote, cfg, reqs[i], first, 0);
      var head := [Progress(i + 1, |reqs|)] + run.trace;
      match run.result
      case RuntimeError(n) => Batch(Aborted(n), head)
      case Returned(s) =>
        var rest := Summarize(remote, cfg, reqs, i + 1, first + run.calls);
        Batch(Prepend(s, rest.result), head + rest.trace)
  }

  /** A batch outcome after `done` summaries and trace `t` have already been produced. */
  function Resume(done: seq<string>, t: seq<Event>, b: Batch): Batch {
    var r := match b.result
      case Summaries(list) => Summaries(done + list)
      case Aborted(n) => Aborted(n);
    Batch(r, t + b.trace)
  }

  /**
   * One step of the row loop, stated on the call's result `r` and events `u`
   * for row `i`'s article: the batch from row `i` either aborts here with
   * this row's events, or goes on from row `i` + 1 with this row's summary
   * and events added and the call index advanced by the calls made.
   */
  lemma Advance(remote: Remote, cfg: Config, texts: seq<string>, i: nat, next: nat,
                done: seq<string>, t: seq<Event>, r: CallResult, u: seq<Event>)
    requires cfg.attempts >= 1 && i < |texts|
    requires var run := Attempts(remote, cfg, SummaryRequest(cfg, texts[i]), next, 0);
      r == run.result && u == run.trace
    ensures var reqs := Requests(cfg, texts);
      r.RuntimeError? ==>
        Resume(done, t, Summarize(remote, cfg, reqs, i, next))
        == Batch(Aborted(r.attempts), t + [Progress(i + 1, |texts|)] + u)
    ensures var reqs := Requests(cfg, texts);
      r.Returned? ==>
        Resume(done, t, Summarize(remote, cfg, reqs, i, next))
        == Resume(done + [r.text], t + [Progress(i + 1, |texts|)] + u,
                  Summarize(remote, cfg, reqs, i + 1, next + Calls(u)))
  {
    var reqs := Requests(cfg, texts);
    RequestAt(cfg, texts, i);
    var run := Attempts(remote, cfg, reqs[i], next, 0);
    CallsCounted(remote, cfg, reqs[i], next, 0);
    var head := [Progress(i + 1, |texts|)] + run.trace;
    assert t + head == t + [Progress(i + 1, |texts|)] + run.trace;
    if run.result.Returned? {
      var rest := Summarize(remote, cfg, reqs, i + 1, next + run.calls);
      assert t + (head + rest.trace) == (t + [Progress(i + 1, |texts|)] + run.trace) + rest.trace;
      if rest.result.Summaries? {
        assert done + ([run.result.text] + rest.result.list) == (done + [run.result.text]) + rest.result.list;
      }
    }
  }

  /**
   * The index of the first remote call made for row `j` by the batch that
   * starts at row `i` with call index `first`: each earlier row advances it
   * by the calls its own retry loop made.
   */
  function RowStart(remote: Remote, cfg: Config, reqs: seq<Request>, i: nat, first: nat, j: nat): nat
    requires cfg.attempts >= 1 && i <= j <= |reqs|
    decreases j - i
  {
    if i == j then first
    else RowStart(remote, cfg, reqs, i + 1, first + Attempts(remote, cfg, reqs[i], first, 0).calls, j)
  }

  /** The request for an article carries an empty system prompt and the article itself, recoverably. */
  lemma SummaryRequestCarriesArticle(cfg: Config, article: string)
    ensures var q := SummaryRequest(cfg, article);
      q.apiKey == cfg.apiKey && q.model == cfg.model && |q.messages| == 2
      && q.messages[0] == Message("system", "") && q.messages[1].role == "user"
      && ArticleOf(q.messages[1].content) == Some(article)
  {
    ArticleOfPrompt(article);
  }

  /**
   * A returned text is the first choice of the answer the service gave to
   * the request at one of this call's own attempts.
   */
  lemma ReturnedIsReply(remote: Remote, cfg: Config, req: Request, first: nat)
    requires cfg.attempts >= 1
    ensures var r := Attempts(remote, cfg, req, first, 0).result;
      r.Returned? ==> exists k :: 0 <= k < cfg.attempts && Answer(remote, req, first, k) == Some(r.text)
  {
    var r := Attempts(remote, cfg, req, first, 0).result;
    if r.Returned? {
      ReturnsFirstAnswer(remote, cfg, req, first, 0, r.text);
    }
  }

  /**
   * A completed batch has exactly one summary per remaining row, in row
   * order: the summary at row j is what row j's own retry-bounded call
   * returned, that call starting at the call index where row j - 1's calls
   * ended.
   */
  lemma {:induction false} OneSummaryPerRow(remote: Remote, cfg: Config, reqs: seq<Request>, i: nat, first: nat)
    requires cfg.attempts >= 1 && i <= |reqs|
    ensures var b := Summarize(remote, cfg, reqs, i, first);
      b.result.Summaries? ==>
        |b.result.list| == |reqs| - i
        && forall j :: i <= j < |reqs| ==>
          Attempts(remote, cfg, reqs[j], RowStart(remote, cfg, reqs, i, first, j), 0).result
          == Returned(b.result.list[j - i])
    decreases |reqs| - i
  {
    if i < |reqs| {
      var run := Attempts(remote, cfg, reqs[i], first, 0);
      if run.result.Returned? {
        var rest := Summarize(remote, cfg, reqs, i + 1, first + run.calls);
        OneSummaryPerRow(remote, cfg, reqs, i + 1, first + run.calls);
        var b := Summarize(remote, cfg, reqs, i, first);
        if b.result.Summaries? {
          assert b.result.list == [run.result.text] + rest.result.list;
          forall j | i <= j < |reqs|
            ensures Attempts(remote, cfg, reqs[j], RowStart(remote, cfg, reqs, i, first, j), 0).result
              == Returned(b.result.list[j - i])
          {
            if j > i {
              assert RowStart(remote, cfg, reqs, i, first, j) == RowStart(remote, cfg, reqs, i + 1, first + run.calls, j);
              assert b.result.list[j - i] == rest.result.list[j - (i + 1)];
            }
          }
        }
      }
    }
  }

  /** A call that raises has used every attempt of the bound. */
  lemma RaisedUsesAllAttempts(remote: Remote, cfg: Config, req: Request, first: nat)
    requires cfg.attempts >= 1
    ensures var run := Attempts(remote, cfg, req, first, 0);
      run.result.RuntimeError? ==> run.calls == cfg.attempts
  {
    var run := Attempts(remote, cfg, req, first, 0);
    if run.result.RuntimeError? {
      SucceedsIff(remote, cfg, req, first, 0);
      ExhaustedRaises(remote, cfg, req, first, 0);
      CallsCounted(remote, cfg, req, first, 0);
    }
  }

  /**
   * An aborted batch stops at the first row whose call fails: every earlier
   * row's call returned, row `k`'s call ran out of attempts, and the batch
   * makes no remote call after row `k`'s last attempt.
   */
  lemma {:induction false} StopsAtFirstFailure(remote: Remote, cfg: Config, reqs: seq<Request>, i: nat, first: nat)
    requires cfg.attempts >= 1
    ensures var b := Summarize(remote, cfg, reqs, i, first);
      b.result.Aborted? ==>
        exists k :: i <= k < |reqs|
          && (forall j :: i <= j < k ==>
                Attempts(remote, cfg, reqs[j], RowStart(remote, cfg, reqs, i, first, j), 0).result.Returned?)
          && Attempts(remote, cfg, reqs[k], RowStart(remote, cfg, reqs, i, first, k), 0).result.RuntimeError?
          && first + Calls(b.trace) == RowStart(remote, cfg, reqs, i, first, k) + cfg.attempts
    decreases |reqs| - i
  {
    if i < |reqs| {
      var b := Summarize(remote, cfg, reqs, i, first);
      var run := Attempts(remote, cfg, reqs[i], first, 0);
      var head := [Progress(i + 1, |reqs|)] + run.trace;
      CallsCounted(remote, cfg, reqs[i], first, 0);
      CountsAppend([Progress(i + 1, |reqs|)], run.trace);
      if run.result.RuntimeError? {
        RaisedUsesAllAttempts(remote, cfg, reqs[i], first);
        assert b.trace == head;
        assert RowStart(remote, cfg, reqs, i, first, i) == first;
      } else {
        var next := first + run.calls;
        var rest := Summarize(remote, cfg, reqs, i + 1, next);
        StopsAtFirstFailure(remote, cfg, reqs, i + 1, next);
        if b.result.Aborted? {
          assert b.trace == head + rest.trace;
          CountsAppend(head, rest.trace);
          var k :| i + 1 <= k < |reqs|
            && (forall j :: i + 1 <= j < k ==>
                  Attempts(remote, cfg, reqs[j], RowStart(remote, cfg, reqs, i + 1, next, j), 0).result.Returned?)
            && Attempts(remote, cfg, reqs[k], RowStart(remote, cfg, reqs, i + 1, next, k), 0).result.RuntimeError?
            && next + Calls(rest.trace) == RowStart(remote, cfg, reqs, i + 1, next, k) + cfg.attempts;
          assert RowStart(remote, cfg, reqs, i, first, k) == RowStart(remote, cfg, reqs, i + 1, next, k);
          forall j | i <= j < k
            ensures Attempts(remote, cfg, reqs[j], RowStart(remote, cfg, reqs, i, first, j), 0).result.Returned?
          {
            if j > i {
              assert RowStart(remote, cfg, reqs, i, first, j) == RowStart(remote, cfg, reqs, i + 1, next, j);
            }
          }
        }
      }
    }
  }

  /**
   * An aborted batch reports the attempt bound, and its last event is the
   * final failed attempt of the row that stopped it (`StopsAtFirstFailure`
   * says which row that is).
   */
  lemma {:induction false} AbortIsFinal(remote: Remote, cfg: Config, reqs: seq<Request>, i: nat, first: nat)
    requires cfg.attempts >= 1
    ensures var b := Summarize(remote, cfg, reqs, i, first);
      b.result.Aborted? ==>
        b.result.attempts == cfg.attempts && |b.trace| > 0
        && b.trace[|b.trace| - 1] == AttemptFailed(cfg.attempts, cfg.attempts)
    decreases |reqs| - i
  {
    if i < |reqs| {
      var run := Attempts(remote, cfg, reqs[i], first, 0);
      match run.result
      case RuntimeError(n) =>
        SucceedsIff(remote, cfg, reqs[i], first, 0);
        ExhaustedRaises(remote, cfg, reqs[i], first, 0);
      case Returned(s) =>
        AbortIsFinal(remote, cfg, reqs, i + 1, first + run.calls);
    }
  }

  /** `rows` times the attempt bound `a`, counted row by row. */
  function Budget(rows: nat, a: nat): nat {
    if rows == 0 then 0 else a + Budget(rows - 1, a)
  }

  lemma {:induction false} BudgetIsProduct(rows: nat, a: nat)
    ensures Budget(rows, a) == rows * a
  {
    if rows > 0 {
      BudgetIsProduct(rows - 1, a);
    }
  }

  lemma {:induction false} CallsWithinBudget(remote: Remote, cfg: Config, reqs: seq<Request>, i: nat, first: nat)
    requires cfg.attempts >= 1 && i <= |reqs|
    ensures Calls(Summarize(remote, cfg, reqs, i, first).trace) <= Budget(|reqs| - i, cfg.attempts)
    decreases |reqs| - i
  {
    if i < |reqs| {
      var b := Summarize(remote, cfg, reqs, i, first);
      var run := Attempts(remote, cfg, reqs[i], first, 0);
      CallsWithinBound(remote, cfg, reqs[i], first, 0);
      CallsCounted(remote, cfg, reqs[i], first, 0);
      var head := [Progress(i + 1, |reqs|)] + run.trace;
      CountsAppend([Progress(i + 1, |reqs|)], run.trace);
      assert Calls(head) == run.calls;
      if run.result.Returned? {
        var rest := Summarize(remote, cfg, reqs, i + 1, first + run.calls);
        CallsWithinBudget(remote, cfg, reqs, i + 1, first + run.calls);
        assert b.trace == head + rest.trace;
        CountsAppend(head, rest.trace);
      } else {
        assert b.trace == head;
      }
    }
  }

  /** The batch makes at most the attempt bound of remote calls per row. */
  lemma CallsPerBatch(remote: Remote, cfg: Config, reqs: seq<Request>, i: nat, first: nat)
    requires cfg.attempts >= 1 && i <= |reqs|
    ensures Calls(Summarize(remote, cfg, reqs, i, first).trace) <= (|reqs| - i) * cfg.attempts
  {
    CallsWithinBudget(remote, cfg, reqs, i, first);
    BudgetIsProduct(|reqs| - i, cfg.attempts);
  }

  /** A completed batch made at least one remote call per row. */
  lemma {:induction false} CallsPerCompletedBatch(remote: Remote, cfg: Config, reqs: seq<Request>, i: nat, first: nat)
    requires cfg.attempts >= 1 && i <= |reqs|
    ensures var b := Summarize(remote, cfg, reqs, i, first);
      b.result.Summaries? ==> |reqs| - i <= Calls(b.trace)
    decreases |reqs| - i
  {
    var b := Summarize(remote, cfg, reqs, i, first);
    if i < |reqs| && b.result.Summaries? {
      var run := Attempts(remote, cfg, reqs[i], first, 0);
      CallsWithinBound(remote, cfg, reqs[i], first, 0);
      var head := [Progress(i + 1, |reqs|)] + run.trace;
      CountsAppend([Progress(i + 1, |reqs|)], run.trace);
      assert run.result.Returned?;
      var rest := Summarize(remote, cfg, reqs, i + 1, first + run.calls);
      assert b == Batch(Prepend(run.result.text, rest.result), head + rest.trace);
      CallsPerCompletedBatch(remote, cfg, reqs, i + 1, first + run.calls);
      CountsAppend(head, rest.trace);
    }
  }

  /**
   * Two rows, three attempts, no pause: the first call fails, the retry of
   * row 1 answers, and row 2 is answered at once, so the batch completes
   * with both summaries in row order after three remote calls.
   */
  lemma TwoRowScenario(cfg: Config)
    requires cfg.attempts == 3 && cfg.delay == 0
    ensures var remote: Remote := (q, k) =>
        if k == 0 then Raised("timeout") else if k == 1 then Completion(["SUMMARY_X"]) else Completion(["SUMMARY_Y"]);
      var b := Summarize(remote, cfg, Requests(cfg, ["Article A text", "Article B text"]), 0, 0);
      b.result == Summaries(["SUMMARY_X", "SUMMARY_Y"]) && Calls(b.trace) == 3
  {
    var remote: Remote := (q, k) =>
      if k == 0 then Raised("timeout") else if k == 1 then Completion(["SUMMARY_X"]) else Completion(["SUMMARY_Y"]);
    var reqs := Requests(cfg, ["Article A text", "Article B text"]);
    var row1 := Attempts(remote, cfg, reqs[0], 0, 0);
    var retry1 := Attempts(remote, cfg, reqs[0], 0, 1);
    assert retry1 == Run(Returned("SUMMARY_X"), [Called(reqs[0])], 1);
    assert row1.result == Returned("SUMMARY_X") && row1.calls == 2;
    var row2 := Attempts(remote, cfg, reqs[1], 2, 0);
    assert row2 == Run(Returned("SUMMARY_Y"), [Called(reqs[1])], 1);
    var last := Summarize(remote, cfg, reqs, 1, 2);
    assert Summarize(remote, cfg, reqs, 2, 3) == Batch(Summaries([]), []);
    assert last.result == Summaries(["SUMMARY_Y"]);
    assert last.trace == ([Progress(2, 2)] + row2.trace) + [];
    assert last.trace == [Progress(2, 2)] + row2.trace;
    CountsAppend([Progress(2, 2)], row2.trace);
    CallsCounted(remote, cfg, reqs[1], 2, 0);
    CallsCounted(remote, cfg, reqs[0], 0, 0);
    var head := [Progress(1, 2)] + row1.trace;
    CountsAppend([Progress(1, 2)], row1.trace);
    var b := Summarize(remote, cfg, reqs, 0, 0);
    assert b.trace == head + last.trace;
    CountsAppend(head, last.trace);
  }
}
