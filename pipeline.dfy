/**
 * The `Summary` object: its configuration, the loaded article table, the
 * retry-bounded call, the per-article prompt and the batch that adds the
 * summary column and saves the table.
 */
module Pipeline {
  import opened Wrappers
  import opened Tables
  import opened Prompts
  import opened Retry
  import opened Batches

  const DefaultArticlePath: string := "articles.csv"
  const DefaultOutputPath: string := "articles_with_summary.csv"

  datatype InitError = ValueError(message: string)

  class Summary {
    const apiKey: string
    const modelName: string
    const articlePath: string
    const outputPath: string
    const retryAttempts: nat := 3
    const retryDelay: nat := 5

    /** The table loaded from articlePath, with a summary column once the batch completes. */
    var articles: Table
    /** The table this object has written to outputPath, if any. */
    var saved: Option<Table>

    function Settings(): Config {
      Config(apiKey, modelName, retryAttempts, retryDelay)
    }

    ghost predicate Valid()
      reads this
    {
      Rectangular(articles) && ArticleColumn in articles.columns
    }

    /** Builds the object around a table that has passed the column check. */
    constructor (loaded: Table, apiKey: string, modelName: string,
                 articlePath: string := DefaultArticlePath, outputPath: string := DefaultOutputPath)
      requires Rectangular(loaded) && ArticleColumn in loaded.columns
      ensures Valid()
      ensures this.articlePath == articlePath && this.outputPath == outputPath
      ensures this.apiKey == apiKey && this.modelName == modelName
      ensures articles == loaded && saved == None
    {
      this.articlePath := articlePath;
      this.outputPath := outputPath;
      this.apiKey := apiKey;
      this.modelName := modelName;
      articles := loaded;
      saved := None;
    }

    /**
     * Construction from the table read at articlePath: it fails with a
     * ValueError, before any remote call, when the table has no article column.
     */
    static method Open(loaded: Table, apiKey: string, modelName: string,
                       articlePath: string := DefaultArticlePath, outputPath: string := DefaultOutputPath)
      returns (r: Result<Summary, InitError>)
      requires Rectangular(loaded)
      ensures r.Success? <==> ArticleColumn in loaded.columns
      ensures r.Failure? ==> r.error == ValueError("The CSV file does not contain an 'ARTICLE_TEXT' column.")
      ensures r.Success? ==> fresh(r.value) && r.value.Valid()
      ensures r.Success? ==> r.value.articles == loaded && r.value.saved == None
      ensures r.Success? ==> r.value.articlePath == articlePath && r.value.outputPath == outputPath
      ensures r.Success? ==> r.value.Settings() == Config(apiKey, modelName, 3, 5)
    {
      if ArticleColumn !in loaded.columns {
        return Failure(ValueError("The CSV file does not contain an 'ARTICLE_TEXT' column."));
      }
      var s := new Summary(loaded, apiKey, modelName, articlePath, outputPath);
      r := Success(s);
    }

    /**
     * The retry loop: call the service; return the first choice's text on
     * success; otherwise count and log the failed attempt, then pause and
     * retry while attempts remain, or end with the terminal error.
     */
    method CallLlm(remote: Remote, systemPrompt: string, userPrompt: string, first: nat)
      returns (r: CallResult, trace: seq<Event>)
      ensures var spec := Attempts(remote, Settings(), ChatRequest(Settings(), systemPrompt, userPrompt), first, 0);
        r == spec.result && trace == spec.trace
    {
      var cfg := Settings();
      var req := ChatRequest(cfg, systemPrompt, userPrompt);
      ghost var spec := Attempts(remote, cfg, req, first, 0);
      var attempts := 0;
      trace := [];
      while attempts < retryAttempts
        invariant attempts < cfg.attempts
        invariant var rest := Attempts(remote, cfg, req, first, attempts);
          spec.result == rest.result && spec.trace == trace + rest.trace
        decreases retryAttempts - attempts
      {
        AttemptStep(remote, cfg, req, first, attempts, trace);
        trace := trace + [Called(req)];
        var reply := remote(req, first + attempts);
        match Content(reply)
        case Some(text) =>
          r := Returned(text);
          return;
        case None =>
          attempts := attempts + 1;
          trace := trace + [AttemptFailed(attempts, retryAttempts)];
          if attempts < retryAttempts {
            trace := trace + [Slept(retryDelay)];
          } else {
            r := RuntimeError(retryAttempts);
            return;
          }
      }
    }

    /** One article's summary: the article's prompt as user prompt, an empty system prompt. */
    method GenerateSummary(remote: Remote, article: string, first: nat)
      returns (r: CallResult, trace: seq<Event>)
      ensures var spec := Attempts(remote, Settings(), SummaryRequest(Settings(), article), first, 0);
        r == spec.result && trace == spec.trace
    {
      r, trace := CallLlm(remote, "", Prompt(article), first);
    }

    /**
     * The row loop of the batch: one progress line and one retry-bounded call
     * per article, in order, collecting the returned texts; the first
     * terminal error stops the loop.
     */
    method SummarizeArticles(remote: Remote, texts: seq<string>, first: nat)
      returns (outcome: BatchResult, trace: seq<Event>)
      ensures Batch(outcome, trace) == Summarize(remote, Settings(), Requests(Settings(), texts), 0, first)
    {
      var cfg := Settings();
      ghost var reqs := Requests(cfg, texts);
      ghost var spec := Summarize(remote, cfg, reqs, 0, first);
      var summaries: seq<string> := [];
      var next: nat := first;
      trace := [];
      var i := 0;
      while i < |texts|
        invariant i <= |texts| && |summaries| == i
        invariant spec == Resume(summaries, trace, Summarize(remote, cfg, reqs, i, next))
      {
        var r, t := GenerateSummary(remote, texts[i], next);
        Advance(remote, cfg, texts, i, next, summaries, trace, r, t);
        trace := trace + [Progress(i + 1, |texts|)] + t;
        if r.RuntimeError? {
          return Aborted(r.attempts), trace;
        }
        summaries := summaries + [r.text];
        next := next + Calls(t);
        i := i + 1;
      }
      outcome := Summaries(summaries);
    }

    /**
     * The batch over the article column: on completion the summary column is
     * assigned, the table saved to outputPath and the save logged; a terminal
     * error from any row aborts before either, leaving table and file as they were.
     */
    method AddSummaries(remote: Remote, first: nat) returns (outcome: BatchResult, trace: seq<Event>)
      requires Valid()
      modifies this
      ensures Valid()
      ensures var spec := Summarize(remote, Settings(), Requests(Settings(), Column(old(articles), ArticleColumn)), 0, first);
        outcome == spec.result
        && (outcome.Summaries? ==> trace == spec.trace + [Saved(outputPath)])
        && (outcome.Aborted? ==> trace == spec.trace)
      ensures outcome.Summaries? ==> |outcome.list| == |old(articles).rows|
      ensures var texts := Column(old(articles), ArticleColumn);
        outcome.Summaries? ==> forall j :: 0 <= j < |outcome.list| ==>
          Attempts(remote, Settings(), SummaryRequest(Settings(), texts[j]),
                   RowStart(remote, Settings(), Requests(Settings(), texts), 0, first, j), 0).result
          == Returned(outcome.list[j])
      ensures outcome.Summaries? ==>
        articles == WithColumn(old(articles), SummaryColumn, outcome.list) && saved == Some(articles)
      ensures outcome.Aborted? ==> articles == old(articles) && saved == old(saved)
    {
      var texts := Column(articles, ArticleColumn);
      outcome, trace := SummarizeArticles(remote, texts, first);
      match outcome
      case Aborted(n) =>
      case Summaries(list) =>
        OneSummaryPerRow(remote, Settings(), Requests(Settings(), texts), 0, first);
        forall j | 0 <= j < |list|
          ensures Attempts(remote, Settings(), SummaryRequest(Settings(), texts[j]),
                           RowStart(remote, Settings(), Requests(Settings(), texts), 0, first, j), 0).result
                  == Returned(list[j])
        {
          RequestAt(Settings(), texts, j);
        }
        articles := WithColumn(articles, SummaryColumn, list);
        saved := Some(articles);
        trace := trace + [Saved(outputPath)];
    }
  }
}
