# Article summariser — Dafny model

`summary.py` defines one class, `Summary`. Its constructor loads a table of
news articles and requires an `ARTICLE_TEXT` column. `add_summaries` then
walks the rows in order. For each row it logs a progress line and asks a
chat-completion service for a bullet-point summary of the row's article.
It stores the answers in a `summary` column and writes the table to the
output path. Every service request goes through `_call_llm`, which tries at
most `retry_attempts` = 3 times and pauses `retry_delay` = 5 seconds between
attempts. Each failed attempt is logged. When the last attempt fails,
`_call_llm` raises a terminal error, which aborts the whole batch.

The model has six modules.

- `Retry` (retry.dfy). The service is an oracle, `Remote = (Request, nat) -> Reply`.
  `remote(q, k)` is the reply that the k-th remote call of the process gets
  for request `q`. A reply is either a completion (its list of choices) or
  an exception raised by the client. Everything the outside world sees —
  calls, logged failures, pauses, progress lines, the save — is recorded as
  a trace of `Event`s. `Attempts` is the retry loop as a state machine over
  this oracle, and most of the lemmas are stated about it.
- `Wrappers` (wrappers.dfy). The `Option` and `Result` datatypes.
- `Prompts` (prompts.dfy). The summary prompt and its inverse, `ArticleOf`.
- `Tables` (tables.dfy). The article table: ordered column names and
  row maps. The summary column is assigned with `WithColumn`.
- `Batches` (batches.dfy). The row loop as a recursive function
  `Summarize`, with lemmas about the summaries and calls it produces.
- `Pipeline` (pipeline.dfy). The `Summary` class. `CallLlm` and
  `SummarizeArticles` are `while` loops, each proved equal to its
  specification function. `AddSummaries` updates the object's table and
  its saved copy.

## Model

| member | source | states |
|---|---|---|
| Pipeline.Summary.constructor | summary.py:13-19 | The object keeps the paths (by default `articles.csv` and `articles_with_summary.csv`), the credential and the model name it was given, holds the loaded table, and has saved nothing yet. |
| Pipeline.Summary.Open | summary.py:22-24 | Construction succeeds if and only if the loaded table has an `ARTICLE_TEXT` column; otherwise it fails with the ValueError and its message. On success the object holds that table and the retry settings are 3 attempts and 5 seconds. |
| Retry.Content | summary.py:73-74 | The definition of what an attempt yields: the first choice's text of a completion with at least one choice; nothing for an exception or for a completion with no choices, since reading choice 0 then raises inside the try. |
| Retry.OnlyContentMatters | summary.py:62-80 | Two services whose replies yield the same text, or both fail, at every attempt of a call give the same result and the same trace: the loop distinguishes only success with a first choice from failure, so every kind of exception and an empty completion are handled alike. |
| Retry.Attempts | summary.py:60-80 | The retry loop as a state machine over the attempt count: call; on an answer stop with its text; on a failure log it against the bound, then pause the configured delay and try again, or, at the bound, stop with the terminal error. Its properties are the Retry lemmas below. |
| Retry.AttemptStep | summary.py:62-80 | One iteration of the loop: after an answer the call has ended with one call event; after a failure with attempts left the trace grows by the call, the numbered failure and the pause and the call goes on from the next attempt; after the last failure it ends with the terminal error. |
| Pipeline.Summary.CallLlm | summary.py:60-80 | The loop's result and event trace equal those of the retry state machine `Attempts`, started with no failed attempt, the configured bound and delay, and the request built from the credential, the model and the system and user messages. |
| Retry.CallsWithinBound | summary.py:61-80 | One call makes between 1 and the attempt bound of remote calls. It pauses exactly once fewer than it calls. It logs one failure per unsuccessful call, numbered consecutively up to the bound. |
| Retry.SucceedsAt | summary.py:62-73 | If every earlier attempt fails and attempt k answers, the call returns that answer after exactly k+1 calls and k pauses. |
| Retry.ExhaustedRaises | summary.py:74-80 | If every attempt fails, the result is the terminal error naming the bound, after exactly as many calls as the bound. The last event is the failure numbered bound/bound, so there is no pause after the last attempt. |
| Retry.ReturnsFirstAnswer | summary.py:62-80 | The call returns s if and only if some attempt within the bound answers s and every earlier attempt fails. |
| Retry.SucceedsIff | summary.py:62-80 | The call returns a text if and only if some attempt within the bound succeeds; otherwise it raises. |
| Retry.PauseBetweenCalls | summary.py:75-78 | The trace opens with a call, and every call carries the same request. Every later call comes right after a pause of the configured delay. Every pause is followed by a call. |
| Retry.FlakyServiceScenario | summary.py:60-80 | With 3 attempts and a 5-second delay, a service that raises twice and then answers gives that answer. The trace is exactly: call, failure 1/3, 5 s pause, call, failure 2/3, 5 s pause, call. |
| Retry.EmptyServiceScenario | summary.py:73-80 | A completion with no choices counts as a failed attempt, because reading choice 0 raises inside the try. A service that always answers this way ends in the terminal error after 3 calls, and the last logged failure is 3/3. |
| Prompts.Prompt | summary.py:41-57 | The prompt is the instruction, the opening article tag, the article verbatim, the closing article tag and then the guidelines, each at its fixed offset. |
| Prompts.ArticleOfPrompt | summary.py:41-57 | The article can be recovered from its prompt. |
| Prompts.PromptInjective | summary.py:41-57 | Different articles give different prompts. |
| Pipeline.Summary.GenerateSummary | summary.py:39-58 | Summarising one article is the retry-bounded call with an empty system prompt and the article's prompt as the user message. |
| Batches.SummaryRequestCarriesArticle | summary.py:58-72 | The request for an article carries the credential and the model. It has two messages: an empty system message, then a user message from which the article can be recovered. |
| Batches.RequestAt | summary.py:28-31 | Row i's request is built from row i's article. |
| Batches.ReturnedIsReply | summary.py:62-73 | A returned text is the first choice of the answer the service gave to that very request at one of this call's own attempts (call indices first .. first + bound - 1). |
| Batches.Summarize | summary.py:27-32 | The row loop as a recursive function: for each row in order, a progress line numbered row+1 of the row count, then that row's retry-bounded call starting at the next call index; a returned text is collected and the next row follows, a terminal error aborts the batch. Its properties are the Batches lemmas below. |
| Batches.Advance | summary.py:28-32 | One row step: either the batch aborts at this row with this row's progress line and call events, or it continues from the next row with this row's summary appended. |
| Pipeline.Summary.SummarizeArticles | summary.py:27-32 | The loop's outcome and trace equal those of the batch function `Summarize` over the article column, starting at row 0. |
| Batches.OneSummaryPerRow | summary.py:27-32 | A completed batch has exactly one summary per row, in row order: the summary at row j is exactly what row j's own retry-bounded call returned, that call starting at the call index where the calls of rows before j ended (`RowStart`). |
| Batches.RaisedUsesAllAttempts | summary.py:61-80 | A call that ends in the terminal error has made exactly as many remote calls as the attempt bound. |
| Batches.StopsAtFirstFailure | summary.py:28-32 | An aborted batch stops at the first row whose call raises: some row k's call ends in the terminal error, every earlier row's call returned, each starting at the call index where the earlier rows' calls ended (`RowStart`), and the batch makes no remote call after row k's last attempt, so no later row is started. |
| Batches.AbortIsFinal | summary.py:28-32 | An aborted batch reports the attempt bound, and its last event is the failure numbered bound/bound: nothing follows the final failed attempt. |
| Batches.CallsPerBatch | summary.py:28-31 | The batch makes at most (rows × attempt bound) remote calls. |
| Batches.CallsPerCompletedBatch | summary.py:28-31 | A completed batch made at least one remote call per row. |
| Batches.TwoRowScenario | summary.py:26-37 | Two rows, 3 attempts, no delay. The first call fails, the retry answers row 1, and row 2 is answered at once. The batch completes with both summaries in row order after exactly three remote calls. |
| Tables.WithColumn | summary.py:35 | Assigning a column gives every row its value in order, keeps the row count and every other column, and leaves the column order alone. An existing column stays in place; a new column is appended at the end. |
| Pipeline.Summary.AddSummaries | summary.py:26-37 | The outcome and trace are the batch's, with the save event added on completion. On completion there is one summary per row, and the summary at row j is what row j's own retry-bounded call for its article's prompt returned, starting at the call index where earlier rows' calls ended. The table gains the summary column, and that table is what is saved. On an abort the table and the saved copy are unchanged. The column invariant is preserved. |

## Left out

- The OpenAI client and its HTTP request are modelled by the `Remote` oracle. It is indexed by the process-wide number of the remote call, so retries can succeed. Building a fresh client on every attempt is not modelled separately: a client that fails to build is one more `Raised` reply.
- A completion whose first choice has no text (`content` is None) is not modelled: a reply's choices are strings.
- Reading the CSV file and writing it are left out. `Open` receives the loaded table, and the file written to the output path is the `saved` field. The pandas index is taken to be the default 0-based row number, which `read_csv` produces. Cells are strings; pandas dtypes and missing values (NaN) are not modelled.
- Loading the environment with dotenv and reading `API_KEY` and `LLM_MODEL` from it are left out. `Open` and the constructor take the credential and the model name as parameters, and a missing value is not distinguished from a string.
- Sleeping, and the text of the progress, error and save lines, are modelled as events (`Slept`, `AttemptFailed`, `Progress`, `Saved`). The printed wording and the exception's message are not modelled.
- Prompts.Prompt: the wording of the instruction and guidelines is abridged. The model keeps the structure that matters: an instruction, the article verbatim between `<article>` tags, and the guidelines after it. The template's whitespace around the tags and the article (the leading line break, the 8-space indentation of the tag lines and of the article's first line, the blank line after `</article>`) is modelled exactly; the line breaks and indentation inside the abridged wording are not.
- Pipeline.Summary.CallLlm: the terminal error carries only the attempt bound. The chained cause (`from e`) and the message text are not modelled.
- Retry.Attempts and Batches.Summarize require at least one attempt. With a bound of 0 the source loop would not run and would return None; the class's bound is the constant 3, so this cannot happen in the class.
- The `__main__` entry point that runs the pipeline once, with the default paths, is not modelled.
