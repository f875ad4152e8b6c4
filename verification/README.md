# News tracker agent — a Dafny model

This project models the core of a small agent service that tracks trade news
for a fixed list of countries. It has three parts:

- **The tracker** (`news_tracker.py`). It keeps a per-country list of at most
  three distinct news items. A background task walks the country list, asks
  the news agent about every country whose list is not full, and appends each
  new, non-empty answer. Clients drain one country's list, or all lists at
  once.
- **The news agent's fetch** (`news_agent.py`, `fetch_news`). It sends one
  JSON-RPC `tools/call` request and turns the HTTP reply into one answer
  through a fixed decision tree:
  - a status other than 200;
  - an `error` member;
  - a missing or null `result`;
  - a first content item with a truthy `text`;
  - a string result;
  - any other result, which is serialised;
  - an exception.
- **The request executor** (`news_agent_executor.py`). It takes the country
  from the first non-empty text part of the incoming message and drains that
  country's list. It enqueues exactly one reply: the drained items as a JSON
  object `{country: items}`, "No news available for <country>." when the
  list was empty, or "No country provided." when no country was given.
  Cancellation is always refused.

The model is functional. The tracker's background task is a state machine:

- `NewsTracker.Tracker` holds the configured countries, the news map, the
  miss-counter map and the position of the refresh loop.
- The locked regions of the source are atomic steps: start, count check,
  commit, sleep, drain one and drain all.
- The steps are tagged by `NewsTracker.Event` and run over traces by
  `NewsTracker.Run`.
- What the network returns is an input: a `FetchOutcome` for the tracker and a
  `Reply` for the agent.
- The parts of Python whose exact text the model does not fix are parameters
  bundled in `NewsAgent.Renderers`. These are `str(...)`, `json.dumps(...)`
  and an exception's message.

Modules:

| file | module | contents |
|---|---|---|
| `base.dfy` | `Base` | `Option`, `Result` |
| `json_values.dfy` | `JsonValues` | decoded JSON values, Python truthiness, `dict.get` |
| `text.dfy` | `Text` | `str.isspace`, `str.strip`, decimal rendering and parsing of integers |
| `news_agent.dfy` | `NewsAgent` | the request payload, the reply decision tree, `fetch_news` |
| `news_tracker.dfy` | `NewsTracker` | tracker state, atomic steps, the invariant, one refresh pass as a loop |
| `tracker_traces.dfy` | `TrackerTraces` | properties of every trace of steps: invariant, exactly-once delivery, backpressure, visit order, a scenario |
| `news_agent_executor.dfy` | `NewsAgentExecutor` | country extraction, `execute`, `cancel` |

Three behaviours of the code are worth stating plainly:

- Draining a country that is not configured *inserts* it, with `[]` and `0`,
  because the drain writes back into both maps (`news_tracker.py:53-54`).
  `NewsTracker.Drain` and
  `TrackerTraces.UnknownKeyDrain` state the inserting behaviour. Draining all
  lists afterwards returns such keys too, and they always hold `[]`.
- The commit does not re-check the three-item cap (`news_tracker.py:42-44`).
  `NewsTracker.CommitPreservesInv` proves no re-check is needed. The count
  check (`news_tracker.py:30-31`) and the commit take the lock separately, and
  drains can run in between. But only drains can touch the list in that gap,
  and they only empty it: `update_all_news` is called only from the loop in
  `_run` (`news_tracker.py:25`), the program calls only `start`
  (`main.py:31`), and `start` spawns at most one loop, so two passes never
  run at once. So a list below three items at the check is still below three
  at the commit; the invariant's `PendingFits` clause records this.
- The miss counters are never incremented by the code. The model keeps the
  map, and the invariant states that every counter stays 0.

## Model

| member | source | states |
|---|---|---|
| Text.Strip | news_agent_executor.py:25 | stripping gives the empty string exactly when the text is all whitespace; otherwise the result neither starts nor ends with a whitespace character |
| Text.StripIsInfix | news_agent_executor.py:25 | the stripped text is a contiguous slice of the original, and everything cut off on either side is whitespace |
| Text.StripIdempotent | news_agent_executor.py:25 | stripping twice is the same as stripping once |
| Text.DigitsRoundTrip | news_agent.py:40 | the decimal digits written for a natural number read back as that number |
| Text.DecimalRoundTrip | news_agent.py:40 | the decimal rendering of any status code, negative included, parses back to that code |
| NewsAgent.UserMessage | news_agent.py:24 | the message sent to the agent is the query followed by the fixed instruction to drop citations and markdown |
| NewsAgent.Payload | news_agent.py:16-29 | the request is an object with exactly the members `jsonrpc`, `id`, `method` and `params`, and the user message it carries is the query with the fixed instruction appended |
| NewsAgent.PayloadCarriesQuery | news_agent.py:16-29 | the JSON-RPC request carries that message as the content of the first entry of params.arguments.messages, and the query can be recovered from it |
| NewsAgent.StripSuffix | news_agent.py:24 | recovering a query from a message is a left inverse of building the message |
| NewsAgent.Decide | news_agent.py:31-40 | a transport failure becomes the raised-exception answer; a status other than 200 is reported exactly when the reply is an HTTP response with such a status, and carries that status |
| NewsAgent.BadStatusFirst | news_agent.py:38-40 | with a non-200 status the body is never looked at; the answer is "Failed to fetch news: " followed by a number that parses back to the status |
| NewsAgent.ErrorMemberFirst | news_agent.py:43-45 | an `error` member wins over any `result` and is reported as "Error from MCP: " plus its rendering |
| NewsAgent.NoResultMeansNoNews | news_agent.py:48-50 | without an error, the no-result branch is taken if and only if `result` is missing or null, and its answer is "No news found." (a string `result` with that same text gives the same answer through the string branch) |
| NewsAgent.ContentTextReturned | news_agent.py:51-56 | a truthy `text` in the first content item is returned as it is |
| NewsAgent.StringResultVerbatim | news_agent.py:57-58 | a string result is returned unchanged |
| NewsAgent.OtherResultDumped | news_agent.py:51-59 | a result that is neither a string nor carries a first content item with truthy text is returned serialised |
| NewsAgent.RaisesExactlyWhen | news_agent.py:31-62 | the exception branch is taken exactly on a transport failure, an undecodable 200 body, a non-object body, or a non-object first content item; its answer is the fixed prefix plus the exception's message |
| NewsAgent.StringUnlessContentText | news_agent.py:14-59 | every answer is a string except a truthy non-string `text` in the first content item |
| NewsAgent.NumericTextEscapes | news_agent.py:54-56 | with `{"content": [{"text": 5}]}` as the result, the function returns the number 5, not a string; the corrected fetch returns the serialised result instead |
| NewsAgent.FetchNews | news_agent.py:14-62 | the answer is a string on every branch except a truthy non-string `text`, which is returned itself; a bad status and an exception both give a non-empty message |
| NewsAgent.FetchText | news_agent.py:14-62 | the corrected fetch always yields a string; it agrees with the source whenever the source yields one, and otherwise (a truthy non-string `text`) yields the serialised `result` |
| NewsTracker.Init | news_tracker.py:11-17 | every configured country starts with an empty list and a zero miss counter, no task is running, and the invariant holds |
| NewsTracker.Start | news_tracker.py:19-21 | a task is spawned if and only if none exists yet; a second start changes nothing |
| NewsTracker.CheckCount | news_tracker.py:29-35 | a country holding three or more items is skipped; any other country gets the fixed trade-policy query built from its name; the lists are not touched |
| NewsTracker.Candidate | news_tracker.py:36-41 | a failed fetch yields a non-empty "Error fetching news: ..." text that goes through the same dedup and commit path as news |
| NewsTracker.Commit | news_tracker.py:42-44 | an answer is appended to the visited country's list exactly when it is non-empty and not already present; every other list is unchanged |
| NewsTracker.Sleep | news_tracker.py:23-26 | after a full pass the loop restarts from the first country without touching the lists |
| NewsTracker.Drain | news_tracker.py:50-55 | draining returns what the key held (empty for an unknown key) and leaves the key mapped to an empty list and a zero counter, every other entry unchanged |
| NewsTracker.DrainAll | news_tracker.py:57-63 | the snapshot is the whole news map as it was; afterwards every configured country is empty, and other keys are kept |
| NewsTracker.Next | news_tracker.py:19-63 | every step keeps the state well formed and the country list fixed; a running task never stops; a step spawns the loop exactly when it is a start and no task exists |
| NewsTracker.Run | news_tracker.py:19-63 | a trace produces one output per event and keeps the state well formed |
| NewsTracker.CheckCountPreservesInv | news_tracker.py:29-35 | the count check keeps the invariant |
| NewsTracker.CommitPreservesInv | news_tracker.py:30-44 | a commit keeps every list at three items or fewer, duplicate-free and free of empty strings, with no cap re-check at commit time |
| NewsTracker.DrainPreservesInv | news_tracker.py:50-55 | draining one key keeps the invariant, even for a key that is not configured |
| NewsTracker.DrainAllPreservesInv | news_tracker.py:57-63 | draining all lists keeps the invariant |
| NewsTracker.NextPreservesInv | news_tracker.py:19-63 | every step keeps the invariant |
| NewsTracker.VisitCountry | news_tracker.py:30-44 | one visit issues a fetch exactly when the list holds fewer than three items; the fetched answer is then appended exactly when it is non-empty and not already held; every other list is unchanged |
| NewsTracker.RefreshPass | news_tracker.py:28-46 | an undisturbed pass visits countries in list order; it fetches for none that was already full and for every one still below three items at the end; lists only grow, and every added item is a non-empty answer fetched for that same country that was not already in the list; every non-empty answer fetched is held at the end; keys outside the configured countries are untouched; the final state is the last of the pass's per-visit states, and a country's index is fetched exactly when its list held fewer than three items at that visit, so a country named twice is judged and appended to in visit order |
| NewsTracker.VisitFacts | news_tracker.py:30-44 | one visit changes only the visited country's list, which gains the answer exactly when it held fewer than three items, the answer is non-empty and not already held |
| NewsTracker.VisitSteps | news_tracker.py:30-44 | a visit is the count-check step followed by the commit step of the step semantics; after a skip the commit matches no pending fetch and changes nothing |
| NewsTracker.PassStatesAreRuns | news_tracker.py:28-46 | the state after the first n visits of an undisturbed pass equals running the step semantics over those visits' count checks and commits |
| TrackerTraces.RunPreservesInv | news_tracker.py:19-63 | the invariant holds after any trace from any state satisfying it |
| TrackerTraces.ReachableStates | news_tracker.py:11-63 | in every reachable state each list has at most three items, no duplicates, no empty string, every miss counter is 0, and unconfigured keys hold only [] |
| TrackerTraces.DrainAllEmptiesEverything | news_tracker.py:57-63 | in a reachable state, draining all lists leaves every key with an empty list |
| TrackerTraces.UnknownKeyDrain | news_tracker.py:50-55 | draining an unconfigured key returns [] and adds the key with an empty list |
| TrackerTraces.OnlyConfiguredFetched | news_tracker.py:29-35 | every fetch the loop issues is for a configured country with its fixed query |
| TrackerTraces.ThrownFetchStored | news_tracker.py:36-44 | a fetch that raises stores "Error fetching news: " plus the message when the list has room and does not already hold it |
| TrackerTraces.EmptyAgentAnswerNotStored | news_tracker.py:42-44 | an empty string answer from the agent is never stored |
| TrackerTraces.StartSpawnsOnce | news_tracker.py:19-21 | any number of starts spawn at most one background task, and none once a task exists |
| TrackerTraces.DeliveredExactlyOnce | news_tracker.py:42-63 | per key, what was held plus what was appended equals what drains delivered plus what is still held: no item is lost or delivered twice |
| TrackerTraces.FullKeyNotFetched | news_tracker.py:30-34 | a key that stays full and is not drained gets no fetch issued for it |
| TrackerTraces.VisitsInOrder | news_tracker.py:29 | count checks visit the countries round-robin in list order, starting from where the loop stands |
| TrackerTraces.ThreePassScenario | news_tracker.py:28-55 | with one country answered with one text, the same text again and then a different one, the repeat is not stored twice, a drain returns both in order and empties the list |
| NewsAgentExecutor.PartText | news_agent_executor.py:19-23 | a part's own non-empty text is preferred; otherwise its root's non-empty text is used; a part yields no text exactly when neither is present and non-empty |
| NewsAgentExecutor.FirstTextIndex | news_agent_executor.py:17-26 | the search stops at the first part with text, and every earlier part has none |
| NewsAgentExecutor.CountryOf | news_agent_executor.py:16-28 | a country is found exactly when the first part with text (own or root) strips to a non-blank string, and it is that stripped text |
| NewsAgentExecutor.TextlessPartsSkipped | news_agent_executor.py:17-26 | parts without text, own or root, are passed over; the country comes from the first part that has text, whatever follows it |
| NewsAgentExecutor.ReplyObjectRoundTrip | news_agent_executor.py:31-32 | the reply object maps only the country, and its value gives back the drained items |
| NewsAgentExecutor.ReplyText | news_agent_executor.py:30-34 | with news, the reply is the serialisation of an object that maps only the country and gives back exactly the drained items; without news it is "No news available for " followed by the country and a full stop |
| NewsAgentExecutor.Execute | news_agent_executor.py:14-35 | exactly one reply is enqueued; without a country the tracker is untouched and the fixed message is sent; otherwise the tracker takes one drain step for that country |
| NewsAgentExecutor.ExecuteDeliversHeld | news_agent_executor.py:30-34 | the reply reports exactly what the country held, or the empty-news text when it held nothing, and the list is left empty |
| NewsAgentExecutor.BlankFirstPartHidesLaterParts | news_agent_executor.py:24-28 | a whitespace-only first text part means "no country", whatever later parts say |
| NewsAgentExecutor.OwnTextPreferred | news_agent_executor.py:20-23 | a part's own text is used even when its root carries other text |
| NewsAgentExecutor.Cancel | news_agent_executor.py:37-39 | cancellation always fails |

## Left out

- The HTTP transport is an input `Reply`, so the model has no URL, headers or 30-second timeout.
- Tracker fetches are an input `FetchOutcome`.
- The asyncio scheduling is not modelled. The forever loop of `_run` and its 30-second sleep become a `Slept` event with no clock. Any interleaving of the locked steps is a trace.
- Lock acquisition and release are not modelled. Each locked region is one atomic step.
- The text of `str(...)` and `json.dumps(...)` is not fixed. Both are parameters (`NewsAgent.Renderers`), because Python's formatting rules are outside this core.
- Exception messages are not fixed. They are a parameter (`Renderers.describe`) or an input string (`FetchOutcome.Threw`).
- Logging is not modelled. Nothing observable depends on it.
- The tracker's answers are strings. `FetchOutcome.Returned` holds a string, while the tracker stores whatever `fetch_news` returns (`news_tracker.py:37`, `43-44`), including a non-string `text`; that case is the one under "## Findings".
- Integer and float JSON numbers are one kind. `JNum` holds a real, so `5` and `5.0` are the same value, although `str` and `json.dumps` render them differently.
- NaN and infinite JSON numbers are not modelled. `JNum` holds a real, so a NaN `text` cannot be expressed.
- Duplicate keys in a JSON object are not modelled. An object is a map, as Python's decoder keeps the last value.
- The order of `get_and_clear_all_news`'s dictionary is not modelled. The snapshot is a map.
- Exceptions that are not `Exception` subclasses, such as task cancellation, are not modelled. They escape `fetch_news` without a modelled answer.
- NewsAgentExecutor.CountryOf: a message whose `parts` is None and one whose `parts` is empty are both an empty sequence. Both give "no country" in the source too.
- NewsAgentExecutor.CountryOf: part texts are strings. The SDK's types admit nothing else.
- The constructors of `NewsAgent` and `NewsAgentExecutor` only store their argument. The service entry point and the agent card are wiring with no logic.
- NewsTracker.RefreshPass: covers one pass with no drain interleaved. Passes interleaved with drains are covered by the trace lemmas in `TrackerTraces`.
- TrackerTraces.VisitsInOrder: requires at least one configured country. With none the loop only sleeps and there is no visit order.
- TrackerTraces.ThreePassScenario: states the scenario for any country and any two distinct non-empty answers. It does not use fixed literal values.

## Findings

| source | as written | input that shows it | evidently intended | confidence | as-written member | corrected member |
|---|---|---|---|---|---|---|
| news_agent.py:54-56 | a truthy `text` in the first content item is returned whatever its JSON type, though `fetch_news` is declared to return `str` and its caller stores the answer as a news string | a 200 reply `{"result": {"content": [{"text": 5}]}}` makes `fetch_news` return the integer 5 | only a string `text` is returned as it is; any other result is serialised like the fallback branch | medium; not executed | NewsAgent.NumericTextEscapes | NewsAgent.FetchText |
