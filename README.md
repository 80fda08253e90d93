# Market Analyst AI — request pipeline model

The Streamlit front end in `streamlit_app/app.py` answers a spoken market question in
three dependent steps: it sends the recording to a transcription service (which also
detects the intent), sends the transcript and intent to a market-data service (the "MCP"
agent), then asks an answer service for the final answer in a background thread. While
that thread runs, the script rotates through the news headlines of the market data in a
carousel, one card every seven seconds, and when the thread signals completion it clears
the carousel and shows the answer text and, if present, its audio.

This project models the decision logic of that script in Dafny:

- `wrappers.dfy` — `Option`, standing for a JSON field that may be absent.
- `tickers.dfy` (module `Tickers`) — the ticker shown on the cards, resolved from the
  intent (first of `tickers`, else `ticker`, else `"This stock"`, then upper-cased).
- `headlines.dfy` (module `Headlines`) — `headline_html`: the placeholder defaults for
  missing article fields, and the card text as the template with the values spliced in.
- `rotation.dfy` (module `Rotation`) — the carousel loop as a method with a `while` loop
  over the observations of the completion flag.
- `pipeline.dfy` (module `Pipeline`) — the stage gating (fail-fast for transcription and
  market data, fail-soft for the answer), the shared answer cell of the background task,
  the session's pending recording, and the whole run as an imperative method proved
  equal to a specification function `QueryRun`.
- `pipeline_properties.dfy` (module `PipelineProperties`) — what the run promises for
  every reply and every timing.

The services are not modelled: what each `requests.post` produced is an input `Reply`
(a status and an optional decoded body, or an exception raised by `requests`). The
background thread's timing is an input too: `flags[t]` is the value `done_evt.is_set()`
returned at the top of the t-th loop iteration. A finite `flags` without a `true` is an
observation that ended while the answer was still outstanding; such a run ends as
`Waiting` (the script itself would keep rotating for as long as the answer takes).

The background task and the loop are linearised: the loop never reads the answer cell,
so the model runs the loop over the flag observations first and applies `fetch_answer`'s
effect (write the result, then set the flag) at the point where the loop saw the flag
set, which is when the script reads `answer_res`.

An exception from `requests.post`, or a transcription or market-data body that does not
decode, is not reported as a stage failure: it escapes the script and ends the run. The
model keeps that as the outcome `Crashed(stage)`, distinct from `Failed(stage)` (a non-200
status, reported with `st.error`/`st.warning` and `st.stop()`).

## Model

| member | source | states |
|---|---|---|
| Tickers.Upper | streamlit_app/app.py:135 | upper-casing keeps the length and upper-cases each ASCII letter in place, leaving every other character alone |
| Tickers.ResolveTicker | streamlit_app/app.py:134-135 | the result has no lower-case letter; it is the upper-cased first element of a non-empty `tickers`, else the upper-cased `ticker`, else the upper-cased fallback label; resolution is total |
| Tickers.UpperFixedPoints | streamlit_app/app.py:135 | upper-casing leaves a string unchanged if and only if it holds no lower-case letter |
| Tickers.UpperIdempotent | streamlit_app/app.py:135 | upper-casing an already upper-cased ticker changes nothing |
| Tickers.TickersTakePrecedence | streamlit_app/app.py:134-135 | with a non-empty `tickers` list the `ticker` field has no influence on the result |
| Tickers.EmptyTickersLikeMissing | streamlit_app/app.py:134-135 | an empty `tickers` list resolves exactly like a missing one, through `ticker` or the fallback |
| Tickers.EmptyTickerFieldIsKept | streamlit_app/app.py:135 | a present but empty `ticker` gives the empty ticker, not the fallback |
| Tickers.FallbackIsUpperCased | streamlit_app/app.py:135 | an intent with neither field shows `THIS STOCK` |
| Tickers.SingularTickerExample | streamlit_app/app.py:134-135 | `{"ticker": "aapl"}` resolves to `AAPL` |
| Tickers.TickerListExample | streamlit_app/app.py:134-135 | `{"tickers": ["TSLA", "AAPL"]}` resolves to `TSLA` |
| Headlines.CardFields | streamlit_app/app.py:90-93 | each card field is the article's value when present and `No Title`, `No Summary` or `#` when missing |
| Headlines.PresentFieldsPassThrough | streamlit_app/app.py:91-93 | an article with all three fields is shown unchanged |
| Headlines.EmptyArticlePlaceholders | streamlit_app/app.py:91-93 | an empty article shows the three placeholders |
| Headlines.HeadlineHtml | streamlit_app/app.py:90-102 | the card text contains the ticker and the defaulted title, summary and URL |
| Rotation.UnsetChecks | streamlit_app/app.py:178 | the number of loop checks that saw the flag unset: all of them are unset, and the next one, if observed, is set |
| Rotation.Carousel | streamlit_app/app.py:180-184 | the articles of the first n ticks: n of them, tick k showing article k mod the article count |
| Rotation.RotateHeadlines | streamlit_app/app.py:176-187 | the loop ends on the first set flag; `idx` equals the number of articles rendered; `answered` holds exactly when some check saw the flag set; the rendered articles are the carousel of length `idx` (the k-th is article k mod the article count), each rendered after a check that saw the flag unset; with no articles nothing is rendered and `idx` stays 0 |
| Rotation.SlotIsMod | streamlit_app/app.py:181 | the slot the carousel specification uses for tick k is exactly `k % len(articles)`, the index the script computes |
| Rotation.CarouselStep | streamlit_app/app.py:180-184 | each tick appends article `idx mod N` and leaves the earlier ticks as they were |
| Rotation.CarouselCycles | streamlit_app/app.py:181 | the article at tick k + N equals the article at tick k for N articles |
| Rotation.CarouselWrapsToFirst | streamlit_app/app.py:181 | the (N+1)-th tick shows the first article again |
| Rotation.CarouselFirstPass | streamlit_app/app.py:181 | the first N ticks show the N articles once each, in list order |
| Rotation.CarouselExtends | streamlit_app/app.py:180-184 | a longer rotation extends a shorter one: earlier ticks are never rewritten |
| Rotation.SetBeforeLoopShowsNothing | streamlit_app/app.py:178 | a flag already set when the loop is reached means nothing is rendered |
| Rotation.UnsetChecksCountsTicks | streamlit_app/app.py:178-185 | n unset observations give n ticks, whether or not a set flag follows them |
| Pipeline.Check | streamlit_app/app.py:127-149 | a stage passes if and only if its status is 200 and its body decodes; it is a reported failure if and only if the status is not 200 |
| Pipeline.NewsArticles | streamlit_app/app.py:176 | the articles are `data.news_summary` when both keys are present, otherwise none |
| Pipeline.Cards | streamlit_app/app.py:180-183 | each rotated article is shown as the `headline_html` card for the resolved ticker, in the order rendered |
| Pipeline.SoftAnswer | streamlit_app/app.py:159-172 | the answer cell holds the body of a passing answer reply and stays `{}` on any failure |
| Pipeline.AnswerCell.constructor | streamlit_app/app.py:158-159 | the cell starts empty with the flag unset |
| Pipeline.AnswerCell.FetchAnswer | streamlit_app/app.py:161-172 | the result is replaced only by a 200 reply's body; the flag is set whatever happened |
| Pipeline.Finish | streamlit_app/app.py:187-205 | the ending display: the carousel is cleared, then the answer text (empty when missing), then the audio player for a non-empty audio field or else the no-audio warning; it holds no card |
| Pipeline.Completed | streamlit_app/app.py:188-194 | a completed outcome carrying the answer text and audio (empty when missing), with the no-audio warning exactly when the audio is empty |
| Pipeline.QueryRun | streamlit_app/app.py:117-205 | the whole run as a function of the three replies and the flag observations: it always starts with the transcription request, makes all three requests exactly when the first two stages pass, fails or crashes, with no card and no answer, exactly when fewer are made (the error notice is the `Failed` outcome), and is still waiting exactly when all three were made and no set flag was observed |
| Pipeline.RunQuery | streamlit_app/app.py:117-205 | the step-by-step script produces exactly the run `QueryRun` specifies |
| Pipeline.Session.Record | streamlit_app/app.py:111-113 | only a non-empty recording becomes the pending submission |
| Pipeline.Session.Submit | streamlit_app/app.py:117-118 | a pending recording is popped and run once; with none pending nothing runs; afterwards nothing is pending |
| PipelineProperties.StagesRunInOrder | streamlit_app/app.py:122-174 | requests go out in stage order; the market-data request is sent if and only if transcription passed, the answer request if and only if both passed, each with the defaulted transcript and intent |
| PipelineProperties.TranscribeFailureHalts | streamlit_app/app.py:122-131 | a failed transcription issues no further request and shows no card and no answer (the `st.error` notice is the `Failed` outcome); non-200 is `Failed`, an exception `Crashed` |
| PipelineProperties.McpFailureHalts | streamlit_app/app.py:145-149 | a failed market-data request issues no answer request and shows no carousel; non-200 is `Failed`, an exception `Crashed` |
| PipelineProperties.OnlyFirstStagesAreFatal | streamlit_app/app.py:127-172 | the run fails or crashes if and only if one of the first two stages did not pass |
| PipelineProperties.AnswerFailureIsSoft | streamlit_app/app.py:159-205 | any answer failure still completes the run, with empty text, no audio, and the display ending in clear, empty answer, no-audio warning |
| PipelineProperties.AnswerIsShown | streamlit_app/app.py:188-205 | a decoded answer completes with its text; its audio is played when non-empty, otherwise the warning is shown |
| PipelineProperties.AnswerWithoutAudioExample | streamlit_app/app.py:188-205 | `{"answer": "Buy NKE", "audio": ""}` completes with that text and the no-audio warning |
| PipelineProperties.PassedRunDisplay | streamlit_app/app.py:176-192 | after both stages pass, the display is the carousel's cards followed, once the flag is seen, by the answer ending |
| PipelineProperties.CardsFollowArticles | streamlit_app/app.py:176-185 | card k shows article k mod the article count under the resolved ticker and follows a check that saw the flag unset |
| PipelineProperties.CardsComeFirst | streamlit_app/app.py:178-187 | the cards, one per unset check (none without articles), come first and nothing after them is a card |
| PipelineProperties.NoArticlesNoCards | streamlit_app/app.py:179 | with no articles no card is ever shown, however long the answer takes |
| PipelineProperties.ClearedBeforeAnswer | streamlit_app/app.py:187-192 | no card follows the clearing of the carousel, and the carousel is cleared if and only if the run completes |
| PipelineProperties.SlowAnswerKeepsRotating | streamlit_app/app.py:178-185 | with articles, while the answer has not arrived the run keeps waiting and every observed tick shows a card |
| PipelineProperties.OutcomeIndependentOfTiming | streamlit_app/app.py:176-192 | when the answer arrives does not change the requests made or the final outcome |

## Left out

- Page markup and widgets (title, guide text, button CSS, tabs showing the transcript and intent, the raw market-data expander, spinners, toasts, the answer heading written to the answer placeholder before the text replaces it): presentation only.
- The sample-prompt buttons and their `.wav` files (lines 68-76), `autoplay_audio` (lines 79-88) and the configuration of the service URLs (lines 7-12): file I/O and configuration.
- The HTTP requests and JSON decoding: replaced by the `Reply` inputs; a body that is JSON of an unexpected shape (a list where an object is read, a non-string field) is treated like one that does not decode, and a non-string ticker reaching `.upper()` is not modelled. A `null` `tickers` or `news_summary` is an absent field here, as in the script (both are falsy, so the ticker falls back and no card is shown). A market-data body that decodes but is not an object, or whose `data` is not an object, fails only at line 176, after the answer request was started at line 174; the model ends such a run as `Crashed(Mcp)` after two requests instead of three. A 200 answer reply whose JSON decodes to something other than an object (`null`, a list) is stored by `fetch_answer` and makes `answer_res.get` raise at line 188, after the carousel is cleared; the model treats it like an undecodable answer and completes with an empty answer, so `AnswerFailureIsSoft` covers undecodable bodies, not such non-object ones.
- The thread, the event and the seven-second sleep: the flag is read from its sequence of observations, and the task's write and flag-set are applied together where the loop sees the flag set; real interleaving is not modelled.
- Payload contents: `Intent` keeps only the `tickers` and `ticker` fields and `McpBody` only `data.news_summary`, while the script forwards the whole decoded `intent` and `mcp_data` (lines 145 and 166); the payload equalities of `StagesRunInOrder` are between these reduced records.
- Tickers.Upper: Python's `str.upper()` also upper-cases non-ASCII letters (and can lengthen a string, as for `ß`); only ASCII letters are upper-cased here.
- Rotation.RotateHeadlines: the script waits without bound for the answer; the model sees a finite number of ticks and reports `Waiting` when they end before the flag is set.
