/**
 * The request pipeline of streamlit_app/app.py (lines 116-207): transcribe the recorded
 * question, fetch market data for it, then ask for the answer in the background while
 * the headline carousel runs, and finally show the answer.
 *
 * The network is not modelled: what each `requests.post` produced is an input (`Reply`),
 * and so are the observations of the completion flag (`flags`, see module Rotation).
 */
module Pipeline {
  import opened Wrappers
  import opened Tickers
  import opened Headlines
  import opened Rotation

  type Audio = seq<bv8>

  /** The two stages whose failure stops the script. */
  datatype Stage = Transcribe | Mcp

  /**
   * What one `requests.post` produced: a response with its status and its JSON body
   * (`None` when `.json()` cannot decode it into the expected object), or an exception
   * raised by `requests` itself (connection failure and the like).
   */
  datatype Reply<B> = Reply(status: int, body: Option<B>) | Raised

  /** Body of the transcription reply: `{"transcript": ..., "intent": {...}}`, both optional. */
  datatype TranscribeBody = TranscribeBody(transcript: Option<string>, intent: Option<Intent>)

  /** Body of the market-data reply; only `data.news_summary` is read here. */
  datatype McpBody = McpBody(data: Option<NewsData>)
  datatype NewsData = NewsData(newsSummary: Option<seq<Article>>)

  /** Body of the answer reply: `{"answer": ..., "audio": <data URL>}`. */
  datatype AnswerBody = AnswerBody(answer: Option<string>, audio: Option<string>)

  /** `answer_res = {}`, the value the answer cell starts with. */
  const EmptyAnswer := AnswerBody(None, None)

  /** A request the script issues, with the payload it sends. */
  datatype Call =
    | TranscribeCall(audio: Audio)
    | McpCall(transcript: string, intent: Intent)
    | AnswerCall(transcript: string, intent: Intent, mcpData: McpBody)

  /** How the script treats the reply of a fail-fast stage. */
  datatype Verdict<B> =
    | Pass(body: B)      // status 200 and a decodable body: go on
    | Rejected           // any other status: show the error and `st.stop()`
    | Threw              // an exception escapes the script and ends the run

  /**
   * What the run shows once the market-data stage has passed, in order. The error notices
   * of a failed stage are not entries here: the `Failed` outcome stands for them.
   */
  datatype Ui =
    | Card(html: string)        // `carousel_box.markdown(headline_html(...))`
    | ClearCarousel             // `carousel_box.empty()`
    | AnswerText(text: string)  // `answer_box.markdown(answer_text)`
    | AudioPlayer(url: string)  // the `<audio>` element for a non-empty data URL
    | NoAudioWarning            // `st.warning("No audio response available.")`

  datatype Outcome =
    | Failed(stage: Stage)     // non-200 status, reported, run stopped
    | Crashed(stage: Stage)    // uncaught exception, run ended
    | Waiting                  // the observed ticks ended before the answer arrived
    | Complete(answerText: string, audio: string, noAudioWarning: bool)

  /** One run of the script on a submitted recording. */
  datatype Run = Run(calls: seq<Call>, ui: seq<Ui>, outcome: Outcome)

  /** Lines 127-131 and 146-149: only a 200 reply whose body decodes lets the run go on. */
  function Check<B>(reply: Reply<B>): (v: Verdict<B>)
    ensures v.Pass? <==> reply.Reply? && reply.status == 200 && reply.body.Some?
    ensures v.Pass? ==> v.body == reply.body.value
    ensures v.Rejected? <==> reply.Reply? && reply.status != 200
  {
    match reply
    case Raised => Threw
    case Reply(status, body) =>
      if status != 200 then Rejected
      else if body.None? then Threw
      else Pass(body.value)
  }

  /** `mcp_data.get("data", {}).get("news_summary", [])`. */
  function NewsArticles(mcpData: McpBody): (articles: seq<Article>)
    ensures mcpData.data.Some? && mcpData.data.value.newsSummary.Some? ==> articles == mcpData.data.value.newsSummary.value
    ensures mcpData.data.None? || mcpData.data.value.newsSummary.None? ==> articles == []
  {
    match mcpData.data
    case None => []
    case Some(news) => news.newsSummary.GetOr([])
  }

  /** What `fetch_answer` leaves in `answer_res`: the body of a 200 reply, `{}` on any failure. */
  function SoftAnswer(reply: Reply<AnswerBody>): (res: AnswerBody)
    ensures Check(reply).Pass? ==> res == Check(reply).body
    ensures !Check(reply).Pass? ==> res == EmptyAnswer
  {
    if reply.Reply? && reply.status == 200 && reply.body.Some? then reply.body.value else EmptyAnswer
  }

  /**
   * The shared state of `fetch_answer`: the result cell `answer_res` and the event
   * `done_evt`. Only the background task writes either.
   */
  class AnswerCell {
    var result: AnswerBody
    var done: bool

    /** `done_evt = threading.Event()`, `answer_res = {}`. */
    constructor ()
      ensures result == EmptyAnswer && !done
    {
      result := EmptyAnswer;
      done := false;
    }

    /**
     * `fetch_answer`: the result is replaced only by the body of a 200 reply, and the flag
     * is set afterwards whatever happened (the `finally`).
     */
    method FetchAnswer(reply: Reply<AnswerBody>)
      modifies this
      ensures done
      ensures result == (if Check(reply).Pass? then Check(reply).body else old(result))
    {
      if reply.Reply? && reply.status == 200 && reply.body.Some? {
        result := reply.body.value;
      }
      done := true;
    }
  }

  /** The carousel updates for the rotated articles: `headline_html(ticker_name, art)` for each. */
  function Cards(ticker: string, shown: seq<Article>): (ui: seq<Ui>)
    ensures |ui| == |shown|
    ensures forall k :: 0 <= k < |ui| ==> ui[k] == Card(HeadlineHtml(ticker, shown[k]))
  {
    seq(|shown|, k requires 0 <= k < |shown| => Card(HeadlineHtml(ticker, shown[k])))
  }

  /** Lines 187-205: clear the carousel, show the answer, then the audio or the warning. */
  function Finish(res: AnswerBody): (ui: seq<Ui>)
    ensures |ui| == 3 && ui[0] == ClearCarousel
    ensures ui[1] == AnswerText(res.answer.GetOr(""))
    ensures ui[2] == NoAudioWarning <==> res.audio.GetOr("") == ""
    ensures ui[2] != NoAudioWarning ==> ui[2] == AudioPlayer(res.audio.value)
    ensures forall k :: 0 <= k < |ui| ==> !ui[k].Card?
  {
    var text := res.answer.GetOr("");
    var audio := res.audio.GetOr("");
    [ClearCarousel, AnswerText(text)] + if audio != "" then [AudioPlayer(audio)] else [NoAudioWarning]
  }

  /** The final outcome once the answer task has finished. */
  function Completed(res: AnswerBody): (o: Outcome)
    ensures o.Complete?
    ensures o.answerText == res.answer.GetOr("") && o.audio == res.audio.GetOr("")
    ensures o.noAudioWarning <==> o.audio == ""
  {
    var audio := res.audio.GetOr("");
    Complete(res.answer.GetOr(""), audio, audio == "")
  }

  /**
   * The whole run on a submitted recording, as a function of the replies the three
   * services give and of the flag observations of the carousel loop.
   */
  function QueryRun(audio: Audio, tr: Reply<TranscribeBody>, mcp: Reply<McpBody>,
                    ans: Reply<AnswerBody>, flags: seq<bool>): (run: Run)
    ensures 1 <= |run.calls| <= 3 && run.calls[0] == TranscribeCall(audio)
    ensures |run.calls| == 3 <==> Check(tr).Pass? && Check(mcp).Pass?
    ensures run.outcome.Failed? || run.outcome.Crashed? <==> |run.calls| < 3
    ensures |run.calls| < 3 ==> run.ui == []
    ensures run.outcome.Waiting? <==> |run.calls| == 3 && UnsetChecks(flags) == |flags|
  {
    var transcribed := [TranscribeCall(audio)];
    match Check(tr)
    case Rejected => Run(transcribed, [], Failed(Transcribe))
    case Threw => Run(transcribed, [], Crashed(Transcribe))
    case Pass(reply) =>
      var transcript := reply.transcript.GetOr("");
      var intent := reply.intent.GetOr(EmptyIntent);
      var fetched := transcribed + [McpCall(transcript, intent)];
      match Check(mcp)
      case Rejected => Run(fetched, [], Failed(Mcp))
      case Threw => Run(fetched, [], Crashed(Mcp))
      case Pass(mcpData) =>
        var calls := fetched + [AnswerCall(transcript, intent, mcpData)];
        var articles := NewsArticles(mcpData);
        var ticks := if articles == [] then 0 else UnsetChecks(flags);
        var cards := Cards(ResolveTicker(intent), Carousel(articles, ticks));
        if UnsetChecks(flags) == |flags| then Run(calls, cards, Waiting)
        else Run(calls, cards + Finish(SoftAnswer(ans)), Completed(SoftAnswer(ans)))
  }

  /** The script from the transcription request on, step by step. */
  method RunQuery(audio: Audio, tr: Reply<TranscribeBody>, mcp: Reply<McpBody>,
                  ans: Reply<AnswerBody>, flags: seq<bool>) returns (run: Run)
    ensures run == QueryRun(audio, tr, mcp, ans, flags)
  {
    var calls := [TranscribeCall(audio)];
    var transcribed := Check(tr);
    if transcribed.Rejected? {
      return Run(calls, [], Failed(Transcribe));
    } else if transcribed.Threw? {
      return Run(calls, [], Crashed(Transcribe));
    }
    var transcript := transcribed.body.transcript.GetOr("");
    var intent := transcribed.body.intent.GetOr(EmptyIntent);
    var tickerName := ResolveTicker(intent);

    calls := calls + [McpCall(transcript, intent)];
    var fetched := Check(mcp);
    if fetched.Rejected? {
      return Run(calls, [], Failed(Mcp));
    } else if fetched.Threw? {
      return Run(calls, [], Crashed(Mcp));
    }
    var mcpData := fetched.body;

    // The background thread starts and issues the answer request.
    var cell := new AnswerCell();
    calls := calls + [AnswerCall(transcript, intent, mcpData)];

    var articles := NewsArticles(mcpData);
    var idx, shown, answered := RotateHeadlines(articles, flags);
    // Each rotated article was written to the carousel as its card, at its tick.
    var ui := Cards(tickerName, shown);
    if !answered {
      return Run(calls, ui, Waiting);
    }
    // The loop saw the flag set, so the task had written its result before that check.
    cell.FetchAnswer(ans);
    assert cell.result == SoftAnswer(ans);

    var answerText := cell.result.answer.GetOr("");
    var audioData := cell.result.audio.GetOr("");
    var ending := [ClearCarousel, AnswerText(answerText)];
    if audioData != "" {
      ending := ending + [AudioPlayer(audioData)];
    } else {
      ending := ending + [NoAudioWarning];
    }
    assert ending == Finish(SoftAnswer(ans));
    ui := ui + ending;
    run := Run(calls, ui, Complete(answerText, audioData, audioData == ""));
  }

  /** `st.session_state`, reduced to the pending recording under `"audio_bytes"`. */
  class Session {
    var pending: Option<Audio>

    constructor ()
      ensures pending == None
    {
      pending := None;
    }

    /** Lines 111-113: a recording from the microphone is stored only if it is non-empty. */
    method Record(recording: Option<Audio>)
      modifies this
      ensures pending == (if recording.Some? && recording.value != [] then recording else old(pending))
    {
      if recording.Some? && recording.value != [] {
        pending := recording;
      }
    }

    /**
     * Lines 117-118: a pending recording is popped and run through the pipeline, so each
     * submission is processed once; with nothing pending the script does nothing.
     */
    method Submit(tr: Reply<TranscribeBody>, mcp: Reply<McpBody>, ans: Reply<AnswerBody>, flags: seq<bool>)
      returns (run: Option<Run>)
      modifies this
      ensures pending == None
      ensures old(pending).None? ==> run == None
      ensures old(pending).Some? ==> run == Some(QueryRun(old(pending).value, tr, mcp, ans, flags))
    {
      if pending.None? {
        return None;
      }
      var audio := pending.value;
      pending := None;
      var r := RunQuery(audio, tr, mcp, ans, flags);
      run := Some(r);
    }
  }
}
