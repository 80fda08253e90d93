/**
 * What the pipeline promises across all replies and all timings: fail-fast for the
 * first two stages, fail-soft for the answer, and a carousel that only runs while
 * the answer is outstanding.
 */
module PipelineProperties {
  import opened Wrappers
  import opened Tickers
  import opened Headlines
  import opened Rotation
  import opened Pipeline

  /** The transcript the script works with after a successful first stage (`""` when absent). */
  function TranscriptOf(tr: Reply<TranscribeBody>): string
    requires Check(tr).Pass?
  {
    Check(tr).body.transcript.GetOr("")
  }

  /** The intent the script works with after a successful first stage (`{}` when absent). */
  function IntentOf(tr: Reply<TranscribeBody>): Intent
    requires Check(tr).Pass?
  {
    Check(tr).body.intent.GetOr(EmptyIntent)
  }

  /** Requests are issued in stage order, and a later one only after the earlier ones. */
  lemma StagesRunInOrder(audio: Audio, tr: Reply<TranscribeBody>, mcp: Reply<McpBody>,
                         ans: Reply<AnswerBody>, flags: seq<bool>)
    ensures var run := QueryRun(audio, tr, mcp, ans, flags);
      && 1 <= |run.calls| <= 3
      && run.calls[0] == TranscribeCall(audio)
      && (|run.calls| >= 2 <==> Check(tr).Pass?)
      && (|run.calls| >= 2 ==> run.calls[1] == McpCall(TranscriptOf(tr), IntentOf(tr)))
      && (|run.calls| == 3 <==> Check(tr).Pass? && Check(mcp).Pass?)
      && (|run.calls| == 3 ==> run.calls[2] == AnswerCall(TranscriptOf(tr), IntentOf(tr), Check(mcp).body))
  {
  }

  /**
   * A failed transcription ends the run at once: no other request, nothing in the
   * carousel or answer area. A non-200 status is the reported failure; an exception
   * from the request or from decoding the body ends the script instead.
   */
  lemma TranscribeFailureHalts(audio: Audio, tr: Reply<TranscribeBody>, mcp: Reply<McpBody>,
                               ans: Reply<AnswerBody>, flags: seq<bool>)
    requires !Check(tr).Pass?
    ensures QueryRun(audio, tr, mcp, ans, flags) ==
      Run([TranscribeCall(audio)], [], if tr.Reply? && tr.status != 200 then Failed(Transcribe) else Crashed(Transcribe))
  {
  }

  /** A failed market-data request ends the run after transcription: no answer request, no carousel. */
  lemma McpFailureHalts(audio: Audio, tr: Reply<TranscribeBody>, mcp: Reply<McpBody>,
                        ans: Reply<AnswerBody>, flags: seq<bool>)
    requires Check(tr).Pass? && !Check(mcp).Pass?
    ensures QueryRun(audio, tr, mcp, ans, flags) ==
      Run([TranscribeCall(audio), McpCall(TranscriptOf(tr), IntentOf(tr))], [],
          if mcp.Reply? && mcp.status != 200 then Failed(Mcp) else Crashed(Mcp))
  {
  }

  /** The run fails, or crashes, exactly when one of the first two stages did not pass. */
  lemma OnlyFirstStagesAreFatal(audio: Audio, tr: Reply<TranscribeBody>, mcp: Reply<McpBody>,
                                ans: Reply<AnswerBody>, flags: seq<bool>)
    ensures var o := QueryRun(audio, tr, mcp, ans, flags).outcome;
      (o.Failed? || o.Crashed?) <==> !(Check(tr).Pass? && Check(mcp).Pass?)
  {
  }

  /**
   * Any failure of the answer stage (status, decoding or transport) still completes the
   * run, with no answer text, no audio and the no-audio warning after the cleared carousel.
   */
  lemma AnswerFailureIsSoft(audio: Audio, tr: Reply<TranscribeBody>, mcp: Reply<McpBody>,
                            ans: Reply<AnswerBody>, flags: seq<bool>)
    requires Check(tr).Pass? && Check(mcp).Pass? && !Check(ans).Pass?
    requires true in flags
    ensures var run := QueryRun(audio, tr, mcp, ans, flags);
      && run.outcome == Complete("", "", true)
      && |run.ui| >= 3
      && run.ui[|run.ui| - 3..] == [ClearCarousel, AnswerText(""), NoAudioWarning]
  {
    TrueEndsObservation(flags);
  }

  /** A decoded answer is shown as it is; its audio is played when non-empty, otherwise the warning is given. */
  lemma AnswerIsShown(audio: Audio, tr: Reply<TranscribeBody>, mcp: Reply<McpBody>,
                      ans: Reply<AnswerBody>, flags: seq<bool>)
    requires Check(tr).Pass? && Check(mcp).Pass? && Check(ans).Pass?
    requires true in flags
    ensures var run := QueryRun(audio, tr, mcp, ans, flags);
      var text, url := Check(ans).body.answer.GetOr(""), Check(ans).body.audio.GetOr("");
      && run.outcome == Complete(text, url, url == "")
      && |run.ui| >= 3
      && run.ui[|run.ui| - 3..] == [ClearCarousel, AnswerText(text), if url == "" then NoAudioWarning else AudioPlayer(url)]
  {
    TrueEndsObservation(flags);
  }

  /** `{"answer": "Buy NKE", "audio": ""}` completes with that text and the no-audio warning. */
  lemma AnswerWithoutAudioExample(audio: Audio, tr: Reply<TranscribeBody>, mcp: Reply<McpBody>, flags: seq<bool>)
    requires Check(tr).Pass? && Check(mcp).Pass?
    requires true in flags
    ensures QueryRun(audio, tr, mcp, Reply(200, Some(AnswerBody(Some("Buy NKE"), Some("")))), flags).outcome
      == Complete("Buy NKE", "", true)
  {
    TrueEndsObservation(flags);
  }

  /** An observation that contains a set flag ends at the first one. */
  lemma TrueEndsObservation(flags: seq<bool>)
    requires true in flags
    ensures UnsetChecks(flags) < |flags|
  {
    var t :| 0 <= t < |flags| && flags[t];
    assert UnsetChecks(flags) <= t;
  }

  /** Once both fail-fast stages pass, the display is the carousel's cards followed, if the answer came, by the ending. */
  lemma PassedRunDisplay(audio: Audio, tr: Reply<TranscribeBody>, mcp: Reply<McpBody>,
                         ans: Reply<AnswerBody>, flags: seq<bool>)
    requires Check(tr).Pass? && Check(mcp).Pass?
    ensures var articles := NewsArticles(Check(mcp).body);
      var cards := Cards(ResolveTicker(IntentOf(tr)), Carousel(articles, if articles == [] then 0 else UnsetChecks(flags)));
      QueryRun(audio, tr, mcp, ans, flags).ui ==
        cards + if UnsetChecks(flags) == |flags| then [] else Finish(SoftAnswer(ans))
  {
  }

  /**
   * The carousel: one card per check that saw the flag unset (none without articles),
   * card `k` showing article `k mod |articles|` under the resolved ticker.
   */
  lemma CardsFollowArticles(audio: Audio, tr: Reply<TranscribeBody>, mcp: Reply<McpBody>,
                            ans: Reply<AnswerBody>, flags: seq<bool>, k: nat)
    requires Check(tr).Pass? && Check(mcp).Pass?
    requires k < (if NewsArticles(Check(mcp).body) == [] then 0 else UnsetChecks(flags))
    ensures !flags[k]
    ensures var articles := NewsArticles(Check(mcp).body);
      var ui := QueryRun(audio, tr, mcp, ans, flags).ui;
      k < |ui| && ui[k] == Card(HeadlineHtml(ResolveTicker(IntentOf(tr)), articles[k % |articles|]))
  {
    var articles := NewsArticles(Check(mcp).body);
    var prefix := Cards(ResolveTicker(IntentOf(tr)), Carousel(articles, UnsetChecks(flags)));
    PassedRunDisplay(audio, tr, mcp, ans, flags);
    SlotIsMod(k, |articles|);
    assert QueryRun(audio, tr, mcp, ans, flags).ui[k] == prefix[k];
  }

  /** The cards come first, one per check that saw the flag unset (none without articles); nothing after them is a card. */
  lemma CardsComeFirst(audio: Audio, tr: Reply<TranscribeBody>, mcp: Reply<McpBody>,
                       ans: Reply<AnswerBody>, flags: seq<bool>)
    requires Check(tr).Pass? && Check(mcp).Pass?
    ensures var ui := QueryRun(audio, tr, mcp, ans, flags).ui;
      var cards := if NewsArticles(Check(mcp).body) == [] then 0 else UnsetChecks(flags);
      && |ui| >= cards
      && (forall j :: 0 <= j < cards ==> ui[j].Card?)
      && (forall j :: cards <= j < |ui| ==> !ui[j].Card?)
  {
    var ui := QueryRun(audio, tr, mcp, ans, flags).ui;
    var articles := NewsArticles(Check(mcp).body);
    var cards := if articles == [] then 0 else UnsetChecks(flags);
    var prefix := Cards(ResolveTicker(IntentOf(tr)), Carousel(articles, cards));
    var ending := if UnsetChecks(flags) == |flags| then [] else Finish(SoftAnswer(ans));
    PassedRunDisplay(audio, tr, mcp, ans, flags);
    assert ui == prefix + ending;
    assert forall j :: 0 <= j < |ending| ==> !ending[j].Card?;
    assert forall j :: cards <= j < |ui| ==> ui[j] == ending[j - cards];
  }

  /** With no articles the carousel never shows a card, however long the answer takes. */
  lemma NoArticlesNoCards(audio: Audio, tr: Reply<TranscribeBody>, mcp: Reply<McpBody>,
                          ans: Reply<AnswerBody>, flags: seq<bool>)
    requires Check(tr).Pass? && Check(mcp).Pass?
    requires NewsArticles(Check(mcp).body) == []
    ensures var run := QueryRun(audio, tr, mcp, ans, flags);
      forall j :: 0 <= j < |run.ui| ==> !run.ui[j].Card?
  {
    CardsComeFirst(audio, tr, mcp, ans, flags);
  }

  /** No card is shown after the carousel is cleared, and it is cleared exactly when the run completes. */
  lemma ClearedBeforeAnswer(audio: Audio, tr: Reply<TranscribeBody>, mcp: Reply<McpBody>,
                            ans: Reply<AnswerBody>, flags: seq<bool>)
    ensures var run := QueryRun(audio, tr, mcp, ans, flags);
      && (forall i, j :: 0 <= i < j < |run.ui| && run.ui[i].ClearCarousel? ==> !run.ui[j].Card?)
      && (run.outcome.Complete? <==> ClearCarousel in run.ui)
  {
    var run := QueryRun(audio, tr, mcp, ans, flags);
    if Check(tr).Pass? && Check(mcp).Pass? {
      CardsComeFirst(audio, tr, mcp, ans, flags);
      if run.outcome.Complete? {
        var articles := NewsArticles(Check(mcp).body);
        var cards := if articles == [] then 0 else UnsetChecks(flags);
        assert run.ui[cards] == ClearCarousel;
      }
    }
  }

  /**
   * An answer that has not arrived by the end of the observation: the run is still
   * waiting, the carousel has not been cleared, and every observed tick showed a card.
   */
  lemma SlowAnswerKeepsRotating(audio: Audio, tr: Reply<TranscribeBody>, mcp: Reply<McpBody>,
                                ans: Reply<AnswerBody>, n: nat)
    requires Check(tr).Pass? && Check(mcp).Pass?
    requires NewsArticles(Check(mcp).body) != []
    ensures var run := QueryRun(audio, tr, mcp, ans, seq(n, _ => false));
      && run.outcome == Waiting
      && |run.ui| == n
      && forall j :: 0 <= j < n ==> run.ui[j].Card?
  {
    UnsetChecksCountsTicks(n);
    CardsComeFirst(audio, tr, mcp, ans, seq(n, _ => false));
  }

  /**
   * The timing of the answer only decides how many cards are shown: the requests and the
   * final outcome are the same for every observation in which the answer arrives.
   */
  lemma OutcomeIndependentOfTiming(audio: Audio, tr: Reply<TranscribeBody>, mcp: Reply<McpBody>,
                                   ans: Reply<AnswerBody>, flags1: seq<bool>, flags2: seq<bool>)
    requires true in flags1 && true in flags2
    ensures QueryRun(audio, tr, mcp, ans, flags1).calls == QueryRun(audio, tr, mcp, ans, flags2).calls
    ensures QueryRun(audio, tr, mcp, ans, flags1).outcome == QueryRun(audio, tr, mcp, ans, flags2).outcome
  {
    TrueEndsObservation(flags1);
    TrueEndsObservation(flags2);
  }
}
