/** `maybeAutoGenerate` (main.js:1756-1785): after a counted reply, a moment
    and a diary entry are generated in the background when the last user
    message asks for one or ends the conversation, at most once per log
    length. The generation itself is not modelled; the decision and the
    watermarks are. */
module AutoGenerate {
  import opened Wrappers
  import opened Conversation
  import opened Intents
  import Text

  /** `state.lastAutoMomentMsgCount`, `state.lastAutoDiaryMsgCount`. They
      are global, not per character. */
  datatype Watermarks = Watermarks(moment: int, diary: int)

  /** The new watermarks and which generations start. */
  datatype AutoDecision = AutoDecision(marks: Watermarks, moment: bool, diary: bool)

  /** `getLastUserMessage().content` when there is such a message. */
  function LastUserContent(msgs: seq<Message>): (r: Option<string>)
    ensures r.Some? <==> exists i :: 0 <= i < |msgs| && msgs[i].role == User
    ensures r.Some? ==> exists i :: 0 <= i < |msgs| && msgs[i].role == User && msgs[i].content == r.value
                          && forall j :: i < j < |msgs| ==> msgs[j].role != User
  {
    match LastIndexOfRole(msgs, User)
    case None => None
    case Some(i) => Some(msgs[i].content)
  }

  /** The last user message gives the kind's reason to fire. */
  predicate AsksForMoment(msgs: seq<Message>) {
    var t := LastUserContent(msgs);
    t.Some? && t.value != [] && (HasEndConversationIntent(t.value) || HasMomentIntent(t.value))
  }

  predicate AsksForDiary(msgs: seq<Message>) {
    var t := LastUserContent(msgs);
    t.Some? && t.value != [] && (HasEndConversationIntent(t.value) || HasDiaryIntent(t.value))
  }

  /** `maybeAutoGenerate` over the current log `msgs`. */
  function AutoStep(w: Watermarks, autoMoments: bool, autoDiary: bool, msgs: seq<Message>): (r: AutoDecision)
    ensures r.moment <==> autoMoments && AsksForMoment(msgs) && |msgs| > w.moment
    ensures r.diary <==> autoDiary && AsksForDiary(msgs) && |msgs| > w.diary
    ensures r.marks.moment == (if r.moment then |msgs| else w.moment)
    ensures r.marks.diary == (if r.diary then |msgs| else w.diary)
  {
    if !autoMoments && !autoDiary then AutoDecision(w, false, false)
    else if msgs == [] then AutoDecision(w, false, false)
    else
      var lastUser := LastUserContent(msgs);
      if lastUser.None? || lastUser.value == [] then AutoDecision(w, false, false)
      else
        var text := lastUser.value;
        var count := |msgs|;
        var endIntent := HasEndConversationIntent(text);
        var fireMoment := autoMoments && (endIntent || HasMomentIntent(text)) && count > w.moment;
        var fireDiary := autoDiary && (endIntent || HasDiaryIntent(text)) && count > w.diary;
        AutoDecision(Watermarks(if fireMoment then count else w.moment, if fireDiary then count else w.diary),
                     fireMoment, fireDiary)
  }

  /** Each kind fires at most once per log length: called again on the same
      log, nothing fires and nothing changes; and it fires again only once
      the log has grown. */
  lemma FiresAtMostOnce(w: Watermarks, am: bool, ad: bool, msgs: seq<Message>, later: seq<Message>)
    ensures var r := AutoStep(w, am, ad, msgs);
            AutoStep(r.marks, am, ad, msgs) == AutoDecision(r.marks, false, false)
    ensures var r := AutoStep(w, am, ad, msgs);
            (r.moment && AutoStep(r.marks, am, ad, later).moment ==> |later| > |msgs|)
            && (r.diary && AutoStep(r.marks, am, ad, later).diary ==> |later| > |msgs|)
  {
  }

  /** Watermarks never go down. */
  lemma WatermarksOnlyRise(w: Watermarks, am: bool, ad: bool, msgs: seq<Message>)
    requires w.moment >= 0 && w.diary >= 0
    ensures AutoStep(w, am, ad, msgs).marks.moment >= w.moment
    ensures AutoStep(w, am, ad, msgs).marks.diary >= w.diary
  {
  }

  /** A user message at the end of the log is the last user message. */
  lemma LastUserIsAtTheEnd(before: seq<Message>, text: string)
    ensures LastUserContent(before + [Message(User, text, None, false)]) == Some(text)
  {
    var msgs := before + [Message(User, text, None, false)];
    assert msgs[|before|].role == User;
    assert LastIndexOfRole(msgs, User) == Some(|before|);
  }

  lemma GoodNightEndsTheConversation()
    ensures HasEndConversationIntent("晚安")
  {
    var t := "晚安";
    assert Text.StartsWith(t[0..], EndKeywords[4]);
    IntentsAreKeywordContainment(t);
  }

  /** "晚安" (good night) as the last user message ends the conversation:
      with both toggles on and a log longer than both watermarks, both a
      moment and a diary entry start. */
  lemma GoodNightStartsBoth(w: Watermarks, before: seq<Message>)
    requires |before| + 1 > w.moment && |before| + 1 > w.diary
    ensures var msgs := before + [Message(User, "晚安", None, false)];
            var r := AutoStep(w, true, true, msgs);
            r.moment && r.diary && r.marks == Watermarks(|msgs|, |msgs|)
  {
    LastUserIsAtTheEnd(before, "晚安");
    GoodNightEndsTheConversation();
  }
}
