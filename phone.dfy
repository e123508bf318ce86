/** The global `state` of main.js (main.js:2-36) and the operations that
    change it in place: the per-character logs, the busy flag of a request
    in flight, the memory counter, the auto-generation watermarks and the
    moments. Rendering, persistence and dialogs are not modelled; their
    answers are parameters. */
module Phone {
  import opened Wrappers
  import opened Text
  import opened JsonModel
  import opened Conversation
  import opened Config
  import opened Reply
  import opened Prompt
  import opened Memory
  import opened AutoGenerate
  import opened Moments

  /** The entries of the long-press menu. */
  datatype MessageAction = Cancel | Copy | Delete | Star | ToMoment | OtherAction(name: string)

  /** A request in flight: the character whose log held the placeholder
      when the request started (None when there was no character and the
      placeholder went to a throw-away array), the placeholder's index, and
      what was sent. */
  datatype Pending = Pending(ref: Option<string>, slot: nat, request: Request)

  /** `sessions[id].messages.push(...ms)`, creating the session when it is
      missing. */
  function AppendTo(sessions: map<string, Session>, id: string, ms: seq<Message>): (r: map<string, Session>)
    ensures r.Keys == sessions.Keys + {id}
    ensures r[id].messages == (if id in sessions then sessions[id].messages else []) + ms
    ensures r[id].unread == (if id in sessions then sessions[id].unread else 0)
    ensures forall k :: k in sessions && k != id ==> r[k] == sessions[k]
  {
    var s := if id in sessions then sessions[id] else EmptySession;
    sessions[id := s.(messages := s.messages + ms)]
  }

  lemma AppendToTwice(sessions: map<string, Session>, id: string, a: seq<Message>, b: seq<Message>)
    ensures AppendTo(AppendTo(sessions, id, a), id, b) == AppendTo(sessions, id, a + b)
  {
    var s := if id in sessions then sessions[id].messages else [];
    assert s + a + b == s + (a + b);
  }

  /** The assistant messages `addMessage` writes for the later bubbles. */
  function Bubbles(texts: seq<string>, now: int): (r: seq<Message>)
    ensures |r| == |texts|
    ensures forall i :: 0 <= i < |r| ==> r[i] == Message(Assistant, texts[i], Some(now), false)
  {
    seq(|texts|, i requires 0 <= i < |texts| => Message(Assistant, texts[i], Some(now), false))
  }

  /** The message that replaces the placeholder. */
  function FirstMessage(c: Commit, now: int): Message {
    Message(Assistant, c.first, if c.stamped then Some(now) else None, false)
  }

  /** The request's slot is still in its log. */
  predicate SlotExists(sessions: map<string, Session>, p: Pending) {
    p.ref.Some? ==> p.ref.value in sessions && p.slot < |sessions[p.ref.value].messages|
  }

  /** `msgsRef[idx] = msg` on the log captured at request start; nothing
      when that log was a throw-away array. */
  function WriteSlot(sessions: map<string, Session>, p: Pending, msg: Message): (r: map<string, Session>)
    requires SlotExists(sessions, p)
    ensures r.Keys == sessions.Keys
    ensures p.ref.Some? ==> r[p.ref.value].messages == sessions[p.ref.value].messages[p.slot := msg]
    ensures forall k :: k in sessions && (p.ref.None? || k != p.ref.value) ==> r[k] == sessions[k]
  {
    if p.ref.Some? then
      var s := sessions[p.ref.value];
      sessions[p.ref.value := s.(messages := s.messages[p.slot := msg])]
    else sessions
  }

  /** How the logs look after a commit: the placeholder of the log captured
      at request start is replaced, and the later bubbles are appended to
      the log of the character current at completion. */
  function CommitToLog(sessions: map<string, Session>, p: Pending, c: Commit,
                       current: Option<string>, now: int): map<string, Session>
    requires SlotExists(sessions, p)
  {
    var s1 := WriteSlot(sessions, p, FirstMessage(c, now));
    if IsTruthyId(current) && c.more != [] then AppendTo(s1, current.value, Bubbles(c.more, now)) else s1
  }

  /** When the same character is still open and the placeholder is the last
      message, the placeholder becomes the first bubble and the others
      follow it, in order; no other log changes. */
  lemma CommitReplacesPlaceholder(sessions: map<string, Session>, p: Pending, c: Commit, now: int)
    requires p.ref.Some? && IsTruthyId(p.ref) && SlotExists(sessions, p)
    requires p.slot == |sessions[p.ref.value].messages| - 1
    ensures var r := CommitToLog(sessions, p, c, p.ref, now);
            var log := sessions[p.ref.value].messages;
            && r[p.ref.value].messages == log[..p.slot] + [FirstMessage(c, now)] + Bubbles(c.more, now)
            && forall k :: k in sessions && k != p.ref.value ==> r[k] == sessions[k]
  {
    var log := sessions[p.ref.value].messages;
    assert log[p.slot := FirstMessage(c, now)] == log[..p.slot] + [FirstMessage(c, now)];
  }

  /** When another character was opened while the request was in flight,
      the first bubble still lands in the original log but the later
      bubbles go to the newly opened one. */
  lemma LaterBubblesFollowTheOpenCharacter(sessions: map<string, Session>, p: Pending, c: Commit,
                                           current: string, now: int)
    requires p.ref.Some? && SlotExists(sessions, p) && current != p.ref.value && current != []
    requires c.more != []
    ensures var r := CommitToLog(sessions, p, c, Some(current), now);
            && r[p.ref.value].messages == sessions[p.ref.value].messages[p.slot := FirstMessage(c, now)]
            && r[current].messages == (if current in sessions then sessions[current].messages else []) + Bubbles(c.more, now)
  {
  }

  class PhoneState {
    var sending: bool
    var chars: seq<Character>
    var userProfiles: seq<UserProfile>
    var worldBooks: seq<WorldBook>
    var currentCharId: Option<string>
    var currentUserProfileId: Option<string>
    var currentSceneKey: string
    var sessions: map<string, Session>
    var moments: seq<Moment>
    var memoryEnabled: bool
    var memoryEvery: int
    var memorySummary: string
    var memorySinceLastSummary: int
    var lastAutoMomentMsgCount: int
    var lastAutoDiaryMsgCount: int

    /** The initial `state`. */
    constructor ()
      ensures !sending && chars == [] && userProfiles == [] && worldBooks == []
      ensures currentCharId.None? && currentUserProfileId.None? && currentSceneKey == "default"
      ensures sessions == map[] && moments == []
      ensures Memory() == MemoryState(false, 20, [], 0)
      ensures Marks() == Watermarks(0, 0)
    {
      sending := false;
      chars := [];
      userProfiles := [];
      worldBooks := [];
      currentCharId := None;
      currentUserProfileId := None;
      currentSceneKey := "default";
      sessions := map[];
      moments := [];
      memoryEnabled := false;
      memoryEvery := 20;
      memorySummary := [];
      memorySinceLastSummary := 0;
      lastAutoMomentMsgCount := 0;
      lastAutoDiaryMsgCount := 0;
    }

    /** `getCurrentCharId()`: the current id when it is set, else the first
      character's id, else `null`. */
    function CurrentCharId(): Option<string>
      reads this`currentCharId, this`chars
    {
      if IsTruthyId(currentCharId) then currentCharId
      else if chars != [] then Some(chars[0].id)
      else None
    }

    /** `getSession(id, false)` */
    function SessionOf(id: Option<string>): Option<Session>
      reads this`sessions
    {
      if IsTruthyId(id) && id.value in sessions then Some(sessions[id.value]) else None
    }

    /** `getCurrentMessages(false)` */
    function CurrentMessages(): seq<Message>
      reads this`currentCharId, this`chars, this`sessions
    {
      var s := SessionOf(CurrentCharId());
      if s.Some? then s.value.messages else []
    }

    function Memory(): MemoryState
      reads this`memoryEnabled, this`memoryEvery, this`memorySummary, this`memorySinceLastSummary
    {
      MemoryState(memoryEnabled, memoryEvery, memorySummary, memorySinceLastSummary)
    }

    function Marks(): Watermarks
      reads this`lastAutoMomentMsgCount, this`lastAutoDiaryMsgCount
    {
      Watermarks(lastAutoMomentMsgCount, lastAutoDiaryMsgCount)
    }

    /** The message the long-press menu points at, if it still exists. */
    function MessageAt(charId: Option<string>, index: int): Option<Message>
      reads this`sessions
    {
      var s := SessionOf(charId);
      if s.Some? && 0 <= index < |s.value.messages| then Some(s.value.messages[index]) else None
    }

    /** What `sendToAI` reads from the state besides the log. */
    function Sources(): PromptSources
      reads this`chars, this`currentCharId, this`userProfiles, this`currentUserProfileId
      reads this`worldBooks, this`currentSceneKey, this`memorySummary
    {
      PromptSources(chars, currentCharId, userProfiles, currentUserProfileId, worldBooks, currentSceneKey, memorySummary)
    }

    /** The request `sendToAI` would send over `history`. */
    function RequestFor(c: Controls, history: seq<Message>): Option<Request>
      reads this`chars, this`currentCharId, this`userProfiles, this`currentUserProfileId
      reads this`worldBooks, this`currentSceneKey, this`memorySummary
    {
      RequestOf(Sources(), c, history)
    }

    // --- the conversation store ------------------------------------------

    /** `getSession(id, create)`: a missing session is created empty only
      when asked for, and an existing one is never replaced. */
    method GetSession(id: Option<string>, create: bool) returns (s: Option<Session>)
      modifies this`sessions
      ensures !IsTruthyId(id) ==> s.None? && sessions == old(sessions)
      ensures IsTruthyId(id) && id.value in old(sessions) ==> s == Some(old(sessions)[id.value]) && sessions == old(sessions)
      ensures IsTruthyId(id) && id.value !in old(sessions) && create
              ==> s == Some(EmptySession) && sessions == old(sessions)[id.value := EmptySession]
      ensures IsTruthyId(id) && id.value !in old(sessions) && !create ==> s.None? && sessions == old(sessions)
    {
      if !IsTruthyId(id) {
        return None;
      }
      if id.value in sessions {
        return Some(sessions[id.value]);
      }
      if create {
        sessions := sessions[id.value := EmptySession];
        return Some(EmptySession);
      }
      return None;
    }

    /** `addMessage(role, content)`: one message at the end of the current
      character's log; nothing when there is no character. */
    method AddMessage(role: Role, content: string, now: int)
      modifies this`sessions
      ensures IsTruthyId(CurrentCharId())
              ==> sessions == AppendTo(old(sessions), CurrentCharId().value, [Message(role, content, Some(now), false)])
      ensures IsTruthyId(CurrentCharId())
              ==> CurrentMessages() == old(CurrentMessages()) + [Message(role, content, Some(now), false)]
      ensures !IsTruthyId(CurrentCharId()) ==> sessions == old(sessions)
    {
      var id := CurrentCharId();
      var s := GetSession(id, true);
      if s.Some? {
        sessions := sessions[id.value := s.value.(messages := s.value.messages + [Message(role, content, Some(now), false)])];
      }
    }

    /** `getLastUserMessage()`: a backward scan of the current log. */
    method GetLastUserMessage() returns (m: Option<Message>)
      ensures m.None? <==> LastIndexOfRole(CurrentMessages(), User).None?
      ensures m.Some? ==> m.value == CurrentMessages()[LastIndexOfRole(CurrentMessages(), User).value]
    {
      var msgs := CurrentMessages();
      var i := |msgs|;
      while i > 0
        invariant 0 <= i <= |msgs|
        invariant forall j :: i <= j < |msgs| ==> msgs[j].role != User
      {
        if msgs[i - 1].role == User {
          return Some(msgs[i - 1]);
        }
        i := i - 1;
      }
      return None;
    }

    /** `removeLastAssistantReply()`: the log is cut just before its last
      assistant message; false, with nothing changed, when there is none. */
    method RemoveLastAssistantReply() returns (removed: bool)
      modifies this`sessions
      ensures removed <==> RetryPrefix(old(CurrentMessages())).Some?
      ensures removed ==> CurrentMessages() == RetryPrefix(old(CurrentMessages())).value
      ensures removed ==> var id := CurrentCharId().value;
                sessions == old(sessions)[id := old(sessions)[id].(messages := RetryPrefix(old(CurrentMessages())).value)]
      ensures !removed ==> sessions == old(sessions)
    {
      var msgs := CurrentMessages();
      var idx := -1;
      var i := |msgs|;
      while i > 0
        invariant 0 <= i <= |msgs|
        invariant forall j :: i <= j < |msgs| ==> msgs[j].role != Assistant
      {
        if msgs[i - 1].role == Assistant {
          idx := i - 1;
          break;
        }
        i := i - 1;
      }
      if idx == -1 {
        return false;
      }
      var id := CurrentCharId();
      var s := GetSession(id, true);
      sessions := sessions[id.value := s.value.(messages := msgs[..idx])];
      return true;
    }

    /** `handleMessageAction(action)` on the message at `index` of
      `charId`'s log. Copying changes nothing here. */
    method HandleMessageAction(charId: Option<string>, index: int, action: MessageAction,
                               now: nat, timeText: string)
      modifies this`sessions, this`moments
      ensures old(MessageAt(charId, index)).None? ==> sessions == old(sessions) && moments == old(moments)
      ensures !(action.Delete? || action.Star? || action.ToMoment?)
              ==> sessions == old(sessions) && moments == old(moments)
      ensures old(MessageAt(charId, index)).Some? && action.Delete?
              ==> moments == old(moments)
                  && sessions == old(sessions)[charId.value := old(sessions)[charId.value].(
                       messages := RemoveAt(old(sessions)[charId.value].messages, index))]
      ensures old(MessageAt(charId, index)).Some? && action.Star?
              ==> moments == old(moments)
                  && sessions == old(sessions)[charId.value := old(sessions)[charId.value].(
                       messages := ToggleStarAt(old(sessions)[charId.value].messages, index))]
      ensures old(MessageAt(charId, index)).Some? && action.ToMoment?
              ==> sessions == old(sessions)
                  && moments == old(moments) + [MomentFromMessage(old(MessageAt(charId, index)).value, charId.value,
                                                                  currentUserProfileId, now, timeText)]
    {
      var target := MessageAt(charId, index);
      if target.None? {
        return;
      }
      var s := sessions[charId.value];
      match action {
        case Delete =>
          sessions := sessions[charId.value := s.(messages := RemoveAt(s.messages, index))];
        case Star =>
          sessions := sessions[charId.value := s.(messages := ToggleStarAt(s.messages, index))];
        case ToMoment =>
          moments := moments + [MomentFromMessage(target.value, charId.value, currentUserProfileId, now, timeText)];
        case Cancel =>
        case Copy =>
        case OtherAction(_) =>
      }
    }

    /** Opening a conversation from the list makes that character current
      and resets the scene (main.js:755-758). */
    method OpenConversation(id: string)
      modifies this`currentCharId, this`currentSceneKey
      ensures currentCharId == Some(id) && currentSceneKey == "default"
    {
      currentCharId := Some(id);
      currentSceneKey := "default";
    }

    // --- sending ---------------------------------------------------------

    /** `handleSend()`: the trimmed input becomes a user message, unless a
      request is in flight or the input is blank. */
    method HandleSend(input: string, now: int) returns (sent: bool)
      modifies this`sessions
      ensures sent <==> !sending && Trim(input) != []
      ensures sent && IsTruthyId(CurrentCharId())
              ==> CurrentMessages() == old(CurrentMessages()) + [Message(User, Trim(input), Some(now), false)]
      ensures !sent || !IsTruthyId(CurrentCharId()) ==> sessions == old(sessions)
    {
      if sending {
        return false;
      }
      var text := Trim(input);
      if text == [] {
        return false;
      }
      AddMessage(User, text, now);
      return true;
    }

    /** The first half of `sendToAI`, up to the `fetch`: nothing happens
      without an API key; otherwise the busy flag is set, the request is
      built from the log as it is, and a placeholder is appended at the
      log's old length. */
    method BeginSend(c: Controls, now: int) returns (p: Option<Pending>)
      modifies this`sessions, this`sending
      ensures p.None? <==> Trim(c.apiKey) == []
      ensures p.None? ==> sessions == old(sessions) && sending == old(sending)
      ensures p.Some? ==> sending
      ensures p.Some? ==> Some(p.value.request) == RequestFor(c, old(CurrentMessages()))
      ensures p.Some? ==> p.value.slot == |old(CurrentMessages())|
      ensures p.Some? ==> p.value.ref == (if IsTruthyId(CurrentCharId()) then CurrentCharId() else None)
      ensures p.Some? && IsTruthyId(CurrentCharId())
              ==> CurrentMessages() == old(CurrentMessages()) + [Message(Assistant, Placeholder, Some(now), false)]
      ensures p.Some? && IsTruthyId(CurrentCharId()) ==> SlotExists(sessions, p.value)
      ensures !IsTruthyId(CurrentCharId()) ==> sessions == old(sessions)
    {
      var request := RequestFor(c, CurrentMessages());
      if request.None? {
        return None;
      }
      var ref, slot := PushPlaceholder(now);
      p := Some(Pending(ref, slot, request.value));
    }

    /** What `sendToAI` changes before the `fetch`: the busy flag is set,
      the log is captured with its length, and the placeholder is
      appended. A log without a character is a throw-away array. */
    method PushPlaceholder(now: int) returns (ref: Option<string>, slot: nat)
      modifies this`sessions, this`sending
      ensures sending && Sources() == old(Sources())
      ensures slot == |old(CurrentMessages())|
      ensures ref == (if IsTruthyId(CurrentCharId()) then CurrentCharId() else None)
      ensures IsTruthyId(CurrentCharId())
              ==> CurrentMessages() == old(CurrentMessages()) + [Message(Assistant, Placeholder, Some(now), false)]
      ensures ref.Some? ==> ref.value in sessions && slot < |sessions[ref.value].messages|
      ensures !IsTruthyId(CurrentCharId()) ==> sessions == old(sessions)
    {
      sending := true;
      var id := CurrentCharId();
      slot := |CurrentMessages()|;
      ref := if IsTruthyId(id) then id else None;
      AddMessage(Assistant, Placeholder, now);
    }

    /** `handleAskAI()`: refused while busy and when the log has no user
      message. */
    method HandleAskAI(c: Controls, now: int) returns (p: Option<Pending>)
      modifies this`sessions, this`sending
      ensures old(sending) ==> p.None? && sessions == old(sessions) && sending
      ensures (forall j :: 0 <= j < |old(CurrentMessages())| ==> old(CurrentMessages())[j].role != User)
              ==> p.None? && sessions == old(sessions) && sending == old(sending)
      ensures !old(sending) && (exists j :: 0 <= j < |old(CurrentMessages())| && old(CurrentMessages())[j].role == User)
              ==> (p.None? <==> Trim(c.apiKey) == [])
      ensures p.None? ==> sessions == old(sessions) && sending == old(sending)
      ensures p.Some? ==> !old(sending) && sending
      ensures p.Some? ==> Some(p.value.request) == RequestFor(c, old(CurrentMessages()))
      ensures p.Some? ==> p.value.slot == |old(CurrentMessages())|
      ensures p.Some? ==> p.value.ref == (if IsTruthyId(CurrentCharId()) then CurrentCharId() else None)
      ensures p.Some? && IsTruthyId(CurrentCharId())
              ==> CurrentMessages() == old(CurrentMessages()) + [Message(Assistant, Placeholder, Some(now), false)]
      ensures p.Some? && IsTruthyId(CurrentCharId()) ==> SlotExists(sessions, p.value)
      ensures !IsTruthyId(CurrentCharId()) ==> sessions == old(sessions)
    {
      if sending {
        return None;
      }
      var msgs := CurrentMessages();
      if !(exists j :: 0 <= j < |msgs| && msgs[j].role == User) {
        return None;
      }
      p := BeginSend(c, now);
    }

    /** `handleRetry()`: refused while busy and when there is no reply to
      retry; otherwise the last reply and what followed it are removed and
      the request is sent again over what is left. The reply stays removed
      even when the request is then refused for want of an API key. */
    method HandleRetry(c: Controls, now: int) returns (p: Option<Pending>)
      modifies this`sessions, this`sending
      ensures old(sending) ==> p.None? && sessions == old(sessions) && sending
      ensures !old(sending) && RetryPrefix(old(CurrentMessages())).None?
              ==> p.None? && sessions == old(sessions) && sending == old(sending)
      ensures !old(sending) && RetryPrefix(old(CurrentMessages())).Some? && Trim(c.apiKey) == []
              ==> p.None? && CurrentMessages() == RetryPrefix(old(CurrentMessages())).value
      ensures p.Some? ==> !old(sending) && sending && RetryPrefix(old(CurrentMessages())).Some?
      ensures p.Some? ==> Some(p.value.request) == RequestFor(c, RetryPrefix(old(CurrentMessages())).value)
      ensures !old(sending) && RetryPrefix(old(CurrentMessages())).Some? ==> (p.None? <==> Trim(c.apiKey) == [])
      ensures p.None? ==> sending == old(sending)
      ensures p.Some? ==> p.value.slot == |RetryPrefix(old(CurrentMessages())).value|
      ensures p.Some? ==> p.value.ref == (if IsTruthyId(CurrentCharId()) then CurrentCharId() else None)
      ensures p.Some? && IsTruthyId(CurrentCharId())
              ==> CurrentMessages() == RetryPrefix(old(CurrentMessages())).value + [Message(Assistant, Placeholder, Some(now), false)]
      ensures p.Some? && IsTruthyId(CurrentCharId()) ==> SlotExists(sessions, p.value)
    {
      if sending {
        return None;
      }
      var removed := RemoveLastAssistantReply();
      if !removed {
        return None;
      }
      p := BeginSend(c, now);
    }

    /** `maybeAutoGenerate()`: the watermarks move for each kind that
      starts; which kinds start is returned. */
    method MaybeAutoGenerate(c: Controls) returns (d: AutoDecision)
      modifies this`lastAutoMomentMsgCount, this`lastAutoDiaryMsgCount
      ensures d == AutoStep(old(Marks()), c.autoMoments, c.autoDiary, CurrentMessages())
      ensures Marks() == d.marks
    {
      d := AutoStep(Marks(), c.autoMoments, c.autoDiary, CurrentMessages());
      lastAutoMomentMsgCount := d.marks.moment;
      lastAutoDiaryMsgCount := d.marks.diary;
    }

    /** `maybeSummarizeMemory()` with `resp` the summary request's
      outcome. */
    method MaybeSummarizeMemory(c: Controls, resp: Response)
      modifies this`memoryEnabled, this`memoryEvery, this`memorySummary, this`memorySinceLastSummary
      ensures Memory() == SummarizeStep(old(Memory()), c, old(CurrentMessages()), resp)
    {
      var m := SummarizeStep(Memory(), c, CurrentMessages(), resp);
      memoryEnabled := m.enabled;
      memoryEvery := m.every;
      memorySummary := m.summary;
      memorySinceLastSummary := m.since;
    }

    /** The `for` loop of `sendToAI` that adds the later bubbles with
      `addMessage`, one per text, to the log of the current character. */
    method AppendBubbles(texts: seq<string>, now: int)
      modifies this`sessions
      ensures IsTruthyId(CurrentCharId()) && texts != []
              ==> sessions == AppendTo(old(sessions), CurrentCharId().value, Bubbles(texts, now))
      ensures !IsTruthyId(CurrentCharId()) || texts == [] ==> sessions == old(sessions)
    {
      var id := CurrentCharId();
      var i := 0;
      while i < |texts|
        invariant 0 <= i <= |texts|
        invariant sessions == (if IsTruthyId(id) && i > 0 then AppendTo(old(sessions), id.value, Bubbles(texts[..i], now))
                               else old(sessions))
      {
        ghost var before := sessions;
        var msg := Message(Assistant, texts[i], Some(now), false);
        AddMessage(Assistant, texts[i], now);
        if IsTruthyId(id) {
          assert sessions == AppendTo(before, id.value, [msg]);
          ghost var done := Bubbles(texts[..i], now);
          assert done + [msg] == Bubbles(texts[..i + 1], now);
          if i > 0 {
            AppendToTwice(old(sessions), id.value, done, [msg]);
          } else {
            assert [msg] == Bubbles(texts[..i + 1], now);
          }
        }
        i := i + 1;
      }
      assert texts[..i] == texts;
    }

    /** The second half of `sendToAI`, once `resp` is in: the placeholder is
      replaced, the later bubbles are appended one by one to the log of the
      character current now, and a counted reply raises the memory counter
      by one and runs the two follow-ups; the busy flag is cleared in every
      case. */
    method CompleteSend(p: Pending, resp: Response, c: Controls, now: int, summaryResp: Response)
      returns (started: AutoDecision)
      requires SlotExists(sessions, p)
      modifies this`sessions, this`sending
      modifies this`memoryEnabled, this`memoryEvery, this`memorySummary, this`memorySinceLastSummary
      modifies this`lastAutoMomentMsgCount, this`lastAutoDiaryMsgCount
      ensures !sending
      ensures sessions == CommitToLog(old(sessions), p, PlanCommit(resp), CurrentCharId(), now)
      ensures PlanCommit(resp).counted ==> started == AutoStep(old(Marks()), c.autoMoments, c.autoDiary, CurrentMessages())
      ensures PlanCommit(resp).counted ==> Marks() == started.marks
      ensures PlanCommit(resp).counted
              ==> Memory() == SummarizeStep(old(Memory()).(since := old(memorySinceLastSummary) + 1),
                                            c, CurrentMessages(), summaryResp)
      ensures !PlanCommit(resp).counted
              ==> Memory() == old(Memory()) && Marks() == old(Marks()) && !started.moment && !started.diary
    {
      ghost var id := CurrentCharId();
      var commit := PlanCommit(resp);
      CommitReply(p, commit, now);
      ghost var log := sessions;
      assert log == CommitToLog(old(sessions), p, commit, id, now);
      // The flag is cleared last in the source; no step below reads it.
      sending := false;
      started := AutoDecision(Marks(), false, false);
      if commit.counted {
        started := CountReply(c, summaryResp);
      }
      assert sessions == log && CurrentCharId() == id;
    }

    /** The log half of the commit: the slot, then the later bubbles. */
    method CommitReply(p: Pending, commit: Commit, now: int)
      requires SlotExists(sessions, p)
      modifies this`sessions
      ensures sessions == CommitToLog(old(sessions), p, commit, CurrentCharId(), now)
    {
      sessions := WriteSlot(sessions, p, FirstMessage(commit, now));
      AppendBubbles(commit.more, now);
    }

    /** What a counted reply does next: one more reply towards the memory
      summary, then `maybeAutoGenerate` and `maybeSummarizeMemory`, both
      over the log as it now is. */
    method CountReply(c: Controls, summaryResp: Response) returns (started: AutoDecision)
      modifies this`memoryEnabled, this`memoryEvery, this`memorySummary, this`memorySinceLastSummary
      modifies this`lastAutoMomentMsgCount, this`lastAutoDiaryMsgCount
      ensures started == AutoStep(old(Marks()), c.autoMoments, c.autoDiary, CurrentMessages())
      ensures Marks() == started.marks
      ensures Memory() == SummarizeStep(old(Memory()).(since := old(memorySinceLastSummary) + 1),
                                        c, CurrentMessages(), summaryResp)
    {
      memorySinceLastSummary := memorySinceLastSummary + 1;
      started := MaybeAutoGenerate(c);
      MaybeSummarizeMemory(c, summaryResp);
    }

    // --- the memory centre (main.js:3437-3451) ---------------------------

    /** The save button: the edited text, trimmed, restarts the count. */
    method SaveMemorySummary(boxValue: Option<string>)
      modifies this`memorySummary, this`memorySinceLastSummary
      ensures boxValue.None? ==> Memory() == old(Memory())
      ensures boxValue.Some? ==> Memory() == SaveSummary(old(Memory()), boxValue.value)
    {
      if boxValue.Some? {
        memorySummary := Trim(boxValue.value);
        memorySinceLastSummary := 0;
      }
    }

    /** The clear button, after the confirmation dialog. */
    method ClearMemorySummary(confirmed: bool)
      modifies this`memorySummary, this`memorySinceLastSummary
      ensures Memory() == ClearSummary(old(Memory()), confirmed)
    {
      if confirmed {
        memorySummary := [];
        memorySinceLastSummary := 0;
      }
    }

    // --- moments ---------------------------------------------------------

    /** `toggleMomentLikeAsUser(index)`; an index out of range changes
      nothing. */
    method ToggleMomentLikeAsUser(index: int)
      modifies this`moments
      ensures !(0 <= index < |old(moments)|) ==> moments == old(moments)
      ensures 0 <= index < |old(moments)|
              ==> moments == old(moments)[index := ToggleUserLike(old(moments)[index], CurrentCharId())]
    {
      if 0 <= index < |moments| {
        moments := moments[index := ToggleUserLike(moments[index], CurrentCharId())];
      }
    }

    /** `toggleMomentLikeAsChar(index)`: refused when no character is
      current. */
    method ToggleMomentLikeAsChar(index: int)
      modifies this`moments
      ensures !(0 <= index < |old(moments)|) || !IsTruthyId(CurrentCharId()) ==> moments == old(moments)
      ensures 0 <= index < |old(moments)| && IsTruthyId(CurrentCharId())
              ==> moments == old(moments)[index := ToggleCharLike(old(moments)[index], CurrentCharId().value)]
    {
      if !(0 <= index < |moments|) {
        return;
      }
      var cid := CurrentCharId();
      if !IsTruthyId(cid) {
        return;
      }
      moments := moments[index := ToggleCharLike(moments[index], cid.value)];
    }

    /** `addUserCommentToMoment(index)`: `text` is the prompt's answer. */
    method AddUserCommentToMoment(index: int, text: Option<string>, now: int)
      modifies this`moments
      ensures !(0 <= index < |old(moments)|) ==> moments == old(moments)
      ensures 0 <= index < |old(moments)|
              ==> moments == old(moments)[index := AddUserComment(old(moments)[index], CurrentCharId(),
                                                                  currentUserProfileId, text, now)]
    {
      if 0 <= index < |moments| {
        moments := moments[index := AddUserComment(moments[index], CurrentCharId(), currentUserProfileId, text, now)];
      }
    }

    /** `addCharCommentToMoment(index)` with `resp` the outcome of the
      comment request. Refused without a current, existing character; the
      moment is repaired before the API key is checked and before the
      request can fail. */
    method AddCharCommentToMoment(index: int, c: Controls, resp: Response, now: int)
      modifies this`moments
      ensures (!(0 <= index < |old(moments)|) || !IsTruthyId(CurrentCharId())
               || FindCharacter(chars, CurrentCharId()).None?)
              ==> moments == old(moments)
      ensures 0 <= index < |old(moments)| && IsTruthyId(CurrentCharId()) && FindCharacter(chars, CurrentCharId()).Some?
              ==> |moments| == |old(moments)|
                  && (forall j :: 0 <= j < |moments| && j != index ==> moments[j] == old(moments)[j])
                  && var e := EnsureStructure(old(moments)[index], CurrentCharId());
                     moments[index] == (if Trim(c.apiKey) != [] && resp.Http? && IsOk(resp.status) && resp.body.Parsed?
                                        then AddCharComment(e, CurrentCharId().value, ExtractAIContent(resp.body.data), now)
                                        else e)
    {
      if !(0 <= index < |moments|) {
        return;
      }
      var cid := CurrentCharId();
      if !IsTruthyId(cid) || FindCharacter(chars, cid).None? {
        return;
      }
      // The repaired moment is stored even when no comment follows.
      var e := EnsureStructure(moments[index], cid);
      var commented := e;
      if Trim(c.apiKey) != [] && resp.Http? && IsOk(resp.status) && resp.body.Parsed? {
        commented := AddCharComment(e, cid.value, ExtractAIContent(resp.body.data), now);
      }
      moments := moments[index := commented];
    }
  }
}
