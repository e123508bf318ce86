/** The memory summary state machine of `maybeSummarizeMemory`
    (main.js:1788-1856): a counter of committed replies, a threshold, and a
    summary that replaces the counter's run when the model produces one. */
module Memory {
  import opened Wrappers
  import opened Text
  import opened Conversation
  import opened Config
  import opened Reply

  /** `state.memoryEnabled`, `state.memoryEvery`, `state.memorySummary`,
      `state.memorySinceLastSummary` */
  datatype MemoryState = MemoryState(enabled: bool, every: int, summary: string, since: int)

  const DefaultEvery: int := 20
  const SummaryTailLength: nat := 40
  const SummaryMaxTokens: nat := 1024

  /** `state.memoryEvery || 20`, replaced by the form's value when that is a
      positive number. */
  function EffectiveEvery(stored: int, input: Option<int>): int {
    if input.Some? && input.value > 0 then input.value
    else if stored != 0 then stored
    else DefaultEvery
  }

  /** The `user` and `assistant` messages of a log, in order. */
  function ChatHistory(history: seq<Message>): (r: seq<Message>)
    ensures |r| <= |history|
    ensures forall i :: 0 <= i < |r| ==> IsChatRole(r[i].role)
    ensures r == [] <==> forall i :: 0 <= i < |history| ==> !IsChatRole(history[i].role)
  {
    if history == [] then []
    else
      var rest := ChatHistory(history[1..]);
      assert (forall i :: 0 <= i < |history[1..]| ==> !IsChatRole(history[1..][i].role))
             <==> (forall i :: 1 <= i < |history| ==> !IsChatRole(history[i].role)) by {
        forall i | 1 <= i < |history| ensures history[1..][i - 1] == history[i] { }
      }
      (if IsChatRole(history[0].role) then [history[0]] else []) + rest
  }

  /** `historyPairs.slice(-40)` */
  function Tail(h: seq<Message>): (t: seq<Message>)
    ensures |t| == if |h| <= SummaryTailLength then |h| else SummaryTailLength
    ensures t == h[|h| - |t|..]
  {
    if |h| <= SummaryTailLength then h else h[|h| - SummaryTailLength..]
  }

  /** One line of the transcript given to the summariser. */
  function TranscriptLine(m: Message): string {
    (if m.role == User then "用户" else "助手") + ": " + m.content
  }

  /** `.map(...).join("\n")` */
  function Transcript(ms: seq<Message>): string {
    if ms == [] then []
    else if |ms| == 1 then TranscriptLine(ms[0])
    else TranscriptLine(ms[0]) + "\n" + Transcript(ms[1..])
  }

  /** The summary request: always the global base URL and model, never a
      character's own. */
  datatype SummaryRequest = SummaryRequest(endpoint: string, model: string, transcript: string, maxTokens: nat)

  /** The request, or None when there is no API key or no chat message. */
  function SummaryPrompt(c: Controls, history: seq<Message>): (r: Option<SummaryRequest>)
    ensures r.Some? <==> Trim(c.apiKey) != [] && ChatHistory(history) != []
    ensures r.Some? ==> r.value.transcript == Transcript(Tail(ChatHistory(history)))
    ensures r.Some? ==> r.value.model == ResolveModel([], c) && r.value.maxTokens == SummaryMaxTokens
  {
    if Trim(c.apiKey) == [] then None
    else
      var pairs := ChatHistory(history);
      if pairs == [] then None
      else Some(SummaryRequest(CompletionsEndpoint(ResolveBaseUrl([], c)), ResolveModel([], c),
                               Transcript(Tail(pairs)), SummaryMaxTokens))
  }

  /** The new summary a response gives: its extracted text, trimmed, when
      the status is 2xx, the body parses and the text is not blank. */
  function SummaryText(resp: Response): (r: Option<string>)
    ensures r.Some? ==> r.value != [] && IsTrimmed(r.value)
    ensures r.Some? ==> resp.Http? && IsOk(resp.status) && resp.body.Parsed?
    ensures r.Some? ==> r.value == Trim(ExtractAIContent(resp.body.data))
  {
    if resp.Http? && IsOk(resp.status) && resp.body.Parsed? then
      var s := ExtractAIContent(resp.body.data);
      if s != [] && Trim(s) != [] then Some(Trim(s)) else None
    else None
  }

  /** `maybeSummarizeMemory` with the form `c`, the current log `history`
      and the response the summary request gets (unused when no request is
      sent). */
  function SummarizeStep(m: MemoryState, c: Controls, history: seq<Message>, resp: Response): (r: MemoryState)
    ensures !c.memoryChecked ==> r == m.(enabled := false, since := 0)
    ensures c.memoryChecked ==> r.enabled && r.every == EffectiveEvery(m.every, c.memoryEveryInput)
    ensures c.memoryChecked && m.since < r.every ==> r.summary == m.summary && r.since == m.since
    ensures c.memoryChecked && SummaryPrompt(c, history).None? ==> r.summary == m.summary && r.since == m.since
    ensures SummaryText(resp).None? ==> r.summary == m.summary
    ensures SummaryText(resp).None? && c.memoryChecked ==> r.since == m.since
    ensures c.memoryChecked && m.since >= r.every && SummaryPrompt(c, history).Some? && SummaryText(resp).Some?
            ==> r.summary == SummaryText(resp).value && r.since == 0
    ensures r.since == m.since || r.since == 0
    ensures r.summary == m.summary || Some(r.summary) == SummaryText(resp)
  {
    if !c.memoryChecked then m.(enabled := false, since := 0)
    else
      var every := EffectiveEvery(m.every, c.memoryEveryInput);
      var m1 := m.(enabled := true, every := every);
      if m.since < every then m1
      else if SummaryPrompt(c, history).None? then m1
      else match SummaryText(resp)
        case Some(s) => m1.(summary := s, since := 0)
        case None => m1
  }

  /** The threshold once applied is stable: applying it again with the same
      form gives the same value. */
  lemma EffectiveEveryStable(stored: int, input: Option<int>)
    ensures EffectiveEvery(EffectiveEvery(stored, input), input) == EffectiveEvery(stored, input)
    ensures EffectiveEvery(stored, input) != 0
  {
  }

  /** No lockout: a summary that fails leaves the counter at or above the
      threshold, so the very next counted reply asks again, and a working
      response then resets it. */
  lemma FailedSummaryIsRetried(m: MemoryState, c: Controls, history: seq<Message>, bad: Response, good: Response)
    requires c.memoryChecked && SummaryPrompt(c, history).Some?
    requires m.since >= EffectiveEvery(m.every, c.memoryEveryInput)
    requires SummaryText(bad).None? && SummaryText(good).Some?
    ensures var m1 := SummarizeStep(m, c, history, bad);
            var m2 := SummarizeStep(m1.(since := m1.since + 1), c, history, good);
            && m1.since == m.since && m1.summary == m.summary
            && m2.since == 0 && m2.summary == SummaryText(good).value
  {
    EffectiveEveryStable(m.every, c.memoryEveryInput);
  }

  /** The threshold counts committed replies: with `every` = 20 and 19
      replies counted, the 20th reply triggers the summary. */
  lemma TwentiethReplySummarizes(m: MemoryState, c: Controls, history: seq<Message>, resp: Response)
    requires c.memoryChecked && c.memoryEveryInput.None? && m.every == 20 && m.since == 19
    requires SummaryPrompt(c, history).Some? && SummaryText(resp).Some?
    ensures SummarizeStep(m, c, history, resp) == m.(enabled := true)
    ensures SummarizeStep(m.(since := m.since + 1), c, history, resp).since == 0
  {
  }

  /** `saveMemorySummaryBtn`: the edited text, trimmed, with the counter
      reset. */
  function SaveSummary(m: MemoryState, boxValue: string): (r: MemoryState)
    ensures r.summary == Trim(boxValue) && IsTrimmed(r.summary) && r.since == 0
    ensures r.enabled == m.enabled && r.every == m.every
  {
    m.(summary := Trim(boxValue), since := 0)
  }

  /** `clearMemorySummaryBtn`: nothing changes unless the user confirms. */
  function ClearSummary(m: MemoryState, confirmed: bool): (r: MemoryState)
    ensures !confirmed ==> r == m
    ensures confirmed ==> r.summary == [] && r.since == 0 && r.enabled == m.enabled && r.every == m.every
  {
    if confirmed then m.(summary := [], since := 0) else m
  }

  /** A saved or cleared summary restarts the count, so the next automatic
      summary needs a full run of `every` counted replies. */
  lemma ManualEditRestartsCount(m: MemoryState, boxValue: string, c: Controls, history: seq<Message>, resp: Response)
    requires c.memoryChecked && EffectiveEvery(m.every, c.memoryEveryInput) > 0
    ensures SummarizeStep(SaveSummary(m, boxValue), c, history, resp).summary == Trim(boxValue)
    ensures SummarizeStep(ClearSummary(m, true), c, history, resp).summary == []
  {
  }
}
