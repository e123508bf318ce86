/** What a chat-completion response becomes: `extractAIContent`
    (main.js:1682-1702) and the commit step of `sendToAI`
    (main.js:1939-2040) that turns a response into the bubbles written to
    the log. The network itself is not modelled: a response is a value. */
module Reply {
  import opened Wrappers
  import opened Text
  import opened Segments

  /** One element of `data.choices`: `message.content` when `message` is
      truthy and its content a string, `text` when it is a string, and
      `finish_reason` when it is a string. A `null` element is NullChoice. */
  datatype Choice =
    | NullChoice
    | Choice(messageContent: Option<string>, text: Option<string>, finishReason: Option<string>)

  /** The parsed body. `Falsy` is `false`, `0` or `""`. For any other value,
      `choices` is None unless `data.choices` is an array, `content` and
      `result` are None unless they are strings, and `stringified` is
      `JSON.stringify(data)`. */
  datatype Data =
    | NullData
    | Falsy
    | Value(choices: Option<seq<Choice>>, content: Option<string>, result: Option<string>, stringified: string)

  /** `res.json()`: a body that does not parse throws with `reason`. */
  datatype Body = Unparsable(reason: string) | Parsed(data: Data)

  /** The outcome of `fetch`: a rejected call (with the error's message), or
      a status and a body. */
  datatype Response = NetworkFailure(reason: string) | Http(status: nat, body: Body)

  /** `res.ok` */
  predicate IsOk(status: nat) {
    200 <= status <= 299
  }

  // --- extractAIContent ------------------------------------------------

  /** The text a choice carries itself, in the order the program looks. */
  function ChoiceOwnText(ch: Choice): (r: Option<string>)
    requires ch.Choice?
    ensures ch.messageContent.Some? ==> r == ch.messageContent
    ensures ch.messageContent.None? ==> r == ch.text
  {
    if ch.messageContent.Some? then ch.messageContent else ch.text
  }

  /** The text of `data.choices[0]` when it exists and is not `null`. */
  function FirstChoiceText(d: Data): Option<string> {
    if d.Value? && d.choices.Some? && |d.choices.value| > 0 && d.choices.value[0].Choice?
    then ChoiceOwnText(d.choices.value[0])
    else None
  }

  /** `s.length > 400 ? s.slice(0, 400) + "..." : s` */
  function Abbreviate(s: string): (r: string)
    ensures |r| <= 403
    ensures |s| <= 400 ==> r == s
    ensures |s| > 400 ==> |r| == 403 && r[..400] == s[..400]
  {
    if |s| > 400 then s[..400] + "..." else s
  }

  /** `extractAIContent(data)`: the first choice's own text, then a string
      `content`, then a string `result`, then the abbreviated JSON text; the
      empty string for a falsy body. */
  function ExtractAIContent(d: Data): (r: string)
    ensures d.NullData? || d.Falsy? ==> r == []
    ensures FirstChoiceText(d).Some? ==> r == FirstChoiceText(d).value
    ensures d.Value? && FirstChoiceText(d).None? && d.content.Some? ==> r == d.content.value
    ensures d.Value? && FirstChoiceText(d).None? && d.content.None? && d.result.Some? ==> r == d.result.value
    ensures d.Value? && FirstChoiceText(d).None? && d.content.None? && d.result.None?
            ==> r == Abbreviate(d.stringified)
  {
    match d
    case NullData => []
    case Falsy => []
    case Value(_, content, result, stringified) =>
      match FirstChoiceText(d)
      case Some(t) => t
      case None =>
        if content.Some? then content.value
        else if result.Some? then result.value
        else Abbreviate(stringified)
  }

  /** Only the first choice is read: later choices never change the
      extracted text. */
  lemma ExtractReadsFirstChoiceOnly(first: Choice, rest1: seq<Choice>, rest2: seq<Choice>,
                                    content: Option<string>, result: Option<string>, s: string)
    ensures ExtractAIContent(Value(Some([first] + rest1), content, result, s))
         == ExtractAIContent(Value(Some([first] + rest2), content, result, s))
  {
    assert ([first] + rest1)[0] == first == ([first] + rest2)[0];
  }

  // --- the commit step of sendToAI ---------------------------------------

  const Placeholder: string := "正在思考…"
  const ErrorPrefix: string := "出错了："
  const EmptyChoicesText: string :=
    "接口返回的 choices 为空，后端没有生成任何回复。\n"
    + "请到你使用的平台（例如 linkapi.ai）检查：\n"
    + "1）API Key 是否有该模型的权限/余额；\n"
    + "2）是否需要在平台控制台里先创建应用或绑定模型；\n"
    + "3）参考平台提供的 curl/Postman 示例，看是否有额外必填参数。"
  const NoTextFallback: string := "(AI 没有返回文本内容)"
  const NoContentFallback: string :=
    "(AI 没有返回文本内容，请检查浏览器控制台中的原始返回，以及你所用平台的接口文档)"
  const TruncationNote: string :=
    "\n\n(提示：本次回复可能因为长度上限被截断，如果经常这样，可以在模型平台上提高单次输出上限，或让问题更具体一些。)"
  /** V8's messages for the `TypeError`s thrown by reading a field of
      `null`; other engines word them differently. */
  const NullDataError: string := "Cannot read properties of null (reading 'choices')"
  const NullChoiceError: string := "Cannot read properties of null (reading 'message')"

  /** How the placeholder and the log change once the response is in. */
  datatype Commit = Commit(
    first: string,       // replaces the placeholder at its index
    stamped: bool,       // the replacement carries a `time`
    more: seq<string>,   // appended afterwards with `addMessage`, in order
    counted: bool)       // the memory counter goes up and the follow-ups run

  function ErrorCommit(reason: string): Commit {
    Commit(ErrorPrefix + reason, false, [], false)
  }

  /** `choices.map(...)`: the text of each choice, "" when it has none. */
  function ChoiceTexts(cs: seq<Choice>): (texts: seq<string>)
    requires forall i :: 0 <= i < |cs| ==> cs[i].Choice?
    ensures |texts| == |cs|
  {
    if cs == [] then []
    else
      var own := ChoiceOwnText(cs[0]);
      [if own.Some? then own.value else ""] + ChoiceTexts(cs[1..])
  }

  /** Some choice stopped at the length limit. */
  predicate Truncated(cs: seq<Choice>) {
    exists i :: 0 <= i < |cs| && cs[i].Choice?
                && (cs[i].finishReason == Some("length") || cs[i].finishReason == Some("max_tokens"))
  }

  /** `contents.flatMap((c) => splitIntoSegments(c))` */
  function FlatSegments(texts: seq<string>): (segs: seq<string>)
    ensures forall q :: q in segs ==> IsParagraph(q)
  {
    if texts == [] then []
    else
      SegmentsHaveNoBlankLine(texts[0]);
      SplitIntoSegments(texts[0]) + FlatSegments(texts[1..])
  }

  /** `.filter((s) => s && s.trim())` */
  function KeepNonBlank(xs: seq<string>): (r: seq<string>)
    ensures forall q :: q in r ==> q in xs && Trim(q) != []
  {
    if xs == [] then []
    else (if xs[0] != [] && Trim(xs[0]) != [] then [xs[0]] else []) + KeepNonBlank(xs[1..])
  }

  /** The loop over `segments[1..]`: each is trimmed and appended when
      something is left. */
  function TrimmedNonBlank(xs: seq<string>): (r: seq<string>)
    ensures forall q :: q in r ==> q != [] && IsTrimmed(q)
  {
    if xs == [] then []
    else
      var c := Trim(xs[0]);
      (if c != [] then [c] else []) + TrimmedNonBlank(xs[1..])
  }

  /** The bubbles of a `choices` array before the truncation note: the first
      segment (or a fallback when there is none), then the later segments,
      each trimmed and kept when something is left. */
  function ReplyBubbles(cs: seq<Choice>): (b: seq<string>)
    requires forall i :: 0 <= i < |cs| ==> cs[i].Choice?
    ensures b != [] && forall q :: q in b ==> q != []
  {
    var segs := KeepNonBlank(FlatSegments(ChoiceTexts(cs)));
    var head := Trim(if segs == [] then [] else segs[0]);
    var first := if head == [] then NoTextFallback else head;
    [first] + TrimmedNonBlank(if segs == [] then [] else segs[1..])
  }

  /** The branch for a `choices` array with at least one element and no
      `null` element: the note goes on the first bubble only. */
  function ArrayCommit(cs: seq<Choice>): Commit
    requires cs != [] && forall i :: 0 <= i < |cs| ==> cs[i].Choice?
  {
    var b := ReplyBubbles(cs);
    Commit(b[0] + (if Truncated(cs) then TruncationNote else []), true, b[1..], true)
  }

  /** The branch for any other body: the extracted text, or a fallback. */
  function OtherCommit(d: Data): Commit
    requires !d.NullData?
  {
    var extracted := ExtractAIContent(d);
    var content := if extracted == [] || Trim(extracted) == [] then NoContentFallback else extracted;
    var segs := SplitIntoSegments(content);
    if segs == [] then Commit(content, true, [], false)
    else Commit(segs[0], true, segs[1..], true)
  }

  /** The response reached the point where the reply is counted: a 2xx
      status, a body that parses and is not `null`, and, when `choices` is an
      array, a non-empty one without `null` elements. */
  predicate Answered(resp: Response) {
    && resp.Http? && IsOk(resp.status) && resp.body.Parsed? && !resp.body.data.NullData?
    && var d := resp.body.data;
       !(d.Value? && d.choices.Some?
         && (d.choices.value == [] || exists i :: 0 <= i < |d.choices.value| && d.choices.value[i].NullChoice?))
  }

  /** The commit step of `sendToAI` for a response. */
  function PlanCommit(resp: Response): (r: Commit)
    ensures r.first != []
    ensures r.counted <==> Answered(resp)
    ensures r.stamped == r.counted
    ensures !r.counted ==> r.more == []
    ensures forall q :: q in r.more ==> q != [] && IsTrimmed(q)
    ensures resp.NetworkFailure? ==> r == ErrorCommit(resp.reason)
    ensures resp.Http? && !IsOk(resp.status) ==> r == ErrorCommit("HTTP " + NatToString(resp.status))
    ensures resp.Http? && IsOk(resp.status) && resp.body.Unparsable? ==> r == ErrorCommit(resp.body.reason)
  {
    match resp
    case NetworkFailure(reason) => ErrorCommit(reason)
    case Http(status, body) =>
      if !IsOk(status) then ErrorCommit("HTTP " + NatToString(status))
      else match body
        case Unparsable(reason) => ErrorCommit(reason)
        case Parsed(d) =>
          if d.NullData? then ErrorCommit(NullDataError)
          else if d.Value? && d.choices.Some? then
            var cs := d.choices.value;
            if cs == [] then Commit(EmptyChoicesText, false, [], false)
            else if exists i :: 0 <= i < |cs| && cs[i].NullChoice? then ErrorCommit(NullChoiceError)
            else ArrayCommit(cs)
          else
            OtherContentIsNotBlank(d);
            OtherCommit(d)
  }

  /** The `!segments.length` branch of the non-array path cannot be taken:
      the text there is never blank, so it always splits into at least one
      bubble. */
  lemma OtherContentIsNotBlank(d: Data)
    requires !d.NullData?
    ensures SplitIntoSegments(
              var e := ExtractAIContent(d);
              if e == [] || Trim(e) == [] then NoContentFallback else e) != []
  {
    var e := ExtractAIContent(d);
    var content := if e == [] || Trim(e) == [] then NoContentFallback else e;
    if e == [] || Trim(e) == [] {
      assert !IsSpace(content[0]);
    } else {
      assert !AllSpace(e);
    }
    SegmentsEmptyIffBlank(content);
  }

  // --- what the bubbles hold ----------------------------------------------

  lemma {:induction false} KeepNonBlankOfSegments(xs: seq<string>)
    requires forall q :: q in xs ==> q != [] && IsTrimmed(q)
    ensures KeepNonBlank(xs) == xs
  {
    if xs != [] {
      TrimOfTrimmed(xs[0]);
      assert forall q :: q in xs[1..] ==> q in xs;
      KeepNonBlankOfSegments(xs[1..]);
    }
  }

  lemma {:induction false} TrimmedNonBlankOfSegments(xs: seq<string>)
    requires forall q :: q in xs ==> q != [] && IsTrimmed(q)
    ensures TrimmedNonBlank(xs) == xs
  {
    if xs != [] {
      TrimOfTrimmed(xs[0]);
      assert forall q :: q in xs[1..] ==> q in xs;
      TrimmedNonBlankOfSegments(xs[1..]);
    }
  }

  lemma {:induction false} ConcatAppend(a: seq<string>, b: seq<string>)
    ensures Concat(a + b) == Concat(a) + Concat(b)
  {
    if a == [] {
      assert a + b == b;
    } else {
      assert (a + b)[1..] == a[1..] + b;
      ConcatAppend(a[1..], b);
    }
  }

  /** Splitting every text loses nothing but whitespace. */
  lemma {:induction false} FlatSegmentsKeepText(texts: seq<string>)
    ensures NonSpace(Concat(FlatSegments(texts))) == NonSpace(Concat(texts))
  {
    if texts != [] {
      var first := SplitIntoSegments(texts[0]);
      FlatSegmentsKeepText(texts[1..]);
      ConcatAppend(first, FlatSegments(texts[1..]));
      NonSpaceAppend(Concat(first), Concat(FlatSegments(texts[1..])));
      NonSpaceAppend(texts[0], Concat(texts[1..]));
      SegmentsKeepText(texts[0]);
    }
  }

  /** When the choices hold any text, the bubbles are exactly the blank-line
      segments of the choices, in choice order, and together they hold all
      of the text but whitespace; when they hold none, the one bubble is the
      fallback. */
  lemma ReplyBubblesAreSegments(cs: seq<Choice>)
    requires forall i :: 0 <= i < |cs| ==> cs[i].Choice?
    ensures !AllSpace(Concat(ChoiceTexts(cs))) ==>
              ReplyBubbles(cs) == FlatSegments(ChoiceTexts(cs))
              && NonSpace(Concat(ReplyBubbles(cs))) == NonSpace(Concat(ChoiceTexts(cs)))
    ensures AllSpace(Concat(ChoiceTexts(cs))) ==> ReplyBubbles(cs) == [NoTextFallback]
  {
    var texts := ChoiceTexts(cs);
    var flat := FlatSegments(texts);
    KeepNonBlankOfSegments(flat);
    FlatSegmentsKeepText(texts);
    NonSpaceEmpty(Concat(texts));
    NonSpaceEmpty(Concat(flat));
    if flat != [] {
      TrimOfTrimmed(flat[0]);
      TrimmedNonBlankOfSegments(flat[1..]);
      assert ReplyBubbles(cs) == [flat[0]] + flat[1..] == flat;
    } else {
      assert Concat(flat) == [];
    }
  }

  /** A reply written as paragraphs separated by blank lines, in one choice,
      comes back as one bubble per paragraph in order; the truncation note
      goes on the first bubble only. */
  lemma ReplyOfParagraphs(ps: seq<string>, finish: Option<string>, content: Option<string>,
                          result: Option<string>, raw: string, status: nat)
    requires ps != [] && forall p :: p in ps ==> IsParagraph(p)
    requires IsOk(status)
    ensures var cs := [Choice(Some(Join(ps)), None, finish)];
            var r := PlanCommit(Http(status, Parsed(Value(Some(cs), content, result, raw))));
            && r.counted
            && r.more == ps[1..]
            && (Truncated(cs) ==> r.first == ps[0] + TruncationNote)
            && (!Truncated(cs) ==> r.first == ps[0])
  {
    var cs := [Choice(Some(Join(ps)), None, finish)];
    SplitJoinRoundTrip(ps);
    assert ChoiceTexts(cs) == [Join(ps)];
    assert FlatSegments([Join(ps)]) == ps by {
      assert FlatSegments([Join(ps)][1..]) == [];
    }
    KeepNonBlankOfSegments(ps);
    TrimOfTrimmed(ps[0]);
    TrimmedNonBlankOfSegments(ps[1..]);
    assert ReplyBubbles(cs) == ps;
    assert !(exists i :: 0 <= i < |cs| && cs[i].NullChoice?);
  }

  /** The parsed 2xx bodies with a `choices` array or `null` data: `null`
      data and a `null` choice are errors, and an answered array puts its
      first bubble (with the note when the reply was cut off) in the
      placeholder and the other bubbles after it, in order. */
  lemma PlanCommitOfChoices(status: nat, d: Data)
    requires IsOk(status)
    ensures d.NullData? ==> PlanCommit(Http(status, Parsed(d))) == ErrorCommit(NullDataError)
    ensures d.Value? && d.choices.Some? && d.choices.value != []
            && (exists i :: 0 <= i < |d.choices.value| && d.choices.value[i].NullChoice?)
            ==> PlanCommit(Http(status, Parsed(d))) == ErrorCommit(NullChoiceError)
    ensures Answered(Http(status, Parsed(d))) && d.Value? && d.choices.Some?
            ==> var cs := d.choices.value;
                var r := PlanCommit(Http(status, Parsed(d)));
                && r.first == ReplyBubbles(cs)[0] + (if Truncated(cs) then TruncationNote else [])
                && r.more == ReplyBubbles(cs)[1..]
  {
  }

  /** An empty `choices` array gives the diagnostic bubble and is not
      counted. */
  lemma EmptyChoicesGiveDiagnostic(status: nat, content: Option<string>, result: Option<string>, raw: string)
    requires IsOk(status)
    ensures PlanCommit(Http(status, Parsed(Value(Some([]), content, result, raw))))
            == Commit(EmptyChoicesText, false, [], false)
  {
  }

  /** A body without a `choices` array is always counted, even when it holds
      no text; a text puts its first segment in the placeholder and appends
      the others in order. */
  lemma OtherBodiesAreCounted(d: Data, status: nat)
    requires IsOk(status) && !d.NullData? && !(d.Value? && d.choices.Some?)
    ensures PlanCommit(Http(status, Parsed(d))).counted
    ensures AllSpace(ExtractAIContent(d)) ==> PlanCommit(Http(status, Parsed(d))).first == NoContentFallback
    ensures !AllSpace(ExtractAIContent(d))
            ==> var segs := SplitIntoSegments(ExtractAIContent(d));
                var r := PlanCommit(Http(status, Parsed(d)));
                && segs != [] && r.first == segs[0] && r.more == segs[1..]
  {
    var e := ExtractAIContent(d);
    OtherContentIsNotBlank(d);
    if AllSpace(e) {
      assert e == [] || Trim(e) == [];
      FallbackIsOneBubble();
    } else if e == [] || Trim(e) == [] {
      assert AllSpace(e);
    }
  }

  /** The no-content fallback is a single bubble. */
  lemma FallbackIsOneBubble()
    ensures SplitIntoSegments(NoContentFallback) == [NoContentFallback]
  {
    TrimOfTrimmed(NoContentFallback);
    assert NoContentFallback == Join([NoContentFallback]);
    assert IsParagraph(NoContentFallback) by {
      assert !HasBlankLine(NoContentFallback) by {
        assert forall i :: 0 <= i < |NoContentFallback| ==> NoContentFallback[i] != '\n';
      }
    }
    SplitJoinRoundTrip([NoContentFallback]);
  }
}
