/** The per-character conversation log (main.js:22-23, 716-732): messages,
    the backward scans over them and the retry truncation rule. */
module Conversation {
  import opened Wrappers

  /** `role` of a logged message. Only `user` and `assistant` are written by
      the program; anything else can arrive through imported data. */
  datatype Role = User | Assistant | OtherRole(name: string)

  /** `{role, content, time, starred}`; a missing `time` is None, a missing
      `starred` is false. */
  datatype Message = Message(role: Role, content: string, time: Option<int>, starred: bool)

  /** `{messages, unread}` */
  datatype Session = Session(messages: seq<Message>, unread: int)

  const EmptySession: Session := Session([], 0)

  /** A character or profile id used in a condition: `null`, `undefined` and
      `""` are all falsy. */
  predicate IsTruthyId(id: Option<string>) {
    id.Some? && id.value != []
  }

  /** The backward `for` scans of `getLastUserMessage` and
      `removeLastAssistantReply`: the index of the last message with `role`. */
  function LastIndexOfRole(msgs: seq<Message>, role: Role): (r: Option<nat>)
    ensures r.Some? ==> r.value < |msgs| && msgs[r.value].role == role
    ensures r.Some? ==> forall j :: r.value < j < |msgs| ==> msgs[j].role != role
    ensures r.None? ==> forall j :: 0 <= j < |msgs| ==> msgs[j].role != role
  {
    if msgs == [] then None
    else if msgs[|msgs| - 1].role == role then Some(|msgs| - 1)
    else LastIndexOfRole(msgs[..|msgs| - 1], role)
  }

  /** What "retry" leaves of a log: everything before the last assistant
      message, or None when there is no assistant message. */
  function RetryPrefix(msgs: seq<Message>): (r: Option<seq<Message>>)
    ensures r.None? <==> forall j :: 0 <= j < |msgs| ==> msgs[j].role != Assistant
    ensures r.Some? ==> |r.value| < |msgs| && r.value == msgs[..|r.value|]
    ensures r.Some? ==> msgs[|r.value|].role == Assistant
    ensures r.Some? ==> forall j :: |r.value| < j < |msgs| ==> msgs[j].role != Assistant
  {
    match LastIndexOfRole(msgs, Assistant)
    case None => None
    case Some(i) => Some(msgs[..i])
  }

  predicate NoAssistant(msgs: seq<Message>) {
    forall j :: 0 <= j < |msgs| ==> msgs[j].role != Assistant
  }

  /** Retry drops the last assistant reply and whatever followed it, and
      keeps everything before it, earlier replies included. */
  lemma RetryDropsLastReply(before: seq<Message>, reply: Message, after: seq<Message>)
    requires reply.role == Assistant && NoAssistant(after)
    ensures RetryPrefix(before + [reply] + after) == Some(before)
  {
    var msgs := before + [reply] + after;
    var r := RetryPrefix(msgs);
    assert msgs[|before|] == reply;
    assert r.Some?;
    var n := |r.value|;
    assert n >= |before| by {
      assert forall j :: |before| < j < |msgs| ==> msgs[j] == after[j - |before| - 1];
    }
    assert n <= |before| by {
      assert forall j :: |before| < j < |msgs| ==> msgs[j].role != Assistant;
    }
    assert r.value == msgs[..|before|] == before;
  }

  /** Two examples: `[user, assistant, user]` retries to `[user]`, and
      `[user, user]` cannot be retried. */
  lemma RetryExamples(u1: Message, a: Message, u2: Message)
    requires u1.role == User && a.role == Assistant && u2.role == User
    ensures RetryPrefix([u1, a, u2]) == Some([u1])
    ensures RetryPrefix([u1, u2]).None?
  {
    RetryDropsLastReply([u1], a, [u2]);
    assert [u1] + [a] + [u2] == [u1, a, u2];
  }

  predicate IsChatRole(r: Role) {
    r == User || r == Assistant
  }

  /** The history part of a prompt: `user` and `assistant` messages, in log
      order, as (role, content) pairs. */
  function ChatTurns(history: seq<Message>): (turns: seq<(Role, string)>)
    ensures |turns| <= |history|
    ensures forall i :: 0 <= i < |turns| ==> IsChatRole(turns[i].0)
  {
    if history == [] then []
    else
      var m := history[0];
      (if IsChatRole(m.role) then [(m.role, m.content)] else []) + ChatTurns(history[1..])
  }

  /** Filtering the history keeps its order: the turns of a concatenation
      are the concatenation of the turns. */
  lemma {:induction false} ChatTurnsAppend(a: seq<Message>, b: seq<Message>)
    ensures ChatTurns(a + b) == ChatTurns(a) + ChatTurns(b)
  {
    if a == [] {
      assert a + b == b;
    } else {
      assert (a + b)[0] == a[0];
      assert (a + b)[1..] == a[1..] + b;
      ChatTurnsAppend(a[1..], b);
    }
  }

  /** A single message gives one turn when it is a user or assistant
      message and none otherwise; with `ChatTurnsAppend` this fixes the
      turns of every history. */
  lemma ChatTurnsOfOne(m: Message)
    ensures IsChatRole(m.role) ==> ChatTurns([m]) == [(m.role, m.content)]
    ensures !IsChatRole(m.role) ==> ChatTurns([m]) == []
  {
    assert [m][1..] == [];
  }

  /** A log written only by the program (user and assistant messages) is
      sent whole, one turn per message, in order. */
  lemma {:induction false} ChatTurnsOfChatLog(history: seq<Message>)
    requires forall i :: 0 <= i < |history| ==> IsChatRole(history[i].role)
    ensures |ChatTurns(history)| == |history|
    ensures forall i :: 0 <= i < |history| ==> ChatTurns(history)[i] == (history[i].role, history[i].content)
  {
    if history != [] {
      ChatTurnsOfChatLog(history[1..]);
    }
  }

  // --- in-place edits of the long-press menu (main.js:1241-1253) ----------

  /** `msgs.splice(i, 1)`: the message at `i` is removed and the others keep
      their order. */
  function RemoveAt(msgs: seq<Message>, i: nat): (r: seq<Message>)
    requires i < |msgs|
    ensures |r| == |msgs| - 1
    ensures forall j :: 0 <= j < i ==> r[j] == msgs[j]
    ensures forall j :: i <= j < |r| ==> r[j] == msgs[j + 1]
    ensures multiset(r) + multiset{msgs[i]} == multiset(msgs)
  {
    assert msgs == msgs[..i] + [msgs[i]] + msgs[i + 1..];
    msgs[..i] + msgs[i + 1..]
  }

  /** `msg.starred = !msg.starred` */
  function ToggleStarAt(msgs: seq<Message>, i: nat): (r: seq<Message>)
    requires i < |msgs|
    ensures |r| == |msgs|
    ensures r[i].starred == !msgs[i].starred
    ensures r[i].role == msgs[i].role && r[i].content == msgs[i].content && r[i].time == msgs[i].time
    ensures forall j :: 0 <= j < |msgs| && j != i ==> r[j] == msgs[j]
  {
    msgs[i := msgs[i].(starred := !msgs[i].starred)]
  }

  /** Starring twice gives the log back. */
  lemma StarTwiceRestores(msgs: seq<Message>, i: nat)
    requires i < |msgs|
    ensures ToggleStarAt(ToggleStarAt(msgs, i), i) == msgs
  {
  }
}
