/** The characters, user profiles and world books a conversation draws on,
    and the message list `sendToAI` sends (main.js:1858-1936): system
    messages first, in a fixed order, then the chat history. The wording of
    the system texts is not modelled; each block keeps the values it is
    built from. */
module Prompt {
  import opened Wrappers
  import opened Text
  import opened Conversation
  import opened Config

  /** A character (AI friend). Missing text fields read as "". */
  datatype Character = Character(
    id: string, name: string, persona: string, stylePrompt: string,
    model: string, baseUrl: string, worldBookId: string)

  datatype UserProfile = UserProfile(id: string, name: string, persona: string)

  datatype WorldBook = WorldBook(id: string, name: string, content: string)

  /** `xs.find((x) => x.id === id)`, as a position. */
  function IndexOfId<T>(xs: seq<T>, idOf: T -> string, id: string): (r: Option<nat>)
    ensures r.Some? ==> r.value < |xs| && idOf(xs[r.value]) == id
    ensures r.Some? ==> forall j :: 0 <= j < r.value ==> idOf(xs[j]) != id
    ensures r.None? ==> forall j :: 0 <= j < |xs| ==> idOf(xs[j]) != id
  {
    if xs == [] then None
    else if idOf(xs[0]) == id then Some(0)
    else
      match IndexOfId(xs[1..], idOf, id)
      case None => None
      case Some(i) => Some(i + 1)
  }

  /** `state.chars.find((c) => c.id === id) || null`; a `null` id finds
      nothing. */
  function FindCharacter(chars: seq<Character>, id: Option<string>): (r: Option<Character>)
    ensures r.Some? ==> r.value in chars && id == Some(r.value.id)
    ensures r.None? && id.Some? ==> forall c :: c in chars ==> c.id != id.value
  {
    if id.None? then None
    else match IndexOfId(chars, (c: Character) => c.id, id.value)
      case None => None
      case Some(i) => Some(chars[i])
  }

  function FindUserProfile(profiles: seq<UserProfile>, id: Option<string>): (r: Option<UserProfile>)
    ensures r.Some? ==> r.value in profiles && id == Some(r.value.id)
    ensures r.None? && id.Some? ==> forall p :: p in profiles ==> p.id != id.value
  {
    if id.None? then None
    else match IndexOfId(profiles, (p: UserProfile) => p.id, id.value)
      case None => None
      case Some(i) => Some(profiles[i])
  }

  /** The world book of a character: looked up only when its
      `worldBookId` is non-empty. */
  function FindWorldBook(books: seq<WorldBook>, ch: Option<Character>): (r: Option<WorldBook>)
    ensures r.Some? ==> r.value in books && ch.Some? && ch.value.worldBookId != [] && r.value.id == ch.value.worldBookId
  {
    if ch.None? || ch.value.worldBookId == [] then None
    else match IndexOfId(books, (b: WorldBook) => b.id, ch.value.worldBookId)
      case None => None
      case Some(i) => Some(books[i])
  }

  /** The parts of the system messages. */
  datatype SystemPart =
    | MemoryNote(summary: string)
    | PersonaBlock(roleName: string, persona: string, style: string,
                   scene: Option<Scene>, worldRules: Option<string>)
    | UserBlock(userName: Option<string>, userPersona: Option<string>)

  datatype PromptMessage = System(part: SystemPart) | Chat(role: Role, content: string)

  /** The place of a message kind in the list. */
  function Rank(m: PromptMessage): nat {
    match m
    case System(MemoryNote(_)) => 0
    case System(PersonaBlock(_, _, _, _, _)) => 1
    case System(UserBlock(_, _)) => 2
    case Chat(_, _) => 3
  }

  function ChatMessages(turns: seq<(Role, string)>): (r: seq<PromptMessage>)
    ensures |r| == |turns|
    ensures forall i :: 0 <= i < |r| ==> r[i] == Chat(turns[i].0, turns[i].1)
  {
    if turns == [] then [] else [Chat(turns[0].0, turns[0].1)] + ChatMessages(turns[1..])
  }

  function NonEmpty(s: string): Option<string> {
    if s == [] then None else Some(s)
  }

  /** The persona block is sent when the character has a persona or a style
      prompt, or the scene has a prompt. */
  predicate WantsPersona(ch: Option<Character>, scene: Scene) {
    (ch.Some? && (ch.value.persona != [] || ch.value.stylePrompt != [])) || scene.prompt != []
  }

  predicate WantsUserBlock(user: Option<UserProfile>) {
    user.Some? && (user.value.name != [] || user.value.persona != [])
  }

  function PersonaPart(ch: Option<Character>, book: Option<WorldBook>, scene: Scene): SystemPart {
    var name := if ch.Some? && ch.value.name != [] then ch.value.name else "AI 助手";
    PersonaBlock(
      name,
      if ch.Some? then ch.value.persona else [],
      if ch.Some? then ch.value.stylePrompt else [],
      if scene.key != "default" && scene.prompt != [] then Some(scene) else None,
      if book.Some? && book.value.content != [] then Some(book.value.content) else None)
  }

  /** System messages come before chat messages, and the system messages
      are in the order memory, persona, user profile, each at most once. */
  predicate Ordered(r: seq<PromptMessage>) {
    forall i, j :: 0 <= i < j < |r| ==> Rank(r[i]) < Rank(r[j]) || Rank(r[i]) == Rank(r[j]) == 3
  }

  /** The message kinds present in a list, by rank. */
  predicate HasRank(r: seq<PromptMessage>, k: nat) {
    exists i :: 0 <= i < |r| && Rank(r[i]) == k
  }

  lemma OrderedConcat(a: seq<PromptMessage>, b: seq<PromptMessage>)
    requires Ordered(a) && Ordered(b)
    requires forall i, j :: 0 <= i < |a| && 0 <= j < |b| ==> Rank(a[i]) < Rank(b[j])
    ensures Ordered(a + b)
  {
    forall i, j | 0 <= i < j < |a + b|
      ensures Rank((a + b)[i]) < Rank((a + b)[j]) || Rank((a + b)[i]) == Rank((a + b)[j]) == 3
    {
      if j < |a| {
      } else if i >= |a| {
        assert (a + b)[i] == b[i - |a|] && (a + b)[j] == b[j - |a|];
      } else {
        assert (a + b)[j] == b[j - |a|];
      }
    }
  }

  lemma HasRankConcat(a: seq<PromptMessage>, b: seq<PromptMessage>, k: nat)
    ensures HasRank(a + b, k) <==> HasRank(a, k) || HasRank(b, k)
  {
    if HasRank(a + b, k) {
      var i :| 0 <= i < |a + b| && Rank((a + b)[i]) == k;
      if i >= |a| { assert (a + b)[i] == b[i - |a|]; }
    }
    if HasRank(a, k) {
      var i :| 0 <= i < |a| && Rank(a[i]) == k;
      assert (a + b)[i] == a[i];
    }
    if HasRank(b, k) {
      var i :| 0 <= i < |b| && Rank(b[i]) == k;
      assert (a + b)[|a| + i] == b[i];
    }
  }

  /** The system messages, each only when it has something to say. */
  function SystemMessages(ch: Option<Character>, user: Option<UserProfile>, book: Option<WorldBook>,
                          scene: Scene, memorySummary: string): (sys: seq<PromptMessage>)
    ensures |sys| <= 3 && Ordered(sys)
    ensures forall i :: 0 <= i < |sys| ==> sys[i].System? && Rank(sys[i]) < 3
  {
    var memory := MemoryMessages(memorySummary);
    var persona := PersonaMessages(ch, book, scene);
    var profile := ProfileMessages(user);
    OrderedConcat(persona, profile);
    OrderedConcat(memory, persona + profile);
    memory + (persona + profile)
  }

  function MemoryMessages(memorySummary: string): (r: seq<PromptMessage>)
    ensures |r| <= 1 && forall i :: 0 <= i < |r| ==> Rank(r[i]) == 0 && r[i].System?
  {
    if memorySummary != [] && Trim(memorySummary) != [] then [System(MemoryNote(memorySummary))] else []
  }

  function PersonaMessages(ch: Option<Character>, book: Option<WorldBook>, scene: Scene): (r: seq<PromptMessage>)
    ensures |r| <= 1 && forall i :: 0 <= i < |r| ==> Rank(r[i]) == 1 && r[i].System?
  {
    if WantsPersona(ch, scene) then [System(PersonaPart(ch, book, scene))] else []
  }

  function ProfileMessages(user: Option<UserProfile>): (r: seq<PromptMessage>)
    ensures |r| <= 1 && forall i :: 0 <= i < |r| ==> Rank(r[i]) == 2 && r[i].System?
  {
    if WantsUserBlock(user)
    then [System(UserBlock(NonEmpty(user.value.name), NonEmpty(user.value.persona)))]
    else []
  }

  /** The message list of a request: the system messages, then the `user`
      and `assistant` messages of the history in order. */
  function BuildPrompt(ch: Option<Character>, user: Option<UserProfile>, book: Option<WorldBook>,
                       scene: Scene, memorySummary: string, history: seq<Message>): (r: seq<PromptMessage>)
    ensures |ChatTurns(history)| <= |r| <= |ChatTurns(history)| + 3
    ensures r[|r| - |ChatTurns(history)|..] == ChatMessages(ChatTurns(history))
    ensures forall i :: 0 <= i < |r| - |ChatTurns(history)| ==> r[i].System?
    ensures Ordered(r)
  {
    var sys := SystemMessages(ch, user, book, scene, memorySummary);
    var chats := ChatMessages(ChatTurns(history));
    OrderedConcat(sys, chats);
    assert (sys + chats)[|sys|..] == chats;
    sys + chats
  }

  lemma SystemMessagesPresence(ch: Option<Character>, user: Option<UserProfile>, book: Option<WorldBook>,
                                scene: Scene, memorySummary: string)
    ensures var sys := SystemMessages(ch, user, book, scene, memorySummary);
            && (HasRank(sys, 0) <==> Trim(memorySummary) != [])
            && (HasRank(sys, 1) <==> WantsPersona(ch, scene))
            && (HasRank(sys, 2) <==> WantsUserBlock(user))
            && (Trim(memorySummary) != [] ==> sys[0] == System(MemoryNote(memorySummary)))
  {
    var memory := MemoryMessages(memorySummary);
    var persona := PersonaMessages(ch, book, scene);
    var profile := ProfileMessages(user);
    HasRankConcat(persona, profile, 0);
    HasRankConcat(persona, profile, 1);
    HasRankConcat(persona, profile, 2);
    HasRankConcat(memory, persona + profile, 0);
    HasRankConcat(memory, persona + profile, 1);
    HasRankConcat(memory, persona + profile, 2);
    if memory != [] { assert Rank(memory[0]) == 0; }
    if persona != [] { assert Rank(persona[0]) == 1; }
    if profile != [] { assert Rank(profile[0]) == 2; }
  }

  /** Each system message is present exactly when it has something to say:
      the summary when it is not blank, the persona block when the
      character or the scene gives it content, the user block when the
      profile has a name or a persona. The summary always comes first. */
  lemma PromptBlocksPresentWhenNeeded(ch: Option<Character>, user: Option<UserProfile>, book: Option<WorldBook>,
                                      scene: Scene, memorySummary: string, history: seq<Message>)
    ensures var r := BuildPrompt(ch, user, book, scene, memorySummary, history);
            && (HasRank(r, 0) <==> Trim(memorySummary) != [])
            && (HasRank(r, 1) <==> WantsPersona(ch, scene))
            && (HasRank(r, 2) <==> WantsUserBlock(user))
            && (Trim(memorySummary) != [] ==> r[0] == System(MemoryNote(memorySummary)))
  {
    SystemMessagesPresence(ch, user, book, scene, memorySummary);
    ChatsKeepSystemRanks(SystemMessages(ch, user, book, scene, memorySummary), ChatMessages(ChatTurns(history)));
  }

  /** Appending chat messages adds no system message and keeps the first
      one in front. */
  lemma ChatsKeepSystemRanks(sys: seq<PromptMessage>, chats: seq<PromptMessage>)
    requires forall i :: 0 <= i < |chats| ==> chats[i].Chat?
    ensures HasRank(sys + chats, 0) == HasRank(sys, 0)
    ensures HasRank(sys + chats, 1) == HasRank(sys, 1)
    ensures HasRank(sys + chats, 2) == HasRank(sys, 2)
    ensures sys != [] ==> (sys + chats)[0] == sys[0]
  {
    HasRankConcat(sys, chats, 0);
    HasRankConcat(sys, chats, 1);
    HasRankConcat(sys, chats, 2);
  }

  /** The request body fields the model keeps: where it goes, which model,
      the messages and `max_tokens`. The temperature is not modelled. */
  datatype Request = Request(endpoint: string, model: string, messages: seq<PromptMessage>, maxTokens: nat)

  const ReplyMaxTokens: nat := 2048

  /** The request `sendToAI` sends for character `ch`, or None when no API
      key is filled in (then nothing is sent and nothing changes). */
  function PrepareRequest(ch: Option<Character>, user: Option<UserProfile>, book: Option<WorldBook>,
                          scene: Scene, memorySummary: string, history: seq<Message>,
                          c: Controls): (r: Option<Request>)
    ensures r.None? <==> Trim(c.apiKey) == []
    ensures r.Some? ==> r.value.maxTokens == ReplyMaxTokens
    ensures r.Some? && ch.Some? && Trim(ch.value.model) != [] ==> r.value.model == Trim(ch.value.model)
    ensures r.Some? && ch.Some? && Trim(ch.value.baseUrl) != []
            ==> r.value.endpoint == CompletionsEndpoint(Trim(ch.value.baseUrl))
    ensures r.Some? ==> r.value.model == ResolveModel(if ch.Some? then ch.value.model else [], c)
    ensures r.Some? ==> r.value.endpoint == CompletionsEndpoint(ResolveBaseUrl(if ch.Some? then ch.value.baseUrl else [], c))
    ensures r.Some? ==> r.value.messages == BuildPrompt(ch, user, book, scene, memorySummary, history)
  {
    if Trim(c.apiKey) == [] then None
    else
      var charModel := if ch.Some? then ch.value.model else [];
      var charBaseUrl := if ch.Some? then ch.value.baseUrl else [];
      Some(Request(CompletionsEndpoint(ResolveBaseUrl(charBaseUrl, c)), ResolveModel(charModel, c),
                   BuildPrompt(ch, user, book, scene, memorySummary, history), ReplyMaxTokens))
  }

  /** What `sendToAI` reads from the global state besides the log: the
      characters, profiles and world books, the current choices, and the
      memory summary. */
  datatype PromptSources = PromptSources(
    chars: seq<Character>, currentCharId: Option<string>,
    userProfiles: seq<UserProfile>, currentUserProfileId: Option<string>,
    worldBooks: seq<WorldBook>, sceneKey: string, memorySummary: string)

  /** `sendToAI` up to the `fetch`, over `history`: the current character
      (looked up by the stored id, with no fallback), the current profile,
      the character's world book and the current scene. */
  function RequestOf(src: PromptSources, c: Controls, history: seq<Message>): Option<Request> {
    var ch := FindCharacter(src.chars, src.currentCharId);
    PrepareRequest(ch, FindUserProfile(src.userProfiles, src.currentUserProfileId), FindWorldBook(src.worldBooks, ch),
                   SceneConfig(src.sceneKey), src.memorySummary, history, c)
  }
}
