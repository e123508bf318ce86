/** Moments ("朋友圈" posts) as stored objects: the structure repair of
    `ensureMomentStructure`, the two like toggles, comment appends and the
    moment made from a chat message (main.js:1254-1267, 2392-2523). */
module Moments {
  import opened Wrappers
  import opened Text
  import opened JsonModel
  import opened Conversation

  /** A stored moment: a JSON object, possibly from an older version or an
      imported file, so any field may be missing or have another type. */
  type Moment = map<string, Json>

  /** An id as stored in JSON: a string, or `null` when absent. */
  function IdJson(id: Option<string>): Json {
    match id
    case None => JNull
    case Some(s) => JString(s)
  }

  /** The fields every operation on a moment relies on, with their types. */
  predicate WellStructured(m: Moment) {
    && "authorType" in m
    && "authorId" in m
    && "comments" in m && m["comments"].JArray?
    && "likedByChars" in m && m["likedByChars"].JArray?
    && "likedByUser" in m && m["likedByUser"].JBool?
  }

  /** `ensureMomentStructure(item)`: a missing author becomes the current
      character; comments and character likes that are not arrays become
      empty arrays; a user like that is not a boolean becomes `false`. */
  function EnsureStructure(m: Moment, currentCharId: Option<string>): (r: Moment)
    ensures WellStructured(r)
    ensures r.Keys == m.Keys + {"authorType", "authorId", "comments", "likedByChars", "likedByUser"}
    ensures forall k :: k in m && k != "comments" && k != "likedByChars" && k != "likedByUser" ==> r[k] == m[k]
  {
    FieldNamesDistinct();
    // Each step touches its own field, so each test can read `m` itself.
    var m1 := if "authorType" in m then m else m["authorType" := JString("char")];
    var m2 := if "authorId" in m then m1 else m1["authorId" := IdJson(currentCharId)];
    var m3 := if "comments" in m && m["comments"].JArray? then m2 else m2["comments" := JArray([])];
    var m4 := if "likedByChars" in m && m["likedByChars"].JArray? then m3 else m3["likedByChars" := JArray([])];
    if "likedByUser" in m && m["likedByUser"].JBool? then m4 else m4["likedByUser" := JBool(false)]
  }

  lemma FieldNamesDistinct()
    ensures "authorType" != "authorId" && "authorType" != "comments" && "authorType" != "likedByChars"
    ensures "authorType" != "likedByUser" && "authorId" != "comments" && "authorId" != "likedByChars"
    ensures "authorId" != "likedByUser" && "comments" != "likedByChars" && "comments" != "likedByUser"
    ensures "likedByChars" != "likedByUser"
  {
    assert "authorType"[0] != "comments"[0] && "authorType"[0] != "likedByChars"[0];
    assert "authorId"[6] != "authorType"[6] && "likedByChars"[7] != "likedByUser"[7];
  }

  /** A repaired field of the right type is kept. */
  lemma RepairKeepsTypedFields(m: Moment, currentCharId: Option<string>)
    ensures var r := EnsureStructure(m, currentCharId);
            && ("comments" in m && m["comments"].JArray? ==> r["comments"] == m["comments"])
            && ("likedByChars" in m && m["likedByChars"].JArray? ==> r["likedByChars"] == m["likedByChars"])
            && ("likedByUser" in m && m["likedByUser"].JBool? ==> r["likedByUser"] == m["likedByUser"])
  {
    FieldNamesDistinct();
  }

  /** A missing author is the current character. */
  lemma RepairFillsAuthor(m: Moment, currentCharId: Option<string>)
    ensures var r := EnsureStructure(m, currentCharId);
            && ("authorType" !in m ==> r["authorType"] == JString("char"))
            && ("authorId" !in m ==> r["authorId"] == IdJson(currentCharId))
  {
    FieldNamesDistinct();
  }

  /** A repaired field of the wrong type, or missing, gets its default. */
  lemma RepairFillsDefaults(m: Moment, currentCharId: Option<string>)
    ensures var r := EnsureStructure(m, currentCharId);
            && (!("comments" in m && m["comments"].JArray?) ==> r["comments"] == JArray([]))
            && (!("likedByChars" in m && m["likedByChars"].JArray?) ==> r["likedByChars"] == JArray([]))
            && (!("likedByUser" in m && m["likedByUser"].JBool?) ==> r["likedByUser"] == JBool(false))
  {
    FieldNamesDistinct();
  }

  /** A moment that already has its structure is left exactly as it is. */
  lemma {:induction false} WellStructuredIsKept(m: Moment, currentCharId: Option<string>)
    requires WellStructured(m)
    ensures EnsureStructure(m, currentCharId) == m
  {
    var r := EnsureStructure(m, currentCharId);
    RepairKeepsTypedFields(m, currentCharId);
    assert r.Keys == m.Keys;
    assert forall k :: k in m ==> r[k] == m[k];
  }

  /** Repairing twice is repairing once, whichever character is current the
      second time. */
  lemma EnsureStructureIdempotent(m: Moment, c1: Option<string>, c2: Option<string>)
    ensures EnsureStructure(EnsureStructure(m, c1), c2) == EnsureStructure(m, c1)
  {
    WellStructuredIsKept(EnsureStructure(m, c1), c2);
  }

  // --- likes (main.js:2411-2435) -----------------------------------------

  /** `list.indexOf(x)`: the first position holding `x`. */
  function IndexOf(list: seq<Json>, x: Json): (r: Option<nat>)
    ensures r.None? <==> x !in list
    ensures r.Some? ==> r.value < |list| && list[r.value] == x
    ensures r.Some? ==> forall j :: 0 <= j < r.value ==> list[j] != x
  {
    if list == [] then None
    else if list[0] == x then Some(0)
    else
      match IndexOf(list[1..], x)
      case None => None
      case Some(i) => Some(i + 1)
  }

  /** `pos === -1 ? list.push(x) : list.splice(pos, 1)` */
  function ToggleMember(list: seq<Json>, x: Json): seq<Json> {
    match IndexOf(list, x)
    case None => list + [x]
    case Some(p) => list[..p] + list[p + 1..]
  }

  /** With `x` listed at most once, toggling flips whether `x` is listed and
      keeps every other entry. */
  lemma ToggleFlipsMembership(list: seq<Json>, x: Json)
    requires multiset(list)[x] <= 1
    ensures x in ToggleMember(list, x) <==> x !in list
    ensures forall y :: y != x ==> multiset(ToggleMember(list, x))[y] == multiset(list)[y]
  {
    match IndexOf(list, x)
    case None =>
    case Some(p) =>
      assert list == list[..p] + [x] + list[p + 1..];
      assert multiset(list) == multiset(list[..p]) + multiset{x} + multiset(list[p + 1..]);
      assert multiset(ToggleMember(list, x)) == multiset(list[..p]) + multiset(list[p + 1..]);
  }

  /** Toggling twice restores the entries; when `x` was not listed, the list
      comes back exactly. */
  lemma ToggleTwiceRestores(list: seq<Json>, x: Json)
    requires multiset(list)[x] <= 1
    ensures multiset(ToggleMember(ToggleMember(list, x), x)) == multiset(list)
    ensures x !in list ==> ToggleMember(ToggleMember(list, x), x) == list
  {
    var once := ToggleMember(list, x);
    ToggleFlipsMembership(list, x);
    if x !in list {
      assert once == list + [x];
      assert IndexOf(once, x) == Some(|list|);
      assert once[..|list|] == list;
    } else {
      assert x !in once;
      assert multiset(once)[x] == 0;
      ToggleFlipsMembership(once, x);
      var twice := ToggleMember(once, x);
      assert twice == once + [x];
      assert multiset(twice)[x] == 1;
      assert multiset(list)[x] == 1;
    }
  }

  /** `toggleMomentLikeAsUser`: repair, then flip `likedByUser`. */
  function ToggleUserLike(m: Moment, currentCharId: Option<string>): (r: Moment)
    ensures WellStructured(r)
    ensures r["likedByUser"] == JBool(!EnsureStructure(m, currentCharId)["likedByUser"].b)
    ensures forall k :: k in r && k != "likedByUser" ==>
              k in EnsureStructure(m, currentCharId) && r[k] == EnsureStructure(m, currentCharId)[k]
  {
    var e := EnsureStructure(m, currentCharId);
    e["likedByUser" := JBool(!e["likedByUser"].b)]
  }

  /** Liking twice as the user gives back the repaired moment. */
  lemma UserLikeTwice(m: Moment, c: Option<string>)
    ensures ToggleUserLike(ToggleUserLike(m, c), c) == EnsureStructure(m, c)
  {
    var e := EnsureStructure(m, c);
    var once := ToggleUserLike(m, c);
    WellStructuredIsKept(once, c);
    assert ToggleUserLike(once, c) == once["likedByUser" := JBool(!once["likedByUser"].b)];
    assert ToggleUserLike(once, c).Keys == e.Keys;
  }

  /** `toggleMomentLikeAsChar` once a current character `cid` is known:
      repair, then toggle `cid` in `likedByChars`. */
  function ToggleCharLike(m: Moment, cid: string): (r: Moment)
    ensures WellStructured(r)
    ensures var before := EnsureStructure(m, Some(cid))["likedByChars"].items;
            r["likedByChars"] == JArray(ToggleMember(before, JString(cid)))
    ensures forall k :: k in r && k != "likedByChars" ==>
              k in EnsureStructure(m, Some(cid)) && r[k] == EnsureStructure(m, Some(cid))[k]
  {
    var e := EnsureStructure(m, Some(cid));
    e["likedByChars" := JArray(ToggleMember(e["likedByChars"].items, JString(cid)))]
  }

  /** A character that has not liked a moment likes it after one toggle and
      no longer after a second, which gives back the repaired moment. */
  lemma CharLikeTwice(m: Moment, cid: string)
    requires JString(cid) !in EnsureStructure(m, Some(cid))["likedByChars"].items
    ensures JString(cid) in ToggleCharLike(m, cid)["likedByChars"].items
    ensures ToggleCharLike(ToggleCharLike(m, cid), cid) == EnsureStructure(m, Some(cid))
  {
    var e := EnsureStructure(m, Some(cid));
    var list := e["likedByChars"].items;
    var once := ToggleCharLike(m, cid);
    WellStructuredIsKept(once, Some(cid));
    ToggleTwiceRestores(list, JString(cid));
    var twice := ToggleCharLike(once, cid);
    assert twice["likedByChars"] == JArray(list);
    assert twice.Keys == e.Keys;
  }

  // --- comments (main.js:2437-2452, 2518-2523) ----------------------------

  const DefaultCharComment: string := "好有意思～"

  /** `{fromType, fromId, content, time}` */
  function Comment(fromType: string, fromId: Option<string>, content: string, time: int): Json {
    JObject(map["fromType" := JString(fromType), "fromId" := IdJson(fromId),
                "content" := JString(content), "time" := JNumber(time)])
  }

  /** `m.comments.push(c)` on a repaired moment. */
  function AppendComment(m: Moment, c: Json): (r: Moment)
    requires WellStructured(m)
    ensures WellStructured(r) && r.Keys == m.Keys
    ensures r["comments"].items == m["comments"].items + [c]
    ensures forall k :: k in m && k != "comments" ==> r[k] == m[k]
  {
    m["comments" := JArray(m["comments"].items + [c])]
  }

  /** `addUserCommentToMoment`: `text` is the prompt's answer (None when
      cancelled). The moment is repaired even when nothing is added. */
  function AddUserComment(m: Moment, currentCharId: Option<string>, fromId: Option<string>,
                          text: Option<string>, now: int): (r: Moment)
    ensures WellStructured(r)
    ensures text.None? || Trim(text.value) == [] ==> r == EnsureStructure(m, currentCharId)
    ensures text.Some? && Trim(text.value) != [] ==>
              r["comments"].items == EnsureStructure(m, currentCharId)["comments"].items
                                     + [Comment("user", fromId, Trim(text.value), now)]
  {
    var e := EnsureStructure(m, currentCharId);
    if text.None? || text.value == [] || Trim(text.value) == [] then e
    else AppendComment(e, Comment("user", fromId, Trim(text.value), now))
  }

  /** The text of a character's comment: the model's reply, or the default
      when the reply is empty, trimmed. */
  function CharCommentText(reply: string): (t: string)
    ensures reply == [] ==> t == DefaultCharComment
    ensures reply != [] ==> t == Trim(reply)
    ensures IsTrimmed(t)
  {
    TrimOfTrimmed(DefaultCharComment);
    Trim(if reply == [] then DefaultCharComment else reply)
  }

  /** The comment a character `cid` adds to a repaired moment. */
  function AddCharComment(e: Moment, cid: string, reply: string, now: int): (r: Moment)
    requires WellStructured(e)
    ensures WellStructured(r)
    ensures r["comments"].items == e["comments"].items + [Comment("char", Some(cid), CharCommentText(reply), now)]
  {
    AppendComment(e, Comment("char", Some(cid), CharCommentText(reply), now))
  }

  /** Earlier comments are never changed or reordered: adding a user comment
      extends the list. */
  lemma CommentsOnlyGrow(m: Moment, c: Option<string>, fromId: Option<string>, text: Option<string>, now: int)
    ensures var before := EnsureStructure(m, c)["comments"].items;
            var after := AddUserComment(m, c, fromId, text, now)["comments"].items;
            |before| <= |after| <= |before| + 1 && after[..|before|] == before
  {
  }

  // --- the "moment" message action (main.js:1254-1267) -------------------

  /** A moment made from a chat message: a reply is posted as the character
      `charId`, anything else as the current user profile (or `null`). */
  function MomentFromMessage(msg: Message, charId: string, currentUserProfileId: Option<string>,
                             now: nat, timeText: string): (r: Moment)
    ensures WellStructured(r) && "content" in r
    ensures r["content"] == JString(msg.content)
    ensures r["likedByUser"] == JBool(false) && r["likedByChars"] == JArray([]) && r["comments"] == JArray([])
    ensures msg.role == Assistant ==> r["authorType"] == JString("char") && r["authorId"] == JString(charId)
    ensures msg.role != Assistant ==> r["authorType"] == JString("user")
    ensures msg.role != Assistant && IsTruthyId(currentUserProfileId) ==> r["authorId"] == JString(currentUserProfileId.value)
    ensures msg.role != Assistant && !IsTruthyId(currentUserProfileId) ==> r["authorId"] == JNull
  {
    var byChar := msg.role == Assistant;
    map[
      "id" := JString("moment_" + NatToString(now)),
      "authorType" := JString(if byChar then "char" else "user"),
      "authorId" := (if byChar then JString(charId)
                     else if IsTruthyId(currentUserProfileId) then JString(currentUserProfileId.value)
                     else JNull),
      "content" := JString(msg.content),
      "time" := JString(timeText),
      "likedByUser" := JBool(false),
      "likedByChars" := JArray([]),
      "comments" := JArray([])
    ]
  }

  /** A moment made from a message needs no repair. */
  lemma MomentFromMessageNeedsNoRepair(msg: Message, charId: string, uid: Option<string>,
                                       now: nat, timeText: string, c: Option<string>)
    ensures EnsureStructure(MomentFromMessage(msg, charId, uid, now, timeText), c)
            == MomentFromMessage(msg, charId, uid, now, timeText)
  {
    WellStructuredIsKept(MomentFromMessage(msg, charId, uid, now, timeText), c);
  }
}
