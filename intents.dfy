/** The three keyword classifiers that decide whether the last user message
    ends the conversation or asks for a diary entry or a moment
    (main.js:1720-1754). */
module Intents {
  import opened Text

  const EndKeywords: seq<string> := [
    "结束", "收工", "下班", "睡觉", "晚安", "今天先这样", "今天就到这",
    "今天就到这里", "今天先到这", "先这样", "就到这里吧"
  ]

  const DiaryKeywords: seq<string> := ["写日记", "记日记", "来一篇日记", "生成日记"]

  const MomentKeywords: seq<string> := ["发朋友圈", "写朋友圈", "来一条朋友圈", "生成朋友圈"]

  /** Usable as a keyword: non-empty, without whitespace at either end. */
  predicate WellFormedKeywords(ks: seq<string>) {
    forall i :: 0 <= i < |ks| ==> ks[i] != [] && IsTrimmed(ks[i])
  }

  /** `keywords.some((k) => t.includes(k))` */
  function AnyContained(t: string, ks: seq<string>): (r: bool)
    ensures r <==> exists i :: 0 <= i < |ks| && Contains(t, ks[i])
  {
    if ks == [] then false
    else if Contains(t, ks[0]) then true
    else
      var r := AnyContained(t, ks[1..]);
      assert r <==> exists i :: 0 <= i < |ks| && Contains(t, ks[i]) by {
        if exists i :: 0 <= i < |ks| && Contains(t, ks[i]) {
          var i :| 0 <= i < |ks| && Contains(t, ks[i]);
          assert ks[1..][i - 1] == ks[i];
        }
        if r {
          var i :| 0 <= i < |ks[1..]| && Contains(t, ks[1..][i]);
          assert ks[i + 1] == ks[1..][i];
        }
      }
      r
  }

  /** The shared shape of the three detectors: an empty text, or one that
      trims to nothing, has no intent; otherwise the trimmed text is searched
      for each keyword. */
  function HasAnyKeyword(text: string, ks: seq<string>): (r: bool)
    requires WellFormedKeywords(ks)
    ensures r ==> Trim(text) != []
    ensures r <==> exists i :: 0 <= i < |ks| && Contains(text, ks[i])
  {
    var r := if text == [] then false
             else
               var t := Trim(text);
               if t == [] then false else AnyContained(t, ks);
    assert r <==> exists i :: 0 <= i < |ks| && Contains(text, ks[i]) by {
      forall i | 0 <= i < |ks|
        ensures Contains(Trim(text), ks[i]) <==> Contains(text, ks[i])
      {
        ContainsTrim(text, ks[i]);
      }
      if Trim(text) == [] {
        forall i | 0 <= i < |ks|
          ensures !Contains(Trim(text), ks[i])
        {
        }
      }
    }
    r
  }

  lemma KeywordListsWellFormed()
    ensures WellFormedKeywords(EndKeywords)
    ensures WellFormedKeywords(DiaryKeywords)
    ensures WellFormedKeywords(MomentKeywords)
  {
  }

  /** `hasEndConversationIntent` */
  predicate HasEndConversationIntent(text: string) {
    KeywordListsWellFormed();
    HasAnyKeyword(text, EndKeywords)
  }

  /** `hasDiaryIntent` */
  predicate HasDiaryIntent(text: string) {
    KeywordListsWellFormed();
    HasAnyKeyword(text, DiaryKeywords)
  }

  /** `hasMomentIntent` */
  predicate HasMomentIntent(text: string) {
    KeywordListsWellFormed();
    HasAnyKeyword(text, MomentKeywords)
  }

  /** Each detector holds exactly when the text contains one of its own
      keywords; whitespace around the text, and a blank text, change
      nothing. */
  lemma IntentsAreKeywordContainment(text: string)
    ensures HasEndConversationIntent(text) <==> exists i :: 0 <= i < |EndKeywords| && Contains(text, EndKeywords[i])
    ensures HasDiaryIntent(text) <==> exists i :: 0 <= i < |DiaryKeywords| && Contains(text, DiaryKeywords[i])
    ensures HasMomentIntent(text) <==> exists i :: 0 <= i < |MomentKeywords| && Contains(text, MomentKeywords[i])
    ensures AllSpace(text) ==> !HasEndConversationIntent(text) && !HasDiaryIntent(text) && !HasMomentIntent(text)
  {
    KeywordListsWellFormed();
  }

  /** Surrounding whitespace never changes a verdict. */
  lemma IntentsIgnoreSurroundingSpace(text: string)
    ensures HasEndConversationIntent(Trim(text)) == HasEndConversationIntent(text)
    ensures HasDiaryIntent(Trim(text)) == HasDiaryIntent(text)
    ensures HasMomentIntent(Trim(text)) == HasMomentIntent(text)
  {
    TrimIdempotent(text);
  }

  /** A keyword anywhere inside a longer message is found. */
  lemma KeywordInsideMessage(before: string, after: string)
    ensures HasEndConversationIntent(before + "晚安" + after)
    ensures HasDiaryIntent(before + "写日记" + after)
    ensures HasMomentIntent(before + "发朋友圈" + after)
  {
    KeywordListsWellFormed();
    var s1 := before + "晚安" + after;
    assert s1[|before|..][..|"晚安"|] == "晚安";
    assert Contains(s1, EndKeywords[4]);
    var s2 := before + "写日记" + after;
    assert s2[|before|..][..|"写日记"|] == "写日记";
    assert Contains(s2, DiaryKeywords[0]);
    var s3 := before + "发朋友圈" + after;
    assert s3[|before|..][..|"发朋友圈"|] == "发朋友圈";
    assert Contains(s3, MomentKeywords[0]);
  }
}
