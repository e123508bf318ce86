/** Small pure helpers of main.js: the avatar URL test, scene lookup, the
    `||` fallback chains that pick a model and a base URL, and the inputs
    the orchestration reads from the settings form. */
module Config {
  import opened Wrappers
  import opened Text

  /** Values read from the settings form when a request is prepared or
      completes. A missing element reads as an empty string or `false`;
      `memoryEveryInput` is `parseInt(value, 10)` when that is finite. */
  datatype Controls = Controls(
    apiKey: string,
    baseUrl: string,
    modelCustom: string,
    modelSelect: string,
    autoMoments: bool,
    autoDiary: bool,
    memoryChecked: bool,
    memoryEveryInput: Option<int>)

  // --- isAvatarUrl (main.js:79-84) --------------------------------------

  /** `/^https?:\/\//i.test(v) || v.startsWith("data:image")` */
  predicate LooksLikeImageUrl(v: string) {
    StartsWithIgnoringCase(v, "http://") || StartsWithIgnoringCase(v, "https://")
    || StartsWith(v, "data:image")
  }

  /** `isAvatarUrl(value)`: the trimmed value is an http(s) URL (scheme in
      any letter case) or an image data URL. */
  function IsAvatarUrl(value: string): (r: bool)
    ensures r ==> |Trim(value)| >= |"http://"|
    ensures r <==> LooksLikeImageUrl(Trim(value))
  {
    if value == [] then false
    else
      var v := Trim(value);
      if v == [] then false else LooksLikeImageUrl(v)
  }

  /** Whitespace around a value never changes the verdict. */
  lemma AvatarUrlIgnoresSurroundingSpace(value: string)
    ensures IsAvatarUrl(Trim(value)) == IsAvatarUrl(value)
  {
    TrimIdempotent(value);
  }

  // --- scenes (main.js:38-69) -------------------------------------------

  datatype Scene = Scene(key: string, name: string, prompt: string)

  const ScenePresets: seq<Scene> := [
    Scene("default", "默认模式", ""),
    Scene("study", "学习模式：一起学习/写作业",
      "当前场景是【学习模式】。请更专注、更条理清晰地解释知识、讲步骤、给示例，像一位耐心的学习伙伴，避免太多无关卖萌。"),
    Scene("love", "恋爱模式：甜甜恋人",
      "当前场景是【恋爱模式】。请在保证真诚和尊重的前提下，用更亲昵、温柔、关心对方感受的语气聊天，像一位贴心的恋人，但不要越界到现实中不合适的言行。"),
    Scene("work", "工作模式：同事/搭子",
      "当前场景是【工作模式】。请更偏向任务协作、效率和清晰结论，说话像靠谱的同事或合伙人，可以适度幽默但不要太撒娇。")
  ]

  /** `presets.find((s) => s.key === key)` */
  function FindScene(presets: seq<Scene>, key: string): (r: Option<Scene>)
    ensures r.Some? ==> r.value in presets && r.value.key == key
    ensures r.None? ==> forall i :: 0 <= i < |presets| ==> presets[i].key != key
    ensures r.Some? ==> exists i :: 0 <= i < |presets| && presets[i] == r.value
                          && forall j :: 0 <= j < i ==> presets[j].key != key
  {
    if presets == [] then None
    else if presets[0].key == key then Some(presets[0])
    else
      var r := FindScene(presets[1..], key);
      assert r.Some? ==> exists i :: 0 <= i < |presets| && presets[i] == r.value
                           && forall j :: 0 <= j < i ==> presets[j].key != key by {
        if r.Some? {
          var i :| 0 <= i < |presets[1..]| && presets[1..][i] == r.value
                   && forall j :: 0 <= j < i ==> presets[1..][j].key != key;
          assert presets[i + 1] == r.value;
        }
      }
      r
  }

  /** `getCurrentSceneConfig()`: the preset with the current key, or the
      first preset when no preset has that key. */
  function SceneConfig(key: string): (s: Scene)
    ensures s in ScenePresets
    ensures (exists i :: 0 <= i < |ScenePresets| && ScenePresets[i].key == key) ==> s.key == key
    ensures (forall i :: 0 <= i < |ScenePresets| ==> ScenePresets[i].key != key) ==> s == ScenePresets[0]
  {
    match FindScene(ScenePresets, key)
    case Some(s) => s
    case None => ScenePresets[0]
  }

  /** Every preset is found by its own key: the keys are distinct. */
  lemma SceneConfigFindsEveryPreset(i: nat)
    requires i < |ScenePresets|
    ensures SceneConfig(ScenePresets[i].key) == ScenePresets[i]
  {
    var s := ScenePresets;
    var r := FindScene(s, s[i].key);
    var k :| 0 <= k < |s| && s[k] == r.value && forall j :: 0 <= j < k ==> s[j].key != s[i].key;
    assert s[k].key == s[i].key;
    assert "default" != "study" && "default" != "love" && "default" != "work";
    assert "study" != "love" && "study" != "work" && "love" != "work";
  }

  /** An unknown key falls back to the default scene, which adds nothing to
      the prompt. */
  lemma UnknownSceneIsDefault(key: string)
    requires key !in {"default", "study", "love", "work"}
    ensures SceneConfig(key).key == "default" && SceneConfig(key).prompt == ""
  {
    assert forall i :: 0 <= i < |ScenePresets| ==> ScenePresets[i].key != key;
  }

  // --- `a || b || c || default` chains (main.js:1865-1876) ----------------

  /** The first non-empty candidate, or `fallback` when all are empty. */
  function FirstNonEmpty(candidates: seq<string>, fallback: string): (r: string)
    ensures (forall i :: 0 <= i < |candidates| ==> candidates[i] == []) ==> r == fallback
    ensures (exists i :: 0 <= i < |candidates| && candidates[i] != [])
            ==> exists i :: 0 <= i < |candidates| && r == candidates[i] && r != []
                  && forall j :: 0 <= j < i ==> candidates[j] == []
  {
    if candidates == [] then fallback
    else if candidates[0] != [] then candidates[0]
    else
      var r := FirstNonEmpty(candidates[1..], fallback);
      assert (exists i :: 0 <= i < |candidates| && candidates[i] != [])
             ==> exists i :: 0 <= i < |candidates| && r == candidates[i] && r != []
                   && forall j :: 0 <= j < i ==> candidates[j] == [] by {
        if exists i :: 0 <= i < |candidates| && candidates[i] != [] {
          var k :| 0 <= k < |candidates| && candidates[k] != [];
          assert candidates[1..][k - 1] == candidates[k];
          var i :| 0 <= i < |candidates[1..]| && r == candidates[1..][i] && r != []
                   && forall j :: 0 <= j < i ==> candidates[1..][j] == [];
          assert r == candidates[i + 1];
        }
      }
      r
  }

  const DefaultModel: string := "gpt-4.1-mini"
  const DefaultBaseUrl: string := "https://api.openai.com/v1"

  /** `(char.model && char.model.trim()) || $("modelCustom").value.trim()
      || $("modelSelect").value || "gpt-4.1-mini"`; `charModel` is "" when
      there is no current character or it has no model. */
  function ResolveModel(charModel: string, c: Controls): (model: string)
    ensures model != []
    ensures Trim(charModel) != [] ==> model == Trim(charModel)
    ensures Trim(charModel) == [] && Trim(c.modelCustom) != [] ==> model == Trim(c.modelCustom)
    ensures Trim(charModel) == [] && Trim(c.modelCustom) == [] && c.modelSelect != [] ==> model == c.modelSelect
    ensures Trim(charModel) == [] && Trim(c.modelCustom) == [] && c.modelSelect == [] ==> model == DefaultModel
  {
    var cands := [Trim(charModel), Trim(c.modelCustom), c.modelSelect];
    assert cands[0] == Trim(charModel) && cands[1] == Trim(c.modelCustom) && cands[2] == c.modelSelect;
    FirstNonEmpty(cands, DefaultModel)
  }

  /** A character's own model wins over every global setting. */
  lemma CharacterModelWins(charModel: string, c1: Controls, c2: Controls)
    requires Trim(charModel) != []
    ensures ResolveModel(charModel, c1) == ResolveModel(charModel, c2)
  {
  }

  /** `(char.baseUrl && char.baseUrl.trim()) || $("baseUrl").value.trim()
      || "https://api.openai.com/v1"` */
  function ResolveBaseUrl(charBaseUrl: string, c: Controls): (url: string)
    ensures url != []
    ensures Trim(charBaseUrl) != [] ==> url == Trim(charBaseUrl)
    ensures Trim(charBaseUrl) == [] && Trim(c.baseUrl) != [] ==> url == Trim(c.baseUrl)
    ensures Trim(charBaseUrl) == [] && Trim(c.baseUrl) == [] ==> url == DefaultBaseUrl
  {
    var cands := [Trim(charBaseUrl), Trim(c.baseUrl)];
    assert cands[0] == Trim(charBaseUrl) && cands[1] == Trim(c.baseUrl);
    FirstNonEmpty(cands, DefaultBaseUrl)
  }

  /** `${baseUrl.replace(/\/$/, "")}/chat/completions`: one trailing slash
      is dropped so that the path is not doubled. */
  function CompletionsEndpoint(baseUrl: string): string {
    var stem := if baseUrl != [] && baseUrl[|baseUrl| - 1] == '/' then baseUrl[..|baseUrl| - 1] else baseUrl;
    stem + "/chat/completions"
  }

  /** With or without its trailing slash, a base URL reaches the same
      endpoint. */
  lemma EndpointIgnoresTrailingSlash(baseUrl: string)
    requires baseUrl == [] || baseUrl[|baseUrl| - 1] != '/'
    ensures CompletionsEndpoint(baseUrl + "/") == CompletionsEndpoint(baseUrl)
  {
    assert (baseUrl + "/")[..|baseUrl|] == baseUrl;
  }
}
