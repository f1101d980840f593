/**
 * The AI settings store and the URL and reply-text rules of the AI client:
 * which endpoint a configuration talks to, where its model list lives, when
 * the settings count as usable, and how a reply is cleaned of Markdown code
 * fences before it is parsed as JSON.
 */
module AIClient {
  import opened Wrappers
  import Js

  datatype Provider = OpenAI | Custom | Google

  /** The settings; `baseUrl` is optional in the type and may be absent. */
  datatype AIConfig = AIConfig(provider: Provider, apiKey: string, baseUrl: Option<string>, model: string)

  /** A `Partial<AIConfig>`: `None` is a key that is absent. `baseUrl` may also be present and `undefined`. */
  datatype ConfigPatch = ConfigPatch(
    provider: Option<Provider>,
    apiKey: Option<string>,
    baseUrl: Option<Option<string>>,
    model: Option<string>)

  const OpenAIBase: string := "https://api.openai.com/v1"
  const ChatPath: string := "/chat/completions"
  const ModelsPath: string := "/models"
  const GoogleModelsPrefix: string := "https://generativelanguage.googleapis.com/v1beta/models/"
  const GoogleMethod: string := ":generateContent?key="

  /** The store's initial state. */
  const Defaults: AIConfig := AIConfig(OpenAI, "", Some(""), "gpt-4o")

  /** `{ ...state, ...config }`: every key present in the patch replaces the stored one. */
  function Merged(c: AIConfig, p: ConfigPatch): (r: AIConfig)
    ensures r.provider == p.provider.GetOr(c.provider)
    ensures r.apiKey == p.apiKey.GetOr(c.apiKey)
    ensures r.baseUrl == p.baseUrl.GetOr(c.baseUrl)
    ensures r.model == p.model.GetOr(c.model)
  {
    AIConfig(
      if p.provider.Some? then p.provider.value else c.provider,
      if p.apiKey.Some? then p.apiKey.value else c.apiKey,
      if p.baseUrl.Some? then p.baseUrl.value else c.baseUrl,
      if p.model.Some? then p.model.value else c.model)
  }

  const EmptyPatch: ConfigPatch := ConfigPatch(None, None, None, None)

  /** Applying a patch twice is applying it once, and the empty patch changes nothing. */
  lemma MergeIdempotent(c: AIConfig, p: ConfigPatch)
    ensures Merged(Merged(c, p), p) == Merged(c, p)
    ensures Merged(c, EmptyPatch) == c
  {
  }

  /** Applying one patch after another is applying the second over the first. */
  lemma MergeComposes(c: AIConfig, p: ConfigPatch, q: ConfigPatch)
    ensures Merged(Merged(c, p), q) == Merged(c, ConfigPatch(
      if q.provider.Some? then q.provider else p.provider,
      if q.apiKey.Some? then q.apiKey else p.apiKey,
      if q.baseUrl.Some? then q.baseUrl else p.baseUrl,
      if q.model.Some? then q.model else p.model))
  {
  }

  /** `!!apiKey && apiKey.length > 5`, the length counted in UTF-16 code units. */
  predicate Configured(c: AIConfig) {
    c.apiKey != "" && Js.Length(c.apiKey) > 5
  }

  /** The emptiness test adds nothing: the settings are usable exactly when the key is longer than five code units. */
  lemma ConfiguredIffLongKey(c: AIConfig)
    ensures Configured(c) <==> Js.Length(c.apiKey) > 5
    ensures !Configured(Defaults)
  {
    if c.apiKey == "" {
      assert Js.Utf16(c.apiKey) == [];
    }
  }

  /** The custom base URL, when the provider is custom and the URL is neither absent nor empty. */
  predicate HasCustomBase(c: AIConfig) {
    c.provider == Custom && c.baseUrl.Some? && c.baseUrl.value != ""
  }

  /** The base both the chat endpoint and the model list hang off, one trailing `/` removed. */
  function ApiBase(c: AIConfig): (r: string)
    ensures HasCustomBase(c) ==> r + "/" == c.baseUrl.value || (r == c.baseUrl.value && r[|r| - 1] != '/')
    ensures !HasCustomBase(c) ==> r == OpenAIBase
  {
    Js.StripTrailingSlash(if HasCustomBase(c) then c.baseUrl.value else OpenAIBase)
  }

  /** `getEndpoint`. */
  function Endpoint(c: AIConfig): (r: string)
    ensures HasCustomBase(c) ==> r == ApiBase(c) + ChatPath
    ensures !HasCustomBase(c) && c.provider == Google ==> r == GoogleModelsPrefix + c.model + GoogleMethod + c.apiKey
    ensures !HasCustomBase(c) && c.provider != Google ==> r == OpenAIBase + ChatPath
  {
    if HasCustomBase(c) then Js.StripTrailingSlash(c.baseUrl.value) + ChatPath
    else if c.provider == Google then GoogleModelsPrefix + c.model + GoogleMethod + c.apiKey
    else "https://api.openai.com/v1/chat/completions"
  }

  /** The `/models` URL that `getModels` asks. */
  function ModelsUrl(c: AIConfig): (r: string)
    ensures r == ApiBase(c) + ModelsPath
  {
    var base := if HasCustomBase(c) then c.baseUrl.value else OpenAIBase;
    Js.StripTrailingSlash(base) + ModelsPath
  }

  /** Without a usable base URL, a custom provider talks to OpenAI at both its URLs. */
  lemma CustomWithoutBaseIsOpenAI(c: AIConfig)
    requires c.provider == Custom && (c.baseUrl.None? || c.baseUrl.value == "")
    ensures Endpoint(c) == "https://api.openai.com/v1/chat/completions"
    ensures ModelsUrl(c) == "https://api.openai.com/v1/models"
  {
  }

  /** The model list of a Google configuration is asked of OpenAI, not of Google. */
  lemma GoogleModelsFromOpenAI(c: AIConfig)
    requires c.provider == Google
    ensures ModelsUrl(c) == "https://api.openai.com/v1/models"
  {
  }

  /** With a custom base, the chat endpoint and the model list share one base, with one trailing `/` dropped. */
  lemma CustomUrlsShareBase(c: AIConfig, base: string)
    requires HasCustomBase(c)
    requires c.baseUrl.value == base + "/" || c.baseUrl.value == base
    requires base != "" && base[|base| - 1] != '/'
    ensures Endpoint(c) == base + "/chat/completions"
    ensures ModelsUrl(c) == base + "/models"
  {
  }

  /** Only one trailing `/` is dropped: a base ending in `//` keeps one of them. */
  lemma OnlyOneSlashDropped(c: AIConfig, base: string)
    requires c.provider == Custom && c.baseUrl == Some(base + "//")
    ensures Endpoint(c) == base + "/" + "/chat/completions"
  {
    assert (base + "//")[..|base + "//"| - 1] == base + "/";
  }

  /** The Google endpoint ends in the API key, so the key travels in the URL. */
  lemma GoogleKeyInUrl(c: AIConfig)
    requires c.provider == Google
    ensures var e := Endpoint(c);
      |e| >= |c.apiKey| && e[|e| - |c.apiKey|..] == c.apiKey
  {
  }

  // ----- Reply cleanup -----

  const Fence: string := "```"
  const JsonFence: string := "```json\n"

  /** `content || "{}"`, then `.replace(/```json\n/g, '')`, then `.replace(/```/g, '')`. */
  function CleanReply(content: Option<string>): (r: string)
    ensures content.None? || content.value == "" ==> r == "{}"
  {
    var s := if content.Some? && content.value != "" then content.value else "{}";
    assert forall i :: !Js.OccursAt("{}", JsonFence, i);
    assert forall i :: !Js.OccursAt("{}", Fence, i);
    var t := Js.ReplaceAll(s, JsonFence, "");
    Js.ReplaceAll(t, Fence, "")
  }

  /** Removing matches leaves a string that begins with the same character when that character does not begin the pattern. */
  lemma ReplaceAllKeepsFirst(s: string, pat: string)
    requires pat != [] && s != [] && s[0] != pat[0]
    ensures var r := Js.ReplaceAll(s, pat, "");
      r != [] && r[0] == s[0]
  {
    if |s| >= |pat| {
      assert s[..|pat|][0] == s[0];
    }
  }

  /** Where removing fences leaves a backtick first, the text it came from began with one too. */
  lemma NoFenceBeginsAfter(s: string)
    requires s != [] && (s[0] != '`' || (|s| >= 2 && s[1] != '`'))
    ensures var r := Js.ReplaceAll(s, Fence, "");
      r != [] && (r[0] != '`' || (|r| >= 2 && r[1] != '`'))
  {
    if s[0] != '`' {
      ReplaceAllKeepsFirst(s, Fence);
    } else {
      assert s[..2] != "``";
      if |s| < 3 {
      } else {
        assert s[..3] != Fence;
        assert Js.ReplaceAll(s, Fence, "") == [s[0]] + Js.ReplaceAll(s[1..], Fence, "");
        ReplaceAllKeepsFirst(s[1..], Fence);
      }
    }
  }

  /** An occurrence past the first character of `[c] + r` is an occurrence in `r`. */
  lemma OccursAfterFirst(c: char, r: string, pat: string, i: int)
    requires i > 0 && Js.OccursAt([c] + r, pat, i)
    ensures Js.OccursAt(r, pat, i - 1)
  {
    assert ([c] + r)[i..i + |pat|] == r[i - 1..i - 1 + |pat|];
  }

  /** When `s` does not begin with a fence, keeping its first character and cleaning the rest puts no fence first. */
  lemma NoFenceAtStart(s: string)
    requires |s| >= 3 && s[..3] != Fence
    ensures !Js.OccursAt([s[0]] + Js.ReplaceAll(s[1..], Fence, ""), Fence, 0)
  {
    var r1 := Js.ReplaceAll(s[1..], Fence, "");
    var r := [s[0]] + r1;
    if s[0] == '`' {
      assert s[..3] == [s[0], s[1], s[2]];
      NoFenceBeginsAfter(s[1..]);
      assert |r| >= 3 ==> r[1] == r1[0] && r[2] == r1[1];
    } else {
      assert r[0] == s[0];
    }
  }

  /** Removing every "```" from left to right leaves none: runs of backticks shrink below three and never join. */
  lemma {:induction false} NoFenceLeft(s: string)
    ensures forall i :: !Js.OccursAt(Js.ReplaceAll(s, Fence, ""), Fence, i)
    decreases |s|
  {
    var r := Js.ReplaceAll(s, Fence, "");
    if |s| < 3 {
    } else if s[..3] == Fence {
      NoFenceLeft(s[3..]);
      assert r == Js.ReplaceAll(s[3..], Fence, "");
    } else {
      var r1 := Js.ReplaceAll(s[1..], Fence, "");
      NoFenceLeft(s[1..]);
      assert r == [s[0]] + r1;
      NoFenceAtStart(s);
      forall i | 0 < i && Js.OccursAt(r, Fence, i)
        ensures false
      {
        OccursAfterFirst(s[0], r1, Fence, i);
      }
    }
  }

  /** The cleaned reply never contains a code fence. */
  lemma CleanReplyHasNoFence(content: Option<string>)
    ensures forall i :: !Js.OccursAt(CleanReply(content), Fence, i)
  {
    var s := if content.Some? && content.value != "" then content.value else "{}";
    NoFenceLeft(Js.ReplaceAll(s, JsonFence, ""));
  }

  /** A reply without any backtick fence is parsed as it came. */
  lemma PlainReplyUnchanged(content: string)
    requires content != "" && forall i :: !Js.OccursAt(content, Fence, i)
    ensures CleanReply(Some(content)) == content
  {
    forall i | Js.OccursAt(content, JsonFence, i)
      ensures Js.OccursAt(content, Fence, i)
    {
      assert content[i..i + 3] == content[i..i + |JsonFence|][..3];
    }
  }

  lemma JsonFenceRemoved()
    ensures Js.ReplaceAll("```json\n{}\n```", JsonFence, "") == "{}\n```"
  {
    var s := "```json\n{}\n```";
    assert s[..|JsonFence|] == JsonFence;
    assert s[|JsonFence|..] == "{}\n```";
  }

  lemma ClosingFenceRemoved()
    ensures Js.ReplaceAll("{}\n```", Fence, "") == "{}\n"
  {
    assert Js.ReplaceAll("```", Fence, "") == "";
    assert "\n```"[..3] != Fence && "\n```"[1..] == "```";
    assert Js.ReplaceAll("\n```", Fence, "") == "\n";
    assert "}\n```"[..3] != Fence && "}\n```"[1..] == "\n```";
    assert Js.ReplaceAll("}\n```", Fence, "") == "}\n";
    assert "{}\n```"[..3] != Fence && "{}\n```"[1..] == "}\n```";
  }

  /** A reply wrapped in a JSON code block comes out as the block's text. */
  lemma FencedReplyUnwrapped()
    ensures CleanReply(Some("```json\n{}\n```")) == "{}\n"
  {
    JsonFenceRemoved();
    ClosingFenceRemoved();
  }

  /** The settings store: the four settings, updated by `setConfig`. */
  class ConfigStore {
    var provider: Provider
    var apiKey: string
    var baseUrl: Option<string>
    var model: string

    function Config(): AIConfig
      reads this
    {
      AIConfig(provider, apiKey, baseUrl, model)
    }

    constructor ()
      ensures Config() == Defaults
    {
      provider := OpenAI;
      apiKey := "";
      baseUrl := Some("");
      model := "gpt-4o";
    }

    method SetConfig(p: ConfigPatch)
      modifies this
      ensures Config() == Merged(old(Config()), p)
    {
      if p.provider.Some? {
        provider := p.provider.value;
      }
      if p.apiKey.Some? {
        apiKey := p.apiKey.value;
      }
      if p.baseUrl.Some? {
        baseUrl := p.baseUrl.value;
      }
      if p.model.Some? {
        model := p.model.value;
      }
    }

    method IsConfigured() returns (ok: bool)
      ensures ok == Configured(Config())
    {
      ok := apiKey != "" && Js.Length(apiKey) > 5;
    }
  }
}
