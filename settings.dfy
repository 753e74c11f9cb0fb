/** The agent's LLM settings: the provider prefix on the default model, the
    API base that LiteLLM is given, and the choice of model. Values read
    from the environment and from the configuration are parameters. */
module Settings {
  import opened PyJson

  const Provider: string := "datarobot/"
  const DefaultBase: string := "https://api.datarobot.com"

  predicate EndsWith(s: string, suffix: string) {
    |suffix| <= |s| && s[|s| - |suffix|..] == suffix
  }

  /** Lines 58-59: the default model gets the `datarobot/` prefix unless it
      already has it. */
  function ProviderModel(model: string): (r: string)
    ensures Provider <= r
  {
    if Provider <= model then model else Provider + model
  }

  /** Lemma: the prefixed model names the same model, and prefixing twice
      changes nothing. */
  lemma ProviderModelSpec(model: string)
    ensures Provider <= model ==> ProviderModel(model) == model
    ensures !(Provider <= model) ==> ProviderModel(model)[|Provider|..] == model
    ensures ProviderModel(ProviderModel(model)) == ProviderModel(model)
  {
  }

  /** The two texts `api/v2/?` matches. */
  const Api: string := "api/v2"
  const ApiSlash: string := "api/v2/"

  /** What `api/v2/?` matches at the very end of `body`, or `""`. */
  function Matched(body: string): (m: string)
    ensures m == "" || m == Api || m == ApiSlash
    ensures m != "" ==> EndsWith(body, m)
  {
    if EndsWith(body, ApiSlash) then ApiSlash else if EndsWith(body, Api) then Api else ""
  }

  /** `re.sub(r"api/v2/?$", "", base)`: `$` matches at the end of the
      string and just before a newline that ends it, so the pattern matches
      at most once. */
  function StripApiV2(base: string): string {
    var n := |base|;
    if Matched(base) != "" then base[..n - |Matched(base)|]
    else if n > 0 && base[n - 1] == '\n' && Matched(base[..n - 1]) != "" then
      base[..n - 1 - |Matched(base[..n - 1])|] + "\n"
    else base
  }

  /** Lines 67-72: the API base for LiteLLM; an absent or empty base falls
      back to the public endpoint. */
  function LiteLlmBase(apiBase: Option<string>): string {
    if apiBase.Some? && apiBase.value != [] then StripApiV2(apiBase.value) else DefaultBase
  }

  /** Lemma: the LiteLLM base is the configured base with what `api/v2/?`
      matches at its end cut off (`Matched` is `""`, `api/v2` or
      `api/v2/`). */
  lemma LiteLlmBaseCut(apiBase: string)
    requires apiBase != [] && apiBase[|apiBase| - 1] != '\n'
    ensures apiBase == LiteLlmBase(Some(apiBase)) + Matched(apiBase)
  {
    if Matched(apiBase) != "" {
      CutAtEnd(apiBase);
    }
  }

  /** Lemma: a base that ends with a newline keeps it, and loses what
      `api/v2/?` matches just before it. */
  lemma LiteLlmBaseCutNewline(apiBase: string)
    requires apiBase != [] && apiBase[|apiBase| - 1] == '\n'
    ensures var r := LiteLlmBase(Some(apiBase));
      r != [] && r[|r| - 1] == '\n' && apiBase == r[..|r| - 1] + Matched(apiBase[..|apiBase| - 1]) + "\n"
  {
    var body := apiBase[..|apiBase| - 1];
    assert Matched(apiBase) == "" by {
      assert Api[5] != '\n' && ApiSlash[6] != '\n';
    }
    if Matched(body) != "" {
      CutBeforeNewline(apiBase);
    } else {
      assert apiBase == body + "" + "\n";
    }
  }

  /** Lemma: a match at the very end is cut. */
  lemma CutAtEnd(base: string)
    requires Matched(base) != ""
    ensures base == StripApiV2(base) + Matched(base)
  {
    var m := Matched(base);
    assert base == base[..|base| - |m|] + base[|base| - |m|..];
  }

  /** Lemma: a match before the final newline is cut and the newline kept. */
  lemma CutBeforeNewline(base: string)
    requires |base| > 0 && Matched(base) == "" && base[|base| - 1] == '\n' && Matched(base[..|base| - 1]) != ""
    ensures var r, m := StripApiV2(base), Matched(base[..|base| - 1]);
      r != [] && r[|r| - 1] == '\n' && base == r[..|r| - 1] + m + "\n"
  {
    var body := base[..|base| - 1];
    var m := Matched(body);
    var r := StripApiV2(base);
    assert base == body + "\n";
    assert body == body[..|body| - |m|] + m;
    assert r[..|r| - 1] == body[..|body| - |m|];
  }

  /** Lemma: a base that ends with neither `api/v2` nor `api/v2/`, with or
      without a final newline, is used as it is. */
  lemma LiteLlmBaseKeeps(apiBase: string)
    requires apiBase != []
    requires !EndsWith(apiBase, Api) && !EndsWith(apiBase, ApiSlash)
    requires !EndsWith(apiBase, Api + "\n") && !EndsWith(apiBase, ApiSlash + "\n")
    ensures LiteLlmBase(Some(apiBase)) == apiBase
  {
    var n := |apiBase|;
    if apiBase[n - 1] == '\n' {
      var body := apiBase[..n - 1];
      assert apiBase == body + "\n";
      EndsWithNewline(body, Api);
      EndsWithNewline(body, ApiSlash);
    }
  }

  /** Lemma: `s` with a newline appended ends with `x` and a newline
      exactly when `s` ends with `x`. */
  lemma EndsWithNewline(s: string, x: string)
    ensures EndsWith(s + "\n", x + "\n") <==> EndsWith(s, x)
  {
    var t := s + "\n";
    if |x| <= |s| {
      assert t[|t| - |x| - 1..] == s[|s| - |x|..] + "\n";
      if t[|t| - |x| - 1..] == x + "\n" {
        assert s[|s| - |x|..] == t[|t| - |x| - 1..][..|x|];
      }
    }
  }

  /** The path of a deployment's chat completions endpoint; it starts with
      a slash. */
  function DeploymentPath(deploymentId: string): (p: string)
    ensures |p| > 0 && p[0] == '/'
  {
    "/api/v2/deployments/" + deploymentId + "/chat/completions"
  }

  /** Lines 81-85: the API base the LLM is built with. */
  function ModelApiBase(apiBase: Option<string>, deploymentId: string, useDeployment: bool): string {
    if useDeployment then LiteLlmBase(apiBase) + DeploymentPath(deploymentId) else LiteLlmBase(apiBase)
  }

  /** Lemma: for a configured base that ends in `/api/v2` (the usual form of
      the endpoint) the deployment URL has a doubled slash after the host,
      because the cut keeps the slash and the path adds another. */
  lemma DeploymentUrlDoubleSlash(host: string, deploymentId: string)
    ensures var url := ModelApiBase(Some(host + "/" + Api), deploymentId, true);
      url == host + "/" + DeploymentPath(deploymentId) && url[|host|] == '/' && url[|host| + 1] == '/'
  {
    StripsSlashApi(host);
    var url := ModelApiBase(Some(host + "/" + Api), deploymentId, true);
    assert url[|host|] == '/' && url[|host| + 1] == DeploymentPath(deploymentId)[0];
  }

  /** Lemma: the cut of `/api/v2` keeps the slash. */
  lemma StripsSlashApi(host: string)
    ensures LiteLlmBase(Some(host + "/" + Api)) == host + "/"
  {
    var base := host + "/" + Api;
    assert base[|base| - 1] == '2' != ApiSlash[6];
    assert base[|base| - 6..] == Api;
    assert base[..|base| - 6] == host + "/";
  }

  /** Lines 86-89: the requested model, else the default one; the default
      also overrides any request unless the LLM gateway is in use. */
  function SelectModel(requested: Option<string>, defaultModel: string, autoOverride: bool, useGateway: bool): string {
    var model := if requested.None? then defaultModel else requested.value;
    if autoOverride && !useGateway then defaultModel else model
  }

  /** Lemma: a requested model is used exactly when there is one and the
      override is off or the gateway is in use; otherwise the default is. */
  lemma SelectModelSpec(requested: Option<string>, defaultModel: string, autoOverride: bool, useGateway: bool)
    ensures requested.Some? && !(autoOverride && !useGateway)
        ==> SelectModel(requested, defaultModel, autoOverride, useGateway) == requested.value
    ensures requested.None? || (autoOverride && !useGateway)
        ==> SelectModel(requested, defaultModel, autoOverride, useGateway) == defaultModel
  {
  }
}
