/** The `shell:open` deep-link handler of the scratch-pad route: how a link's routing
    key is derived, how development builds rewrite their scheme, the closed exact-match
    dispatch over the eight known links, and what the confirm dialogs and the OAuth
    exchanges do once they settle. Every side effect is a value of `Effect`. */
module DeepLink {
  import opened Wrappers
  import opened JsString

  const Scheme := "insomnia://"
  /** The scheme development builds register; rewritten to `Scheme` before dispatch. */
  const DevScheme := "insomniadev://"

  const AlertKey := "insomnia://app/alert"
  const LoginKey := "insomnia://app/auth/login"
  const ImportKey := "insomnia://app/import"
  const PluginInstallKey := "insomnia://plugins/install"
  const ThemeKey := "insomnia://plugins/theme"
  const GitHubKey := "insomnia://oauth/github/authenticate"
  const GitLabKey := "insomnia://oauth/gitlab/authenticate"
  const AuthFinishKey := "insomnia://app/auth/finish"

  const KnownKeys: set<string> :=
    {AlertKey, LoginKey, ImportKey, PluginInstallKey, ThemeKey, GitHubKey, GitLabKey, AuthFinishKey}

  /** The query parameters of a link, as `Object.fromEntries(url.searchParams)` gives them. */
  type Params = map<string, string>

  /** `params.name`: absent names read as `undefined`. */
  function Param(params: Params, name: string): Option<string> {
    if name in params then Some(params[name]) else None
  }

  /** The theme a `plugins/theme` link carries, reduced to the two fields the handler reads. */
  datatype Theme = Theme(name: string, displayName: string)

  /** `JSON.parse(decodeURIComponent(text))` read as a theme; `None` when it throws. */
  type ThemeDecoder = string -> Option<Theme>

  datatype SettingsTab = PluginsTab | ThemesTab

  datatype Provider = GitHub | GitLab

  /** A route action submitted through the router's fetcher. */
  datatype Submission = Submission(action: string, httpMethod: string, body: map<string, Option<string>>, encType: Option<string>)

  /** The outcome of an awaited external call. */
  datatype Settled = Resolved | Rejected(message: string)

  datatype Effect =
    // the handler itself
    | LogInvalidUrl(url: string)
    | LogUnknownLink(url: string)
    | ShowAlert(title: Option<string>, message: Option<string>)
    | Submit(submission: Submission)
    | SetImportUri(uri: Option<string>)
    | AskPluginInstall(pluginName: Option<string>)
    | AskThemeInstall(theme: Theme)
    | ThemeParseThrows   // the theme parameter does not decode; the error escapes the handler
    | OAuthExchange(provider: Provider, code: Option<string>, state: Option<string>)
    // the continuations, once a dialog is answered or an awaited call settles
    | InstallPlugin(pluginName: Option<string>)
    | ShowSettings(tab: SettingsTab)
    | ShowError(errorTitle: string, errorMessage: string, error: string)
    | CreatePlugin(packageName: string, version: string, exportedThemes: seq<Theme>)
    | LoadSettings
    | UpdateSettingsTheme(settingsTheme: string)
    | ReloadPlugins
    | ApplyTheme(themeName: string)

  // ---------------------------------------------------------------------------
  // Routing key

  /** `url.substring(0, url.indexOf('?')) || url`: the link up to its first `?`, or the
      whole link when that is empty (no `?` at all, or a `?` in front). */
  function RoutingKey(url: string): (key: string)
    ensures |key| <= |url| && key == url[..|key|]
    ensures url != "" ==> key != ""
  {
    var cut := Substring(url, 0, IndexOf(url, "?"));
    if cut == "" then url else cut
  }

  /** With no `?`, or with the first `?` in front, the key is the whole link. */
  lemma RoutingKeyWithoutQuery(url: string)
    requires '?' !in url || (|url| > 0 && url[0] == '?')
    ensures RoutingKey(url) == url
  {
    if '?' !in url {
      IndexOfAbsentChar(url, '?');
    } else {
      IndexOfFirstChar(url, '?', 0);
    }
  }

  /** With the first `?` at index `i > 0`, the key is everything before it; a `#fragment`
      before the `?` stays in the key. */
  lemma RoutingKeyAtQuery(url: string, i: int)
    requires 0 < i < |url| && url[i] == '?' && '?' !in url[..i]
    ensures RoutingKey(url) == url[..i]
  {
    IndexOfFirstChar(url, '?', i);
  }

  // ---------------------------------------------------------------------------
  // Development rewrite

  /** The key the switch compares: in development builds the first `insomniadev://`
      anywhere in the key becomes `insomnia://`. */
  function NormalizeKey(key: string, isDevelopment: bool): (r: string)
    ensures !isDevelopment ==> r == key
    ensures isDevelopment && (forall j :: 0 <= j ==> !OccursAt(key, DevScheme, j)) ==> r == key
  {
    if isDevelopment then ReplaceFirst(key, DevScheme, Scheme) else key
  }

  /** In a development build the first `insomniadev://` of a key, wherever it stands, becomes
      `insomnia://`; what precedes it and everything after it (later occurrences included)
      stay as they are. */
  lemma NormalizeKeyFirstOccurrence(pre: string, post: string)
    requires forall j :: 0 <= j < |pre| ==> !OccursAt(pre + DevScheme + post, DevScheme, j)
    ensures NormalizeKey(pre + DevScheme + post, true) == pre + Scheme + post
  {
    ReplaceFirstAt(pre, DevScheme, post, Scheme);
  }

  /** A key that starts with `insomniadev://` becomes `insomnia://` plus the same rest. */
  lemma NormalizeKeyAtStart(key: string)
    requires |key| >= |DevScheme| && key[..|DevScheme|] == DevScheme
    ensures NormalizeKey(key, true) == Scheme + key[|DevScheme|..]
  {
    var rest := key[|DevScheme|..];
    assert key == [] + DevScheme + rest;
    NormalizeKeyFirstOccurrence([], rest);
    assert [] + Scheme + rest == Scheme + rest;
  }

  /** The key the switch compares for a link; in production it is a prefix of the link. */
  function DispatchKey(url: string, isDevelopment: bool): (key: string)
    ensures !isDevelopment ==> |key| <= |url| && key == url[..|key|]
  {
    NormalizeKey(RoutingKey(url), isDevelopment)
  }

  /** No known key contains `insomniadev://` (none contains a `v`), so the development
      rewrite never changes one. */
  lemma KnownKeyHasNoDevScheme(key: string)
    requires key in KnownKeys
    ensures forall j :: 0 <= j ==> !OccursAt(key, DevScheme, j)
    ensures NormalizeKey(key, true) == key
  {
    assert 'v' !in key;
    forall j | 0 <= j ensures !OccursAt(key, DevScheme, j) {
      if j + |DevScheme| <= |key| {
        assert key[j + 10] == key[j..j + |DevScheme|][10];
      }
    }
    ReplaceFirstAbsent(key, DevScheme, Scheme);
  }

  /** A `?`-free path after a scheme, followed by nothing or by a query, has the scheme
      and path as its routing key. */
  lemma RoutingKeyOfLink(scheme: string, rest: string, query: string)
    requires |scheme| > 0 && '?' !in scheme && '?' !in rest
    requires query == [] || query[0] == '?'
    ensures RoutingKey(scheme + rest + query) == scheme + rest
  {
    var url := scheme + rest + query;
    if query == [] {
      assert url == scheme + rest;
      RoutingKeyWithoutQuery(url);
    } else {
      var i := |scheme + rest|;
      assert url[..i] == scheme + rest;
      assert url[i] == query[0];
      RoutingKeyAtQuery(url, i);
    }
  }

  /** In a development build an `insomniadev://` link is dispatched under its
      `insomnia://` twin's key. */
  lemma DevLinkKeyIsCanonical(rest: string, query: string)
    requires '?' !in rest
    requires query == [] || query[0] == '?'
    ensures DispatchKey(DevScheme + rest + query, true) == Scheme + rest
  {
    var url := DevScheme + rest + query;
    RoutingKeyOfLink(DevScheme, rest, query);
    assert RoutingKey(url) == [] + DevScheme + rest;
    ReplaceFirstAt([], DevScheme, rest, Scheme);
    assert [] + Scheme + rest == Scheme + rest;
  }

  /** An `insomnia://` link with a known key is dispatched under that key in either build. */
  lemma CanonicalLinkKey(rest: string, query: string, isDevelopment: bool)
    requires '?' !in rest
    requires query == [] || query[0] == '?'
    requires Scheme + rest in KnownKeys
    ensures DispatchKey(Scheme + rest + query, isDevelopment) == Scheme + rest
  {
    RoutingKeyOfLink(Scheme, rest, query);
    KnownKeyHasNoDevScheme(Scheme + rest);
  }

  /** In a development build an `insomniadev://` link with a known twin has the same
      effect as that `insomnia://` twin, in either build. */
  lemma DevLinkRoutesLikeCanonical(rest: string, query: string, params: Params, isDevelopment: bool, decodeTheme: ThemeDecoder)
    requires '?' !in rest
    requires query == [] || query[0] == '?'
    requires Scheme + rest in KnownKeys
    ensures HandleUrl(DevScheme + rest + query, Some(params), true, decodeTheme)
         == HandleUrl(Scheme + rest + query, Some(params), isDevelopment, decodeTheme)
  {
    var dev, canonical := DevScheme + rest + query, Scheme + rest + query;
    DevLinkKeyIsCanonical(rest, query);
    CanonicalLinkKey(rest, query, isDevelopment);
    RouteOfKnownKeyIgnoresUrl(Scheme + rest, dev, canonical, params, decodeTheme);
  }

  /** `?` does not occur in `insomniadev://`, so a link that starts with it keeps it in its
      routing key. */
  lemma DevLinkKeyKeepsDevScheme(url: string)
    requires |url| >= |DevScheme| && url[..|DevScheme|] == DevScheme
    ensures |RoutingKey(url)| >= |DevScheme| && RoutingKey(url)[..|DevScheme|] == DevScheme
  {
    forall i | 0 <= i < |DevScheme| ensures url[i] != '?' {
      assert url[i] == url[..|DevScheme|][i];
    }
    var q := IndexOf(url, "?");
    if q >= 0 {
      OccursAtChar(url, '?', q);
      assert url[..q][..|DevScheme|] == DevScheme;
    }
  }

  /** A key that starts with `insomniadev://` is none of the known keys. */
  lemma DevSchemeKeyIsUnknown(key: string)
    requires |key| >= |DevScheme| && key[..|DevScheme|] == DevScheme
    ensures key !in KnownKeys
  {
    assert key[8] == key[..|DevScheme|][8] == 'd';
  }

  /** In a production build an `insomniadev://` link is never rewritten, so it matches no
      known key and only the unknown-link log happens. */
  lemma DevLinkUnknownInProduction(url: string, params: Params, decodeTheme: ThemeDecoder)
    requires |url| >= |DevScheme| && url[..|DevScheme|] == DevScheme
    ensures HandleUrl(url, Some(params), false, decodeTheme) == LogUnknownLink(url)
  {
    DevLinkKeyKeepsDevScheme(url);
    DevSchemeKeyIsUnknown(RoutingKey(url));
  }

  // ---------------------------------------------------------------------------
  // Dispatch

  /** The known link whose dispatch produces `e`, if any: an independent inverse of `Route`. */
  function TriggeringKey(e: Effect): Option<string> {
    match e
    case ShowAlert(_, _) => Some(AlertKey)
    case Submit(s) =>
      if s.action == "/auth/logout" then Some(LoginKey)
      else if s.action == "/auth/authorize" then Some(AuthFinishKey)
      else None
    case SetImportUri(_) => Some(ImportKey)
    case AskPluginInstall(_) => Some(PluginInstallKey)
    case AskThemeInstall(_) => Some(ThemeKey)
    case ThemeParseThrows => Some(ThemeKey)
    case OAuthExchange(p, _, _) => if p == GitHub then Some(GitHubKey) else Some(GitLabKey)
    case _ => None
  }

  /** The switch over the (normalized) key: exact string equality against the eight known
      keys, each yielding its one effect from the named parameters; anything else only logs. */
  function Route(key: string, url: string, params: Params, decodeTheme: ThemeDecoder): (e: Effect)
    ensures TriggeringKey(e) == (if key in KnownKeys then Some(key) else None)
    ensures e.LogUnknownLink? <==> key !in KnownKeys
    ensures e.LogUnknownLink? ==> e.url == url
    // what each effect carries
    ensures e.ShowAlert? ==> e.title == Param(params, "title") && e.message == Param(params, "message")
    ensures e.Submit? ==> e.submission.httpMethod == "POST"
    ensures key == LoginKey ==> e.submission.body == map[] && e.submission.encType == None
    ensures key == AuthFinishKey ==>
      e.submission.body == map["code" := Param(params, "box")] && e.submission.encType == Some("application/json")
    ensures e.SetImportUri? ==> e.uri == Param(params, "uri")
    ensures e.AskPluginInstall? ==> e.pluginName == Param(params, "name")
    ensures e.AskThemeInstall? ==>
      Param(params, "theme").Some? && decodeTheme(Param(params, "theme").value) == Some(e.theme)
    ensures key == ThemeKey && Param(params, "theme").None? ==> e == ThemeParseThrows
    ensures key == ThemeKey && Param(params, "theme").Some? ==>
      e == (match decodeTheme(Param(params, "theme").value)
            case Some(theme) => AskThemeInstall(theme)
            case None => ThemeParseThrows)
    ensures e.OAuthExchange? ==> e.code == Param(params, "code") && e.state == Param(params, "state")
  {
    if key == AlertKey then
      ShowAlert(Param(params, "title"), Param(params, "message"))
    else if key == LoginKey then
      Submit(Submission("/auth/logout", "POST", map[], None))
    else if key == ImportKey then
      SetImportUri(Param(params, "uri"))
    else if key == PluginInstallKey then
      AskPluginInstall(Param(params, "name"))
    else if key == ThemeKey then
      // `decodeURIComponent(undefined)` is the text "undefined", which `JSON.parse` rejects
      match Param(params, "theme")
      case None => ThemeParseThrows
      case Some(text) =>
        match decodeTheme(text)
        case Some(theme) => AskThemeInstall(theme)
        case None => ThemeParseThrows
    else if key == GitHubKey then
      OAuthExchange(GitHub, Param(params, "code"), Param(params, "state"))
    else if key == GitLabKey then
      OAuthExchange(GitLab, Param(params, "code"), Param(params, "state"))
    else if key == AuthFinishKey then
      Submit(Submission("/auth/authorize", "POST", map["code" := Param(params, "box")], Some("application/json")))
    else
      LogUnknownLink(url)
  }

  /** Only the unknown-link log mentions the link itself. */
  lemma RouteOfKnownKeyIgnoresUrl(key: string, url: string, url': string, params: Params, decodeTheme: ThemeDecoder)
    requires key in KnownKeys
    ensures Route(key, url, params, decodeTheme) == Route(key, url', params, decodeTheme)
  {
  }

  /** The parameter names the effect of `key` is built from. */
  function ParamNames(key: string): set<string> {
    if key == AlertKey then {"title", "message"}
    else if key == ImportKey then {"uri"}
    else if key == PluginInstallKey then {"name"}
    else if key == ThemeKey then {"theme"}
    else if key == GitHubKey || key == GitLabKey then {"code", "state"}
    else if key == AuthFinishKey then {"box"}
    else {}
  }

  /** The effect depends on the parameters only through the names its key reads. */
  lemma RouteReadsOnlyNamedParams(key: string, url: string, p: Params, q: Params, decodeTheme: ThemeDecoder)
    requires forall n :: n in ParamNames(key) ==> Param(p, n) == Param(q, n)
    ensures Route(key, url, p, decodeTheme) == Route(key, url, q, decodeTheme)
  {
    if key == AlertKey {
      assert Param(p, "title") == Param(q, "title") && Param(p, "message") == Param(q, "message");
    } else if key == ImportKey {
      assert Param(p, "uri") == Param(q, "uri");
    } else if key == PluginInstallKey {
      assert Param(p, "name") == Param(q, "name");
    } else if key == ThemeKey {
      assert Param(p, "theme") == Param(q, "theme");
    } else if key == GitHubKey || key == GitLabKey {
      assert Param(p, "code") == Param(q, "code") && Param(p, "state") == Param(q, "state");
    } else if key == AuthFinishKey {
      assert Param(p, "box") == Param(q, "box");
    }
  }

  /** The whole handler for one link. `params` is `None` when `new URL(url)` throws: the
      handler then returns after one log line, before any dispatch. */
  function HandleUrl(url: string, params: Option<Params>, isDevelopment: bool, decodeTheme: ThemeDecoder): (e: Effect)
    ensures params.None? <==> e.LogInvalidUrl?
    ensures params.Some? ==> (e.LogUnknownLink? <==> DispatchKey(url, isDevelopment) !in KnownKeys)
    ensures e.LogInvalidUrl? || e.LogUnknownLink? ==> e.url == url
  {
    match params
    case None => LogInvalidUrl(url)
    case Some(p) => Route(DispatchKey(url, isDevelopment), url, p, decodeTheme)
  }

  /** An unparseable link only logs, in either build. */
  lemma InvalidUrlOnlyLogs(url: string, isDevelopment: bool, decodeTheme: ThemeDecoder)
    ensures HandleUrl(url, None, isDevelopment, decodeTheme) == LogInvalidUrl(url)
    ensures TriggeringKey(HandleUrl(url, None, isDevelopment, decodeTheme)) == None
  {
  }

  /** A parseable link triggers an action exactly when its dispatch key is known. */
  lemma HandleUrlExactMatch(url: string, params: Params, isDevelopment: bool, decodeTheme: ThemeDecoder)
    ensures var e := HandleUrl(url, Some(params), isDevelopment, decodeTheme);
      (e == LogUnknownLink(url) <==> DispatchKey(url, isDevelopment) !in KnownKeys) &&
      (DispatchKey(url, isDevelopment) in KnownKeys ==> TriggeringKey(e) == Some(DispatchKey(url, isDevelopment)))
  {
  }

  /** `insomnia://app/alert?title=…&message=…` is dispatched as `app/alert` in either build. */
  lemma AlertLinkKey(title: string, message: string, isDevelopment: bool)
    ensures DispatchKey(AlertKey + "?title=" + title + "&message=" + message, isDevelopment) == AlertKey
  {
    var query := "?title=" + title + "&message=" + message;
    var url := AlertKey + "?title=" + title + "&message=" + message;
    assert url == Scheme + "app/alert" + query;
    RoutingKeyOfLink(Scheme, "app/alert", query);
    assert RoutingKey(url) == AlertKey;
    KnownKeyHasNoDevScheme(AlertKey);
  }

  /** Such a link shows an alert with that title and message (the parameters as decoded). */
  lemma AlertLinkExample(title: string, message: string, isDevelopment: bool, decodeTheme: ThemeDecoder)
    ensures HandleUrl(AlertKey + "?title=" + title + "&message=" + message,
                      Some(map["title" := title, "message" := message]), isDevelopment, decodeTheme)
      == ShowAlert(Some(title), Some(message))
  {
    AlertLinkKey(title, message, isDevelopment);
    var params := map["title" := title, "message" := message];
    assert Param(params, "title") == Some(title);
    assert Param(params, "message") == Some(message);
  }

  // ---------------------------------------------------------------------------
  // Continuations

  /** Any error dialog among `effects`. */
  predicate ShowsError(effects: seq<Effect>) {
    exists i :: 0 <= i < |effects| && effects[i].ShowError?
  }

  /** The plugin-install dialog's `onDone`: on "yes" the install is requested; once it
      settles either the settings open on the plugins tab or an error is shown. */
  function PluginInstallDone(isYes: bool, name: Option<string>, installed: Settled): (effects: seq<Effect>)
    ensures !isYes ==> effects == []
    ensures isYes ==> |effects| == 2 && effects[0] == InstallPlugin(name)
    ensures ShowSettings(PluginsTab) in effects <==> isYes && installed.Resolved?
    ensures ShowsError(effects) <==> isYes && installed.Rejected?
    ensures ShowsError(effects) ==>
      effects[1] == ShowError("Plugin Install", "Failed to install plugin", installed.message)
  {
    if !isYes then []
    else
      match installed
      case Resolved => [InstallPlugin(name), ShowSettings(PluginsTab)]
      case Rejected(m) =>
        var effects := [InstallPlugin(name), ShowError("Plugin Install", "Failed to install plugin", m)];
        assert effects[1].ShowError?;
        effects
  }

  /** The number of awaited calls of a theme install; the settings dialog follows them. */
  const ThemeAwaitedSteps := 5

  /** Every step of an accepted theme install, in the order the source runs them. */
  function ThemeInstallSteps(theme: Theme): (steps: seq<Effect>)
    ensures |steps| == ThemeAwaitedSteps + 1
    ensures steps[|steps| - 1] == ShowSettings(ThemesTab)
    ensures forall i :: 0 <= i < ThemeAwaitedSteps ==> !steps[i].ShowSettings?
  {
    [ CreatePlugin("theme-" + theme.name, "0.0.1", [theme]),
      LoadSettings,
      UpdateSettingsTheme(theme.name),
      ReloadPlugins,
      ApplyTheme(theme.name),
      ShowSettings(ThemesTab) ]
  }

  /** The theme-install dialog's `onDone`. `resolved` counts the awaited calls that
      resolve before one rejects (`ThemeAwaitedSteps` or more: none rejects); nothing
      catches a rejection, so the steps stop there and the earlier ones stay done. */
  function ThemeInstallDone(isYes: bool, theme: Theme, resolved: nat): (effects: seq<Effect>)
    ensures !isYes ==> effects == []
    ensures isYes ==> |effects| == (if resolved < ThemeAwaitedSteps then resolved + 1 else ThemeAwaitedSteps + 1)
    ensures isYes ==> effects == ThemeInstallSteps(theme)[..|effects|]
    ensures ShowSettings(ThemesTab) in effects <==> isYes && resolved >= ThemeAwaitedSteps
  {
    if !isYes then []
    else
      var steps := ThemeInstallSteps(theme);
      var n := if resolved < ThemeAwaitedSteps then resolved + 1 else ThemeAwaitedSteps + 1;
      assert forall e :: e in steps[..n] && n <= ThemeAwaitedSteps ==> !e.ShowSettings?;
      steps[..n]
  }

  /** The title of the error shown when an exchange with `provider` rejects. */
  function OAuthErrorTitle(provider: Provider): string {
    match provider
    case GitHub => "Error authorizing GitHub"
    case GitLab => "Error authorizing GitLab"
  }

  /** The `.catch` of an OAuth code exchange: a rejection shows exactly one error, titled
      after its provider and carrying the rejection's message; a success shows nothing. */
  function OAuthSettled(provider: Provider, exchanged: Settled): (effects: seq<Effect>)
    ensures exchanged.Resolved? ==> effects == []
    ensures exchanged.Rejected? ==> |effects| == 1 && effects[0].ShowError?
    ensures exchanged.Rejected? ==> effects[0].errorMessage == exchanged.message
    ensures exchanged.Rejected? && provider == GitHub ==> effects[0].errorTitle == "Error authorizing GitHub"
    ensures exchanged.Rejected? && provider == GitLab ==> effects[0].errorTitle == "Error authorizing GitLab"
  {
    match exchanged
    case Resolved => []
    case Rejected(m) => [ShowError(OAuthErrorTitle(provider), m, m)]
  }
}
