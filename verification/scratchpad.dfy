/** The scratch-pad screen's own state: the `importUri` React state that decides whether
    the import dialog is shown, and the side effects the deep-link handler and its
    continuations have issued, in order. */
module ScratchPadScreen {
  import opened Wrappers
  import opened JsString
  import opened DeepLink

  class ScratchPad {
    /** `useState('')`; a link without `uri` stores `undefined`. */
    var importUri: Option<string>
    /** Every effect issued so far, oldest first. */
    var log: seq<Effect>

    constructor ()
      ensures importUri == Some("") && log == []
      ensures !ImportModalOpen()
    {
      importUri := Some("");
      log := [];
    }

    /** `{importUri && <ImportModal … />}`: the import dialog is rendered iff the state is truthy. */
    predicate ImportModalOpen()
      reads this
      ensures importUri == Some("") ==> !ImportModalOpen()
      ensures importUri == None ==> !ImportModalOpen()
      ensures importUri.Some? && importUri.value != "" ==> ImportModalOpen()
    {
      Truthy(importUri)
    }

    /** The `shell:open` listener for one link. The routing key is derived, rewritten in a
        development build, and dispatched; an `app/import` link also stores its `uri`. */
    method OnShellOpen(url: string, params: Option<Params>, isDevelopment: bool, decodeTheme: ThemeDecoder)
      modifies this
      ensures log == old(log) + [HandleUrl(url, params, isDevelopment, decodeTheme)]
      ensures importUri ==
        (if HandleUrl(url, params, isDevelopment, decodeTheme).SetImportUri?
         then HandleUrl(url, params, isDevelopment, decodeTheme).uri
         else old(importUri))
      ensures params.Some? && DispatchKey(url, isDevelopment) == ImportKey ==>
        (ImportModalOpen() <==> Truthy(Param(params.value, "uri")))
    {
      if params.None? {
        log := log + [LogInvalidUrl(url)];
        return;
      }
      var urlWithoutParams := RoutingKey(url);
      if isDevelopment {
        urlWithoutParams := ReplaceFirst(urlWithoutParams, DevScheme, Scheme);
      }
      var e := Route(urlWithoutParams, url, params.value, decodeTheme);
      if e.SetImportUri? {
        importUri := e.uri;
      }
      log := log + [e];
    }

    /** The import dialog's `onHide`: the state goes back to `''`, which closes the dialog. */
    method HideImportModal()
      modifies this`importUri
      ensures importUri == Some("")
      ensures !ImportModalOpen()
    {
      importUri := Some("");
    }

    /** The plugin-install dialog is answered; `installed` is how the install request settles.
        The continuation belongs to a dialog that asked about this very plugin. */
    method OnPluginInstallDone(isYes: bool, name: Option<string>, installed: Settled)
      requires AskPluginInstall(name) in log
      modifies this`log
      ensures log == old(log) + PluginInstallDone(isYes, name, installed)
    {
      if isYes {
        log := log + [InstallPlugin(name)];
        match installed {
          case Resolved =>
            log := log + [ShowSettings(PluginsTab)];
          case Rejected(m) =>
            log := log + [ShowError("Plugin Install", "Failed to install plugin", m)];
        }
      }
    }

    /** The theme-install dialog is answered; `resolved` awaited calls resolve before one
        rejects. Each step is issued only after the one before it resolved. The continuation
        belongs to a dialog that asked about this very theme. */
    method OnThemeInstallDone(isYes: bool, theme: Theme, resolved: nat)
      requires AskThemeInstall(theme) in log
      modifies this`log
      ensures log == old(log) + ThemeInstallDone(isYes, theme, resolved)
    {
      if !isYes {
        return;
      }
      log := log + [CreatePlugin("theme-" + theme.name, "0.0.1", [theme])];
      if resolved < 1 { return; }
      log := log + [LoadSettings];
      if resolved < 2 { return; }
      log := log + [UpdateSettingsTheme(theme.name)];
      if resolved < 3 { return; }
      log := log + [ReloadPlugins];
      if resolved < 4 { return; }
      log := log + [ApplyTheme(theme.name)];
      if resolved < 5 { return; }
      log := log + [ShowSettings(ThemesTab)];
    }

    /** An OAuth code exchange issued for a `github` or `gitlab` link has settled; an
        exchange with this provider was issued before. */
    method OnOAuthSettled(provider: Provider, exchanged: Settled)
      requires exists i :: 0 <= i < |log| && log[i].OAuthExchange? && log[i].provider == provider
      modifies this`log
      ensures log == old(log) + OAuthSettled(provider, exchanged)
    {
      if exchanged.Rejected? {
        log := log + [ShowError(OAuthErrorTitle(provider), exchanged.message, exchanged.message)];
      }
    }
  }
}
