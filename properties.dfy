/**
 * What the install handler, its helpers and the `plugins_api` filter
 * promise, stated over the model in `EddRiClient`.
 */
module EddRiClientProperties {
  import opened Php
  import opened EddRiClient

  // ---------------------------------------------------------------------------
  // is_plugin_installed: the early break is only a shortcut
  // ---------------------------------------------------------------------------

  /**
   * The loop of `is_plugin_installed` without its `break` gives the same
   * answer as the search that stops at the first match.
   */
  lemma BreakDoesNotChangeResult(plugins: seq<string>, name: string)
    ensures Installed(plugins, name) <==> !Empty(name) && ScanAll(plugins, name, false)
  {
    ScanAllFindsMember(plugins, name, false);
  }

  /**
   * `empty()` on strings: "" and "0" only; strings that merely look false or
   * zero are not empty.
   */
  lemma OnlyBlankAndZeroAreEmpty()
    ensures Empty("") && Empty("0")
    ensures !Empty("00") && !Empty(" ") && !Empty("0.0") && !Empty("false") && !Empty("null")
  {
  }

  // ---------------------------------------------------------------------------
  // _check_download and _check_license
  // ---------------------------------------------------------------------------

  /** An installed name halts before the server is asked anything. */
  lemma InstalledHaltsBeforeRequest(base: string, host: Host, download: string, remote: Request -> Response)
    requires Installed(host.plugins, download)
    ensures Classify(base, host, download) == Halted
    ensures Classify(base, host.(remote := remote), download) == Halted
  {
  }

  /**
   * The download type: 'Server error' on a transport error, the body's
   * `download` value when it is set, and 'invalid' otherwise.
   */
  lemma TypeFromCases(response: Response)
    ensures response.TransportError? ==> TypeFrom(response) == Str("Server error")
    ensures response.Delivered? && "download" in response.body && response.body["download"] != Null
            ==> TypeFrom(response) == response.body["download"]
    ensures response.Delivered? && ("download" !in response.body || response.body["download"] == Null)
            ==> TypeFrom(response) == Str("invalid")
  {
  }

  /**
   * The license check fails closed: it holds only for a delivered body whose
   * `license` property is exactly the string 'valid'.
   */
  lemma LicenseAcceptedOnlyValid(response: Response)
    ensures LicenseAccepted(response) <==>
              response.Delivered? && "license" in response.body && response.body["license"] == Str("valid")
  {
  }

  /**
   * Some values the strict comparison rejects: booleans, other spellings,
   * null and non-string values.
   */
  lemma LicenseComparisonIsStrict(body: Object)
    requires "license" in body
    requires body["license"] in {Bool(true), Bool(false), Str("VALID"), Str("Valid"), Str(" valid"), Other, Null}
    ensures !LicenseAccepted(Delivered(body))
  {
  }

  // ---------------------------------------------------------------------------
  // install
  // ---------------------------------------------------------------------------

  /** The type the handler works with when the name is not installed. */
  function DownloadType(base: string, host: Host, download: string): Value
  {
    TypeFrom(host.remote(CheckDownloadRequest(base, download)))
  }

  /** An installed name ends in "Already Installed" with nothing sent, whatever the license. */
  lemma AlreadyInstalledWins(base: string, host: Host, post: Post)
    requires Installed(host.plugins, Posted(post, "download"))
    ensures Install(base, host, post) == Run(AlreadyInstalled, [])
  {
  }

  /**
   * A missing download name is "An Error Occurred", but only after the
   * download check has been sent to the server.
   */
  lemma EmptyDownloadIsError(base: string, host: Host, post: Post)
    requires Empty(Posted(post, "download"))
    ensures Install(base, host, post) ==
              Run(Error("An Error Occurred"), [Sent(CheckDownloadRequest(base, Posted(post, "download")))])
  {
  }

  /** A non-free download without a license is "An Error Occurred"; nothing is installed. */
  lemma EmptyLicenseForPaidIsError(base: string, host: Host, post: Post)
    requires !Installed(host.plugins, Posted(post, "download"))
    requires Empty(Posted(post, "license"))
    requires DownloadType(base, host, Posted(post, "download")) != Str("free")
    ensures Install(base, host, post) ==
              Run(Error("An Error Occurred"), [Sent(CheckDownloadRequest(base, Posted(post, "download")))])
  {
  }

  /**
   * A free download is installed from a link with an empty license, the
   * license is never checked, and the outcome is success wrapping whatever
   * the upgrader returned (a failure value included).
   */
  lemma FreeInstallsWithoutLicense(base: string, host: Host, post: Post)
    requires !Empty(Posted(post, "download")) && !Installed(host.plugins, Posted(post, "download"))
    requires DownloadType(base, host, Posted(post, "download")) == Str("free")
    ensures var link := DownloadLink(base, Posted(post, "download"), "");
            Install(base, host, post) ==
              Run(Success(host.upgrade(link)),
                  [Sent(CheckDownloadRequest(base, Posted(post, "download"))), RanInstaller(link)])
  {
  }

  /**
   * For a free download the posted license and the server's answer to any
   * license request make no difference.
   */
  lemma FreeIgnoresLicense(base: string, host: Host, post: Post, license: string, remote: Request -> Response)
    requires !Empty(Posted(post, "download")) && !Installed(host.plugins, Posted(post, "download"))
    requires DownloadType(base, host, Posted(post, "download")) == Str("free")
    requires remote(CheckDownloadRequest(base, Posted(post, "download")))
             == host.remote(CheckDownloadRequest(base, Posted(post, "download")))
    ensures Install(base, host.(remote := remote), post["license" := license]) == Install(base, host, post)
  {
  }

  /**
   * A paid download with a posted license is installed from a link carrying
   * that license exactly when the server accepts the license, and is
   * otherwise "Invalid License" with nothing installed.
   */
  lemma PaidInstallsIffLicenseValid(base: string, host: Host, post: Post)
    requires !Empty(Posted(post, "download")) && !Installed(host.plugins, Posted(post, "download"))
    requires !Empty(Posted(post, "license"))
    requires DownloadType(base, host, Posted(post, "download")) != Str("free")
    ensures var download, license := Posted(post, "download"), Posted(post, "license");
            var link := DownloadLink(base, download, license);
            var sent := [Sent(CheckDownloadRequest(base, download)),
                         Sent(ActivateLicenseRequest(base, license, download))];
            Install(base, host, post) ==
              if CheckLicense(base, host, license, download)
              then Run(Success(host.upgrade(link)), sent + [RanInstaller(link)])
              else Run(Error("Invalid License"), sent)
  {
  }

  /**
   * A transport error on the download check does not stop the handler: with
   * a license posted it goes on to the license check like a paid download.
   */
  lemma ServerErrorGoesOnToLicenseCheck(base: string, host: Host, post: Post)
    requires !Empty(Posted(post, "download")) && !Installed(host.plugins, Posted(post, "download"))
    requires !Empty(Posted(post, "license"))
    requires host.remote(CheckDownloadRequest(base, Posted(post, "download"))).TransportError?
    ensures Sent(ActivateLicenseRequest(base, Posted(post, "license"), Posted(post, "download")))
            in Install(base, host, post).effects
  {
  }

  /**
   * The rule the handler enforces: the upgrader runs only for a named,
   * not yet installed download that is free (then with an empty license)
   * or that has a posted license the server accepted (then with that one).
   */
  ghost predicate Authorized(base: string, host: Host, post: Post, link: Link)
  {
    var download, license := Posted(post, "download"), Posted(post, "license");
    && !Empty(download)
    && !Installed(host.plugins, download)
    && if DownloadType(base, host, download) == Str("free")
       then link == DownloadLink(base, download, "")
       else !Empty(license) && CheckLicense(base, host, license, download)
            && link == DownloadLink(base, download, license)
  }

  lemma InstallOnlyWhenAuthorized(base: string, host: Host, post: Post, link: Link)
    ensures RanInstaller(link) in Install(base, host, post).effects <==> Authorized(base, host, post, link)
  {
  }

  /** A success carries what the upgrader returned for the authorized link. */
  lemma SuccessIsUpgraderResult(base: string, host: Host, post: Post)
    ensures Install(base, host, post).outcome.Success? <==>
              exists link :: Authorized(base, host, post, link)
    ensures forall link :: Authorized(base, host, post, link) ==>
              Install(base, host, post).outcome == Success(host.upgrade(link))
  {
    var run := Install(base, host, post);
    if run.outcome.Success? {
      var link := run.effects[|run.effects| - 1].link;
      InstallOnlyWhenAuthorized(base, host, post, link);
    }
  }

  /** Distinct download names or licenses give distinct download links. */
  lemma DownloadLinkInjective(base: string, d1: string, l1: string, d2: string, l2: string)
    requires DownloadLink(base, d1, l1) == DownloadLink(base, d2, l2)
    ensures d1 == d2 && l1 == l2
  {
    assert DownloadLink(base, d1, l1).query["item_name"] == UrlEncoded(d1);
    assert DownloadLink(base, d1, l1).query["license"] == Plain(l1);
  }

  // ---------------------------------------------------------------------------
  // plugins_api
  // ---------------------------------------------------------------------------

  /**
   * When it applies, the filter answers with a record named after the
   * requested slug, with an empty version and a get_download link whose
   * license is the posted one, or null when none was posted.
   */
  lemma PluginsApiBuildsRecord(base: string, api: ApiValue, action: string, args: Object, post: Post)
    requires action == "plugin_information" && "edd_ri" in post
    ensures var r := PluginsApi(base, api, action, args, post);
            && r.Info?
            && r.name == Prop(args, "slug") && r.version == ""
            && r.downloadLink.base == base
            && r.downloadLink.query.Keys == {"edd_action", "item_name", "license"}
            && r.downloadLink.query["edd_action"] == Plain("get_download")
            && r.downloadLink.query["item_name"] == UrlEncoded(Posted(post, "name"))
            && r.downloadLink.query["license"] ==
                 (if "license" in post then UrlEncoded(post["license"]) else NullArg)
  {
  }

  // ---------------------------------------------------------------------------
  // Two end-to-end requests
  // ---------------------------------------------------------------------------

  /** "Acme Toolkit", not installed, reported free: installed from a link with an empty license. */
  lemma FreeScenario(base: string, upgrade: Link -> Value)
    ensures var host := Host([], (r: Request) => if r.Post? then Delivered(map["download" := Str("free")])
                                                 else TransportError, upgrade);
            var link := DownloadLink(base, "Acme Toolkit", "");
            && link.query["item_name"] == UrlEncoded("Acme Toolkit") && link.query["license"] == Plain("")
            && Install(base, host, map["download" := "Acme Toolkit"]).outcome == Success(upgrade(link))
  {
  }

  /** "Acme Pro" with license "ABC123", reported 'pro': installed when the server says 'valid'. */
  lemma PaidScenario(base: string, upgrade: Link -> Value, verdict: string)
    ensures var host := Host(["Acme Toolkit"],
                             (r: Request) => if r.Post? then Delivered(map["download" := Str("pro")])
                                             else Delivered(map["license" := Str(verdict)]), upgrade);
            var run := Install(base, host, map["download" := "Acme Pro", "license" := "ABC123"]);
            run.outcome == if verdict == "valid" then Success(upgrade(DownloadLink(base, "Acme Pro", "ABC123")))
                           else Error("Invalid License")
  {
  }
}
