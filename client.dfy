/**
 * The decision logic of the remote-installer client class `EDD_RI_Client`:
 * the AJAX `install` handler and the four pieces around it (classifying a
 * download, checking a license, looking a plugin up by name, and the
 * `plugins_api` filter that hands the host installer a download link).
 *
 * Everything the class reaches outside itself is a parameter: the names of
 * the installed plugins (`get_plugins()`), the vendor server (every HTTP
 * request it answers), and the host's plugin upgrader (a function of the
 * download link). The base URL `api_url` is the one piece of object state;
 * it is fixed at construction and passed in as `base`.
 */
module EddRiClient {
  import opened Php

  // ---------------------------------------------------------------------------
  // Requests and links, kept as parameter maps
  // ---------------------------------------------------------------------------

  /**
   * A query or form parameter as the client hands it to `add_query_arg` or to
   * `wp_remote_post`: passed as is, passed through `urlencode`, or null.
   */
  datatype ArgValue = Plain(s: string) | UrlEncoded(raw: string) | NullArg

  /** `add_query_arg(query, base)`, not rendered as a string. */
  datatype Link = Link(base: string, query: map<string, ArgValue>)

  /** An outbound HTTP request to the vendor server. */
  datatype Request =
    | Post(url: string, body: map<string, ArgValue>)
    | Get(link: Link)

  /**
   * What `wp_remote_post` / `wp_remote_get` followed by `json_decode` give
   * back: a transport error, or a delivered body decoded to an object (a
   * body that does not decode to an object has no properties).
   */
  datatype Response = TransportError | Delivered(body: Object)

  /** The collaborators a request is handled against. */
  datatype Host = Host(
    plugins: seq<string>,           // the `Name` of every installed plugin
    remote: Request -> Response,    // the vendor server
    upgrade: Link -> Value          // `Plugin_Upgrader::install`
  )

  const FREE := "free"
  const SERVER_ERROR := "Server error"
  const INVALID := "invalid"
  const VALID := "valid"
  const AN_ERROR_OCCURRED := "An Error Occurred"
  const INVALID_LICENSE := "Invalid License"
  const PLUGIN_INFORMATION := "plugin_information"

  /**
   * The body `_check_download` posts to the server: the check_download
   * action and the url-encoded name, nothing else.
   */
  function CheckDownloadRequest(base: string, download: string): (r: Request)
    ensures r.Post? && r.url == base
    ensures r.body.Keys == {"edd_action", "item_name"}
    ensures r.body["edd_action"] == Plain("check_download") && r.body["item_name"] == UrlEncoded(download)
  {
    Post(base, map["edd_action" := Plain("check_download"), "item_name" := UrlEncoded(download)])
  }

  /**
   * The query `_check_license` sends to the server: the activate_license
   * action, the license as posted (not url-encoded) and the url-encoded name.
   */
  function ActivateLicenseRequest(base: string, license: string, download: string): (r: Request)
    ensures r.Get? && r.link.base == base
    ensures r.link.query.Keys == {"edd_action", "license", "item_name"}
    ensures r.link.query["edd_action"] == Plain("activate_license")
    ensures r.link.query["license"] == Plain(license) && r.link.query["item_name"] == UrlEncoded(download)
  {
    Get(Link(base, map["edd_action" := Plain("activate_license"), "license" := Plain(license),
                       "item_name" := UrlEncoded(download)]))
  }

  /**
   * The link `_install_plugin` hands to the upgrader: the get_download
   * action, the url-encoded name and the license as given (not url-encoded).
   */
  function DownloadLink(base: string, download: string, license: string): (link: Link)
    ensures link.base == base
    ensures link.query.Keys == {"edd_action", "item_name", "license"}
    ensures link.query["edd_action"] == Plain("get_download")
    ensures link.query["item_name"] == UrlEncoded(download) && link.query["license"] == Plain(license)
  {
    Link(base, map["edd_action" := Plain("get_download"), "item_name" := UrlEncoded(download),
                   "license" := Plain(license)])
  }

  // ---------------------------------------------------------------------------
  // is_plugin_installed
  // ---------------------------------------------------------------------------

  /** A non-empty name that is exactly the name of some installed plugin. */
  predicate Installed(plugins: seq<string>, name: string)
  {
    !Empty(name) && name in plugins
  }

  /**
   * `is_plugin_installed`: false for an empty name, otherwise a linear
   * search for an exact match that stops at the first one.
   */
  method IsPluginInstalled(plugins: seq<string>, pluginName: string) returns (found: bool)
    ensures found <==> !Empty(pluginName) && exists i :: 0 <= i < |plugins| && plugins[i] == pluginName
    ensures found == (!Empty(pluginName) && ScanAll(plugins, pluginName, false))
  {
    ScanAllFindsMember(plugins, pluginName, false);
    found := false;
    if Empty(pluginName) {
      return;
    }
    for i := 0 to |plugins|
      invariant !found
      invariant forall j :: 0 <= j < i ==> plugins[j] != pluginName
    {
      if plugins[i] == pluginName {
        found := true;
        break;
      }
    }
  }

  /**
   * The flag the same loop would end with if it never broke out early:
   * every plugin is visited and a match only ever sets the flag.
   */
  function ScanAll(plugins: seq<string>, name: string, flag: bool): bool
    decreases |plugins|
  {
    if plugins == [] then flag
    else ScanAll(plugins[1..], name, flag || plugins[0] == name)
  }

  /** Scanning the whole list ends with the flag set exactly when some name matched. */
  lemma {:induction false} ScanAllFindsMember(plugins: seq<string>, name: string, flag: bool)
    ensures ScanAll(plugins, name, flag) <==> flag || name in plugins
    decreases |plugins|
  {
    if plugins != [] {
      ScanAllFindsMember(plugins[1..], name, flag || plugins[0] == name);
      assert plugins == [plugins[0]] + plugins[1..];
    }
  }

  // ---------------------------------------------------------------------------
  // _check_download
  // ---------------------------------------------------------------------------

  /**
   * The outcome of `_check_download`: either it ends the request with
   * "Already Installed" (`die`), or it returns the download type.
   */
  datatype Classification = Halted | Type(t: Value)

  /** The download type read off the check-download response. */
  function TypeFrom(response: Response): (t: Value)
    ensures t != Null
  {
    match response
    case TransportError => Str(SERVER_ERROR)
    case Delivered(body) => if IsSet(body, "download") then Prop(body, "download") else Str(INVALID)
  }

  /** `_check_download` as a function: the installed test comes first. */
  function Classify(base: string, host: Host, download: string): (c: Classification)
    ensures c.Halted? <==> Installed(host.plugins, download)
    ensures c.Type? ==> c.t != Null
  {
    if Installed(host.plugins, download) then Halted
    else Type(TypeFrom(host.remote(CheckDownloadRequest(base, download))))
  }

  /**
   * `_check_download` step by step: the installed test, then the request,
   * then `$response` starts as 'invalid' and is overwritten on each branch.
   */
  method CheckDownload(base: string, host: Host, download: string) returns (c: Classification)
    ensures c.Halted? <==> Installed(host.plugins, download)
    ensures c.Type? ==> c == Type(TypeFrom(host.remote(CheckDownloadRequest(base, download))))
  {
    var installed := IsPluginInstalled(host.plugins, download);
    if installed {
      return Halted;
    }
    var request := host.remote(CheckDownloadRequest(base, download));
    var response := Str(INVALID);
    if !request.TransportError? {
      response := if IsSet(request.body, "download") then Prop(request.body, "download") else response;
    } else {
      response := Str(SERVER_ERROR);
    }
    c := Type(response);
  }

  // ---------------------------------------------------------------------------
  // _check_license
  // ---------------------------------------------------------------------------

  /** `$license_data->license === 'valid'` after a transport-error check. */
  predicate LicenseAccepted(response: Response)
    ensures LicenseAccepted(response) ==> response.Delivered? && "license" in response.body
  {
    response.Delivered? && Prop(response.body, "license") == Str(VALID)
  }

  /** `_check_license`: asks the server to activate the license for the download. */
  predicate CheckLicense(base: string, host: Host, license: string, download: string)
    ensures host.remote(ActivateLicenseRequest(base, license, download)).TransportError?
            ==> !CheckLicense(base, host, license, download)
    ensures CheckLicense(base, host, license, download) ==>
              var response := host.remote(ActivateLicenseRequest(base, license, download));
              response.Delivered? && "license" in response.body && response.body["license"] == Str(VALID)
  {
    LicenseAccepted(host.remote(ActivateLicenseRequest(base, license, download)))
  }

  // ---------------------------------------------------------------------------
  // install
  // ---------------------------------------------------------------------------

  /**
   * How a request to the install handler ends: the `die` in
   * `_check_download`, `wp_send_json_error`, or `wp_send_json_success`
   * carrying whatever the upgrader returned.
   */
  datatype Outcome = AlreadyInstalled | Error(message: string) | Success(installed: Value)

  /** What the handler did on the way: requests sent and upgrader calls made. */
  datatype Effect = Sent(request: Request) | RanInstaller(link: Link)

  datatype Run = Run(outcome: Outcome, effects: seq<Effect>)

  /**
   * The `install` AJAX handler. Every branch ends the request, so each
   * returns its final outcome together with everything done before it.
   */
  function Install(base: string, host: Host, post: Post): (run: Run)
    ensures run.outcome.AlreadyInstalled? <==> run.effects == []
    ensures run.effects != [] ==>
              run.effects[0] == Sent(CheckDownloadRequest(base, Posted(post, "download")))
    ensures run.outcome.Success? <==> run.effects != [] && run.effects[|run.effects| - 1].RanInstaller?
    ensures forall k :: 0 <= k < |run.effects| - 1 ==> run.effects[k].Sent?
  {
    var download := Posted(post, "download");
    var license := Posted(post, "license");
    match Classify(base, host, download)
    case Halted => Run(AlreadyInstalled, [])
    case Type(downloadType) =>
      var checked := [Sent(CheckDownloadRequest(base, download))];
      if Empty(download) || (Empty(license) && downloadType != Str(FREE)) then
        Run(Error(AN_ERROR_OCCURRED), checked)
      else if downloadType == Str(FREE) then
        var link := DownloadLink(base, download, "");
        Run(Success(host.upgrade(link)), checked + [RanInstaller(link)])
      else
        var activate := Sent(ActivateLicenseRequest(base, license, download));
        if CheckLicense(base, host, license, download) then
          var link := DownloadLink(base, download, license);
          Run(Success(host.upgrade(link)), checked + [activate, RanInstaller(link)])
        else
          Run(Error(INVALID_LICENSE), checked + [activate])
  }

  // ---------------------------------------------------------------------------
  // plugins_api
  // ---------------------------------------------------------------------------

  /**
   * The `$api` value of the `plugins_api` filter: whatever an earlier filter
   * produced, or the record this client builds.
   */
  datatype ApiValue = Given(v: Value) | Info(name: Value, version: string, downloadLink: Link)

  /** The filter applies only to plugin-information lookups the client itself started. */
  predicate Overrides(action: string, post: Post)
  {
    action == PLUGIN_INFORMATION && "edd_ri" in post
  }

  /**
   * The `plugins_api` filter: passes `api` through unless the lookup is a
   * plugin-information request marked with the posted `edd_ri` flag, in
   * which case it answers with a record pointing at the vendor's download.
   */
  function PluginsApi(base: string, api: ApiValue, action: string, args: Object, post: Post): (r: ApiValue)
    ensures !Overrides(action, post) ==> r == api
    ensures Overrides(action, post) ==> r.Info? && r.name == Prop(args, "slug") && r.version == ""
  {
    if action == PLUGIN_INFORMATION && "edd_ri" in post then
      var license := if "license" in post then UrlEncoded(post["license"]) else NullArg;
      Info(Prop(args, "slug"), "",
           Link(base, map["edd_action" := Plain("get_download"),
                          "item_name" := UrlEncoded(Posted(post, "name")),
                          "license" := license]))
    else
      api
  }
}
