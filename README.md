# EDD remote installer client — a Dafny model of its install decision

The sample client of the EDD remote installer is a WordPress plugin class,
`EDD_RI_Client`, that lets an administrator install an add-on sold from an
Easy Digital Downloads store. Its AJAX `install` handler asks the store what
kind of download a name is, checks the posted license with the store when the
download is not free, and hands a `get_download` link to WordPress's plugin
upgrader. A `plugins_api` filter answers the upgrader's plugin-information
lookup with that same kind of link.

This project models that decision logic:

- `php.dfy` (module `Php`): the PHP values the client inspects, `empty()`,
  reading a `$_POST` field and reading a property of a decoded JSON object.
- `client.dfy` (module `EddRiClient`): requests and links as parameter maps,
  `is_plugin_installed` (an imperative linear search with `break`),
  `_check_download` (as a function and, step by step, as a method),
  `_check_license`, the `install` handler and the `plugins_api` filter.
- `properties.dfy` (module `EddRiClientProperties`): the properties the
  handler and the filter keep, as lemmas.

Every collaborator is an input. A `Host` holds the installed plugin names
(`get_plugins()`), the store as a function from request to decoded response,
and the upgrader as a function from download link to whatever it returns.
`Install` returns a `Run`: the terminal outcome (`AlreadyInstalled`,
`Error(message)` or `Success(upgrader result)`) and the trace of requests sent
and upgrader calls made on the way. "No install happens" and "the license is
never checked" are therefore statements about that trace.

Points where the code decides and this model follows it:

- There is no authorization branch. The comments at lines 117 and 192 of the
  client say the user's capabilities are checked before proceeding, and
  `check_capabilities` is called at lines 83 and 193, but its result is thrown
  away both times. No outcome depends on the user's capabilities, so the
  capability check the comments describe never takes effect.
- A transport error on the download check gives the type 'Server error', and a
  body without `download` gives 'invalid'. Neither ends the request. With a
  license posted, both go on to the license check like any paid download.
- The free type is exactly the lower-case string 'free', compared with `===`.
  The license check compares the `license` property with `=== 'valid'`, so a
  JSON `true` or 'Valid' is rejected.
- `empty()` is true for "" and for "0", so a download or license of "0" counts
  as missing, and a plugin named "0" is never found as installed.
- The emptiness check on the posted fields runs after `_check_download`. An
  empty download name is still sent to the store before the handler answers
  "An Error Occurred".

## Model

| member | source | states |
|---|---|---|
| `Php.Posted` | sample-client/includes/class-EDD_RI_Client.php:85-86 | a posted field reads as its value; an unposted field reads as "" (what PHP's null becomes in every use here) |
| `Php.Empty` | sample-client/includes/class-EDD_RI_Client.php:93 | PHP's `empty()` on a string holds only for "" and "0": at most one character, and that character is '0' |
| `EddRiClientProperties.OnlyBlankAndZeroAreEmpty` | sample-client/includes/class-EDD_RI_Client.php:238-240 | "" and "0" are empty; "00", " ", "0.0", "false" and "null" are not |
| `EddRiClient.IsPluginInstalled` | sample-client/includes/class-EDD_RI_Client.php:234-252 | the search with `break` answers true exactly when the name is non-empty and some installed plugin has exactly that name, and exactly when the full scan without `break` ends with the flag set |
| `EddRiClient.ScanAllFindsMember` | sample-client/includes/class-EDD_RI_Client.php:242-249 | the loop run to the end without `break` ends with the flag set exactly when it started set or some name matched |
| `EddRiClientProperties.BreakDoesNotChangeResult` | sample-client/includes/class-EDD_RI_Client.php:236-251 | stopping at the first match gives the same answer as scanning the whole list |
| `EddRiClient.TypeFrom` | sample-client/includes/class-EDD_RI_Client.php:211-224 | the download type is never null |
| `EddRiClientProperties.TypeFromCases` | sample-client/includes/class-EDD_RI_Client.php:211-224 | 'Server error' on a transport error; the body's `download` value when set; 'invalid' otherwise |
| `EddRiClient.CheckDownloadRequest` | sample-client/includes/class-EDD_RI_Client.php:199-209 | the check_download request is a POST to the base URL whose body holds exactly the check_download action and the url-encoded name |
| `EddRiClient.Classify` | sample-client/includes/class-EDD_RI_Client.php:191-225 | halts exactly when the name is installed; otherwise the type it returns is never null |
| `EddRiClient.CheckDownload` | sample-client/includes/class-EDD_RI_Client.php:191-225 | halts exactly when the name is installed; otherwise returns the type read off the store's answer to the check_download request |
| `EddRiClientProperties.InstalledHaltsBeforeRequest` | sample-client/includes/class-EDD_RI_Client.php:195-197 | an installed name halts whatever the store would answer |
| `EddRiClient.ActivateLicenseRequest` | sample-client/includes/class-EDD_RI_Client.php:133-142 | the activate_license request is a GET on the base URL with exactly the action, the license as posted (not url-encoded) and the url-encoded name |
| `EddRiClient.LicenseAccepted` | sample-client/includes/class-EDD_RI_Client.php:145-152 | an accepted response was delivered and has a `license` property |
| `EddRiClient.CheckLicense` | sample-client/includes/class-EDD_RI_Client.php:131-154 | a transport error on the activate_license request gives false; true only when the answer to that request has `license` equal to the string 'valid' |
| `EddRiClientProperties.LicenseAcceptedOnlyValid` | sample-client/includes/class-EDD_RI_Client.php:145-152 | the license passes exactly when the response arrived and its `license` property is the string 'valid'; fails closed otherwise |
| `EddRiClientProperties.LicenseComparisonIsStrict` | sample-client/includes/class-EDD_RI_Client.php:152 | examples of values the strict comparison rejects: true, false, three other spellings of 'valid', null and a non-string value |
| `EddRiClient.Install` | sample-client/includes/class-EDD_RI_Client.php:82-114 | only "already installed" sends nothing; otherwise check_download is sent first; success exactly when the last step ran the upgrader; the upgrader never runs before a later request |
| `EddRiClientProperties.AlreadyInstalledWins` | sample-client/includes/class-EDD_RI_Client.php:195-197 | an installed name ends in AlreadyInstalled with nothing sent, whatever the license |
| `EddRiClientProperties.EmptyDownloadIsError` | sample-client/includes/class-EDD_RI_Client.php:85-95 | an empty download name is "An Error Occurred" after only the check_download request |
| `EddRiClientProperties.EmptyLicenseForPaidIsError` | sample-client/includes/class-EDD_RI_Client.php:93-95 | no license and a type other than 'free' is "An Error Occurred"; no license check and no install |
| `EddRiClientProperties.FreeInstallsWithoutLicense` | sample-client/includes/class-EDD_RI_Client.php:100-103 | a free download is installed from a link with an empty license, without a license check, and succeeds with whatever the upgrader returned |
| `EddRiClientProperties.FreeIgnoresLicense` | sample-client/includes/class-EDD_RI_Client.php:100-103 | for a free download neither the posted license nor the store's answers to license requests change the run |
| `EddRiClientProperties.PaidInstallsIffLicenseValid` | sample-client/includes/class-EDD_RI_Client.php:108-113 | a paid download with a license is installed with that license exactly when the store accepts it, else "Invalid License" with no install |
| `EddRiClientProperties.ServerErrorGoesOnToLicenseCheck` | sample-client/includes/class-EDD_RI_Client.php:88-113 | a transport error on the download check does not end the request: with a license posted, the license check is sent |
| `EddRiClientProperties.InstallOnlyWhenAuthorized` | sample-client/includes/class-EDD_RI_Client.php:82-114 | the upgrader runs on a link exactly when the name is non-empty and not installed, and either the type is 'free' (empty license) or a posted license was accepted (that license) |
| `EddRiClientProperties.SuccessIsUpgraderResult` | sample-client/includes/class-EDD_RI_Client.php:100-113 | success exactly when some link is authorized, and it carries the upgrader's result for that link |
| `EddRiClient.DownloadLink` | sample-client/includes/class-EDD_RI_Client.php:166-172 | the upgrader's link is on the base URL with exactly the get_download action, the url-encoded name and the license as given (not url-encoded) |
| `EddRiClientProperties.DownloadLinkInjective` | sample-client/includes/class-EDD_RI_Client.php:166-172 | a fact about the parameter-map representation: name and license are separate parameters, so the map determines both; it says nothing about the rendered URL |
| `EddRiClient.PluginsApi` | sample-client/includes/class-EDD_RI_Client.php:46-75 | returns `$api` unchanged unless the action is plugin_information and `edd_ri` is posted; then a record named after the slug with an empty version |
| `EddRiClientProperties.PluginsApiBuildsRecord` | sample-client/includes/class-EDD_RI_Client.php:48-71 | the record's link has exactly the parameters edd_action=get_download, the url-encoded posted name, and the url-encoded posted license or null |
| `EddRiClientProperties.FreeScenario` | sample-client/includes/class-EDD_RI_Client.php:100-103 | "Acme Toolkit" reported free is installed from a link with item_name "Acme Toolkit" and an empty license |
| `EddRiClientProperties.PaidScenario` | sample-client/includes/class-EDD_RI_Client.php:108-113 | "Acme Pro" with license "ABC123" is installed with that license when the store says 'valid', and is "Invalid License" otherwise |

## Left out

- Hook registration in the constructor and `client_admin` (lines 16-34): framework wiring, no decision logic.
- `trailingslashit` in the constructor: the base URL is taken as already normalised and passed to every operation as `base`.
- The rendering of links and bodies by `add_query_arg`, `esc_url` and `urlencode`: a link is a base URL and a parameter map, and each value records whether it was passed as is, url-encoded or null. `esc_url` on the `plugins_api` link is not recorded.
- The HTTP transport (`wp_remote_post`, `wp_remote_get`, the 15-second timeout, disabled certificate checks): the store is a function from request to response.
- `json_decode` and `maybe_unserialize`: a delivered body is already a decoded object. A body that does not decode to an object has no properties. A serialized PHP string inside the JSON is not unserialized.
- `Plugin_Upgrader`, `Plugin_Installer_Skin` and the include of the upgrader file (lines 174-181): the upgrader is a function of the download link whose result is opaque.
- `check_capabilities` (lines 119-121): its result is discarded at both call sites, so it has no effect on any outcome.
- The output itself: the JSON envelopes of `wp_send_json_success` / `wp_send_json_error` and the JSON-encoded text printed by `die`. Only which outcome ends the request is modelled.
- Translation by `__()`: the two error messages are fixed strings.
- Posted fields are taken to be strings. Array-valued fields (`download[]=x`) are not modelled; such a field makes `is_plugin_installed` answer false, and `urlencode` fails on it at line 201, ending the request in a way no `Outcome` expresses.
- `get_plugins()` returns full plugin headers; only the `Name` of each plugin is kept.
