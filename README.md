# UptimeRobot API client, modelled in Dafny

`uptimerobot.class.php` is a small PHP client for the UptimeRobot monitoring
service. An `UptimeRobot` object holds an API key and a response format
(`"json"` unless set otherwise). Five operations each check their arguments
in a fixed order and throw coded exceptions. The operations are
getMonitors, newMonitor, editMonitor, deleteMonitor and getAlertContacts.
Each one that passes its checks builds a request URL under
`http://api.uptimerobot.com` by appending `&name=value` pieces, adds the
format parameters, and makes one GET request. The result is returned
according to the format: the raw body for `xml`, the body decoded as JSON
for `json`, and an exception (thrown after the request) for anything else.

The model has six modules:

- `Wrappers`: `Option`.
- `Text`: PHP `implode`/`explode` on one character, integer-to-decimal
  rendering and reading it back.
- `UrlEncoding`: PHP `urlencode`/`urldecode`, with a character standing for
  its UTF-8 bytes.
- `Query`: a request as a path plus an ordered list of parameters. It
  defines the URL a request is written as (`Render`), how a URL is read
  back (`ParseUrl`), and the first value of a named parameter (`Lookup`).
- `UptimeRobotApi`: the exceptions and their codes, the parameter array of
  newMonitor/editMonitor as a record of optional strings, the parameter
  list each operation sends (as functions), and the class `UptimeRobot`.
  The class methods build the URL with successive appends, as the PHP
  does, and are proved to produce `Render` of the operation's parameter
  list.
- `ApiProperties`: which parameters each operation sends, with which
  values, and that every URL parses back under `ParseUrl` as those
  parameters.

An operation's result is an `Outcome`:

- `Refused(e)` means it threw `e` before any request was made.
- `Sent(url, reply)` means it requested `url` once, then returned `reply`,
  or threw the invalid-format exception.

`Error.Code()` gives the exception codes:

- 1: a value was not specified.
- 2: the API key is not set.
- 3: a required monitor key is missing.
- 0: invalid format.

PHP's `empty` is modelled as it behaves on strings, so `""` and `"0"` are
both empty. `isset` is true for any value that is present, `""`
included.

Behaviours of the code worth knowing:

- A failed cURL request does not raise an error. Its `false` result is
  returned or decoded like a body.
- editMonitor does not check its monitor id.
- getAlertContacts does not check the API key.
- newMonitor sends the monitor URL without encoding it.

## Model

| member | source | states |
|---|---|---|
| UptimeRobotApi.UptimeRobot.constructor | uptimerobot.class.php:5-19 | the key is the one given (null by default) and the format starts as `"json"` |
| UptimeRobotApi.UptimeRobot.GetApiKey | uptimerobot.class.php:25-28 | returns the stored key |
| UptimeRobotApi.UptimeRobot.SetApiKey | uptimerobot.class.php:35-41 | an empty key (`""` or `"0"`) throws code 1 and leaves the key as it was; otherwise the key is stored; the format never changes |
| UptimeRobotApi.UptimeRobot.GetFormat | uptimerobot.class.php:47-50 | returns the stored format |
| UptimeRobotApi.UptimeRobot.SetFormat | uptimerobot.class.php:57-63 | an empty format throws code 1 and leaves the format as it was; otherwise any value is stored unchecked; the key never changes |
| UptimeRobotApi.UptimeRobot.Fetch | uptimerobot.class.php:70-91 | an empty URL throws code 1 before any request; otherwise the URL is requested and the result is the raw body for `xml`, the decoded body for `json`, and the invalid-format exception for any other format |
| UptimeRobotApi.UptimeRobot.AppendFormatToUrl | uptimerobot.class.php:93-99 | the result is the URL followed by `&` and the query string of the format parameters: `format=<format>`, then `&noJsonCallback=1` exactly when the format is `"json"`; the input is a strict prefix of the result |
| UptimeRobotApi.FormatQuery | uptimerobot.class.php:94-97 | the format parameters are written as `format=<format>` plus `&noJsonCallback=1` exactly for `"json"` |
| UptimeRobotApi.UptimeRobot.GetMonitors | uptimerobot.class.php:110-121 | without a key it throws code 2 and sends nothing; otherwise it sends exactly the URL of `apiKey`, `monitors` (ids joined by `-`, only when there are ids), `logs`, `alertContacts` and the format parameters, and returns by format |
| UptimeRobotApi.UptimeRobot.NewMonitor | uptimerobot.class.php:138-166 | an empty friendly name, URL or type throws code 3, which wins over a missing key (code 2); otherwise it sends exactly the URL of the key, the three required values (friendly name encoded), each optional key that is set, and the format parameters |
| UptimeRobotApi.UptimeRobot.EditMonitor | uptimerobot.class.php:187-214 | an empty parameter array throws code 1 before the key check (code 2); otherwise it sends exactly the URL of the key, the monitor id, each of the ten keys that is set, and the format parameters |
| UptimeRobotApi.UptimeRobot.DeleteMonitor | uptimerobot.class.php:221-234 | an empty id throws code 1 before the key check (code 2); otherwise it sends exactly the URL of the key, the id and the format parameters |
| UptimeRobotApi.UptimeRobot.GetAlertContacts | uptimerobot.class.php:239-243 | always sends a request, even without a key (an unset key is sent as the empty string), with the key and the format parameters |
| UptimeRobotApi.AppendParam | uptimerobot.class.php:152 | appending `&name=value` to the URL of a request gives the URL of that request with the parameter added last |
| UptimeRobotApi.AppendField | uptimerobot.class.php:155 | an `isset` line adds its parameter exactly when the key is set, URL-encoded when the field is one the client encodes |
| UptimeRobotApi.AppendPlainOptionalFields | uptimerobot.class.php:155-157 | subtype, port and keyword type are each added, as given, exactly when set, in that order |
| UptimeRobotApi.AppendEncodedOptionalFields | uptimerobot.class.php:158-161 | keyword value, HTTP user name, HTTP password and alert contacts are each added, URL-encoded, exactly when set, in that order |
| UptimeRobotApi.AppendOptionalFields | uptimerobot.class.php:155-161 | the seven optional keys add their parameters in the fixed order subtype, port, keyword type, keyword value, HTTP user name, HTTP password, alert contacts |
| UptimeRobotApi.AppendRequiredFields | uptimerobot.class.php:200-202 | editMonitor's friendly name, URL and type are each added only when set |
| UptimeRobotApi.AppendMonitorFields | uptimerobot.class.php:200-209 | editMonitor adds all ten keys that are set, in order |
| UptimeRobotApi.FieldsAppend | uptimerobot.class.php:200-209 | the parameters of two runs of `isset` lines are those of the first run followed by those of the second |
| Query.Render | uptimerobot.class.php:115 | every request URL starts with the service address and is longer than it |
| Query.RenderAppend | uptimerobot.class.php:116-118 | adding parameters to a request adds `&` and their pairs to its URL |
| Query.RenderNext | uptimerobot.class.php:117 | adding one parameter adds `&name=value` |
| Query.ParseRender | uptimerobot.class.php:115-118 | a URL whose names are plain and whose values hold no `&` parses back under `ParseUrl` as its request |
| Query.LookupAppend | uptimerobot.class.php:116-118 | a parameter found in the first part of a query shadows any later one |
| Text.SplitImplode | uptimerobot.class.php:116 | splitting at `-` the ids joined by `-` gives the ids back when no id holds `-` |
| Text.ImplodeFree | uptimerobot.class.php:116 | joining ids that hold no `&` gives a value without `&` |
| Text.IntToStringRoundTrip | uptimerobot.class.php:117 | the decimal text PHP writes for an integer reads back as that integer |
| UrlEncoding.UrlEncode | uptimerobot.class.php:151 | every character of an encoded value is a letter, a digit, `-`, `_`, `.`, `+` or `%` |
| UrlEncoding.DecodeEncode | uptimerobot.class.php:151 | decoding an encoded value gives back the value's bytes |
| UrlEncoding.DecodePercent | uptimerobot.class.php:151 | bytes written as `%XY` decode back to those bytes |
| UrlEncoding.EncodeUnreserved | uptimerobot.class.php:158 | a value made only of letters, digits and `-_.` is sent unchanged |
| ApiProperties.LookupFields | uptimerobot.class.php:200-209 | among fields with distinct names, a field's name finds its written value when set and nothing when unset |
| ApiProperties.EditMonitorField | uptimerobot.class.php:198-211 | each of the ten keys is present in an editMonitor request exactly when it is set |
| ApiProperties.EditMonitorSendsKeys | uptimerobot.class.php:200-209 | editMonitor sends each key that is set and none that is not; friendly name, keyword value, HTTP user name, HTTP password and alert contacts are encoded, the rest are sent as given |
| ApiProperties.EditMonitorSendsHead | uptimerobot.class.php:198-211 | editMonitor sends the key, the monitor id, the format, and `noJsonCallback=1` exactly for JSON |
| ApiProperties.RequiredFields | uptimerobot.class.php:151-153 | once they pass the check, the three required keys are written as editMonitor writes them when set |
| ApiProperties.NewMonitorAsEdit | uptimerobot.class.php:149-163 | once its required keys pass, newMonitor sends the same keys in the same order and encoding as editMonitor, minus the monitor id |
| ApiProperties.NewMonitorSends | uptimerobot.class.php:149-163 | newMonitor sends the key, the three required values (friendly name encoded), each optional key exactly when set (the last four encoded), and the format parameters |
| ApiProperties.NewMonitorReadBack | uptimerobot.class.php:149-165 | the newMonitor URL parses back under `ParseUrl` as its parameters when no value sent unencoded holds `&` |
| ApiProperties.NewMonitorFriendlyName | uptimerobot.class.php:151 | the friendly name the service decodes from a newMonitor request is the given one, byte for byte |
| ApiProperties.EditMonitorReadBack | uptimerobot.class.php:198-213 | the editMonitor URL parses back under `ParseUrl` as its parameters under the same proviso |
| ApiProperties.LookupFormat | uptimerobot.class.php:93-99 | the format parameters carry the format, and `noJsonCallback` only for JSON |
| ApiProperties.GetMonitorsSends | uptimerobot.class.php:115-118 | getMonitors sends the key, the joined ids exactly when there are ids, both flags in decimal, and the format parameters |
| ApiProperties.GetMonitorsReadBack | uptimerobot.class.php:115-120 | the getMonitors URL parses back under `ParseUrl` as its parameters; the flags read back as the integers given, and the ids as the list given when none holds `-` |
| ApiProperties.DeleteMonitorSends | uptimerobot.class.php:230-231 | deleteMonitor sends the key, the id and the format parameters |
| ApiProperties.DeleteMonitorReadBack | uptimerobot.class.php:230-233 | the deleteMonitor URL parses back under `ParseUrl` as its parameters when key, id and format hold no `&` |
| ApiProperties.AlertContactsSends | uptimerobot.class.php:240-241 | getAlertContacts sends the key, empty or not, and the format parameters |
| ApiProperties.AlertContactsReadBack | uptimerobot.class.php:240-242 | the getAlertContacts URL parses back under `ParseUrl` as its parameters when key and format hold no `&` |
| ApiProperties.EncodedDelimits | uptimerobot.class.php:151 | an encoded value never holds `&`, so it cannot split a query string |
| ApiProperties.FieldsDelimited | uptimerobot.class.php:155-161 | fields with plain names whose unencoded values hold no `&` give plain parameters |
| ApiProperties.IntToStringDelimits | uptimerobot.class.php:117 | a decimal integer never holds `&` |

## Left out

- The HTTP transport is not modelled: `curl_init`/`curl_setopt`/`curl_exec`/`curl_close`, the 10-second connect timeout, and the body returned. A sent request is identified by its URL. The reply is named as the body for that URL, raw or decoded, without being computed.
- `json_decode` is not modelled. The decoded body is named but not computed, so a malformed body decoding to null is not represented.
- `extract($params)` is replaced by a record of the ten keys the client reads. A `monitorId` key in the array of editMonitor, which would shadow the monitor id argument, is not modelled. The record's `otherEntries` flag stands for every entry the ten keys do not show; it only matters to the emptiness check of editMonitor.
- PHP type juggling beyond strings is not modelled. Monitor values are strings, and the `logs`/`alertContacts` flags are integers. Booleans, which PHP writes as `"1"`/`""`, and arrays passed where strings are expected are not covered.
- The message texts of the exceptions are not modelled; an exception is identified by its kind, its code and the argument or property it names.
- The `$json_encap` field is not modelled; nothing in the class reads it.
- Arguments the PHP signatures leave optional (`$monitors = array()`, `$logs = 0`, `$params = array()`, `$apiKey = null`) are always passed explicitly in the model.
- `UptimeRobotApi.UptimeRobot.SetApiKey`: a null key is treated like `""`. The model's key argument is a string, so it cannot be null.
- `UptimeRobotApi.UptimeRobot.Fetch`: the empty-URL guard is modelled, but no operation reaches it, because every URL an operation builds starts with the service address.
- `ApiProperties.GetMonitorsReadBack`: the ids are recovered only when no id holds `-`. An id holding `-` is joined ambiguously by the client itself.
- `Query.ParseRender`: read-back is proved only for values without `&`, and only against `ParseUrl`, which cuts the query at `&` and the first `=` and does nothing else. The client sends the monitor URL, type, subtype, port, keyword type, API key, monitor id and format unencoded. Such a value holding `&` is split by the service. One holding `#` starts a URL fragment, which is never sent, so every parameter after it is lost. One holding `+` or `%XY` is URL-decoded by the service into a different string. `ParseUrl` models none of these three effects.
