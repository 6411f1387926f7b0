/** The UptimeRobot API client: its configuration (API key and response
    format), the five operations that check their arguments and build a
    request URL, and the dispatch on the response format.

    The HTTP round trip itself is not modelled: an operation that gets as
    far as sending reports the URL it sent, and what it returns is named
    by a `Reply` (the body the service sent back for that URL, as it is or
    decoded as JSON) or by the error thrown after the request. */
module UptimeRobotApi {
  import opened Wrappers
  import opened Text
  import opened UrlEncoding
  import opened Query

  /** The exceptions the client throws. */
  datatype Error =
    | ValueNotSpecified(what: string)  // an argument is empty
    | PropertyNotSet(what: string)     // the API key is not set
    | RequiredKeyMissing               // newMonitor lacks a required key
    | InvalidFormat                    // the format is neither xml nor json
  {
    /** The exception code the client passes with each kind. */
    function Code(): nat
    {
      match this
      case ValueNotSpecified(_) => 1
      case PropertyNotSet(_) => 2
      case RequiredKeyMissing => 3
      case InvalidFormat => 0
    }
  }

  datatype Result<T> = Ok(value: T) | Fail(error: Error)

  /** What a request returns: the response body unchanged (format "xml"),
      or that body decoded as a JSON associative array (format "json"). */
  datatype Reply = RawBody | DecodedBody

  /** What one call of an operation did. `Refused`: it threw before any
      request was made. `Sent`: it requested `url` once, and then returned
      the reply or threw. */
  datatype Outcome =
    | Refused(error: Error)
    | Sent(url: string, reply: Result<Reply>)

  /** The parameter array of newMonitor and editMonitor: the ten keys the
      client reads (`None`: not set, or set to null), and whether the array
      holds any entry those ten do not show (another key, or one of them
      set to null). */
  datatype MonitorParams = MonitorParams(
    friendlyName: Option<string>,
    url: Option<string>,
    monitorType: Option<string>,
    subType: Option<string>,
    port: Option<string>,
    keywordType: Option<string>,
    keywordValue: Option<string>,
    httpUsername: Option<string>,
    httpPassword: Option<string>,
    alertContacts: Option<string>,
    otherEntries: bool)

  /** PHP's `empty` on a string: "" and "0" are empty. */
  predicate EmptyText(s: string)
  {
    s == "" || s == "0"
  }

  /** PHP's `empty` on a variable or array entry that may be unset or null. */
  predicate Empty(v: Option<string>)
  {
    v.None? || EmptyText(v.value)
  }

  /** PHP's `empty` on the parameter array: it has no entry at all. */
  predicate NoParams(p: MonitorParams)
  {
    p.friendlyName.None? && p.url.None? && p.monitorType.None? && p.subType.None? &&
    p.port.None? && p.keywordType.None? && p.keywordValue.None? &&
    p.httpUsername.None? && p.httpPassword.None? && p.alertContacts.None? && !p.otherEntries
  }

  /** newMonitor's requirement on its three keys. */
  predicate MissingRequired(p: MonitorParams)
  {
    Empty(p.friendlyName) || Empty(p.url) || Empty(p.monitorType)
  }

  /** One optional query parameter: its name, the value of its key, and
      whether the value is URL-encoded before it is sent. */
  datatype FieldSpec = FieldSpec(name: string, value: Option<string>, encoded: bool)

  /** The value a field puts in the URL, if it is set. */
  function Written(f: FieldSpec): Option<string>
  {
    if f.encoded then EncodedOpt(f.value) else f.value
  }

  /** A value as it is sent when the client URL-encodes it. */
  function EncodedOpt(v: Option<string>): Option<string>
  {
    if v.Some? then Some(UrlEncode(v.value)) else None
  }

  /** The parameter a field adds: one when its key is set, none otherwise. */
  function Field(f: FieldSpec): seq<Param>
  {
    if f.value.Some? then [Param(f.name, Written(f).value)] else []
  }

  /** The parameters of a list of fields, in list order. */
  function Fields(fs: seq<FieldSpec>): seq<Param>
  {
    if |fs| == 0 then [] else Fields(fs[..|fs| - 1]) + Field(fs[|fs| - 1])
  }

  lemma {:induction false} FieldsAppend(fs: seq<FieldSpec>, gs: seq<FieldSpec>)
    ensures Fields(fs + gs) == Fields(fs) + Fields(gs)
  {
    if |gs| > 0 {
      var all := fs + gs;
      assert all[..|all| - 1] == fs + gs[..|gs| - 1];
      FieldsAppend(fs, gs[..|gs| - 1]);
    } else {
      assert fs + gs == fs;
    }
  }

  /** The three keys newMonitor requires, as editMonitor sends them. */
  function RequiredSpecs(p: MonitorParams): seq<FieldSpec>
  {
    [FieldSpec("monitorFriendlyName", p.friendlyName, true),
     FieldSpec("monitorURL", p.url, false),
     FieldSpec("monitorType", p.monitorType, false)]
  }

  /** The optional keys sent as given, in the order both operations send
      them. */
  function PlainOptionalSpecs(p: MonitorParams): seq<FieldSpec>
  {
    [FieldSpec("monitorSubType", p.subType, false),
     FieldSpec("monitorPort", p.port, false),
     FieldSpec("monitorKeywordType", p.keywordType, false)]
  }

  /** The optional keys sent URL-encoded, following the plain ones. */
  function EncodedOptionalSpecs(p: MonitorParams): seq<FieldSpec>
  {
    [FieldSpec("monitorKeywordValue", p.keywordValue, true),
     FieldSpec("monitorHTTPUsername", p.httpUsername, true),
     FieldSpec("monitorHTTPPassword", p.httpPassword, true),
     FieldSpec("monitorAlertContacts", p.alertContacts, true)]
  }

  /** The optional keys, in the order both operations send them. */
  function OptionalSpecs(p: MonitorParams): seq<FieldSpec>
  {
    PlainOptionalSpecs(p) + EncodedOptionalSpecs(p)
  }

  function MonitorSpecs(p: MonitorParams): seq<FieldSpec>
  {
    RequiredSpecs(p) + OptionalSpecs(p)
  }

  /** The parameters every request ends with. */
  function FormatParams(format: string): seq<Param>
  {
    [Param("format", format)] + if format == "json" then [Param("noJsonCallback", "1")] else []
  }

  /** What a sent request returns for each format. */
  function Dispatch(format: string): Result<Reply>
  {
    if format == "xml" then Ok(RawBody)
    else if format == "json" then Ok(DecodedBody)
    else Fail(InvalidFormat)
  }

  function GetMonitorsQuery(key: string, monitors: seq<string>, logs: int, alertContacts: int, format: string): seq<Param>
  {
    [Param("apiKey", key)]
    + (if |monitors| > 0 then [Param("monitors", Implode('-', monitors))] else [])
    + [Param("logs", IntToString(logs)), Param("alertContacts", IntToString(alertContacts))]
    + FormatParams(format)
  }

  function NewMonitorQuery(key: string, p: MonitorParams, format: string): seq<Param>
  {
    [Param("apiKey", key),
     Param("monitorFriendlyName", UrlEncode(p.friendlyName.GetOr(""))),
     Param("monitorURL", p.url.GetOr("")),
     Param("monitorType", p.monitorType.GetOr(""))]
    + Fields(OptionalSpecs(p))
    + FormatParams(format)
  }

  function EditMonitorQuery(key: string, monitorId: string, p: MonitorParams, format: string): seq<Param>
  {
    [Param("apiKey", key), Param("monitorID", monitorId)]
    + Fields(MonitorSpecs(p))
    + FormatParams(format)
  }

  function DeleteMonitorQuery(key: string, monitorId: string, format: string): seq<Param>
  {
    [Param("apiKey", key), Param("monitorID", monitorId)] + FormatParams(format)
  }

  function AlertContactsQuery(key: string, format: string): seq<Param>
  {
    [Param("apiKey", key)] + FormatParams(format)
  }

  /** The query string of the format parameters. */
  lemma FormatQuery(format: string)
    ensures QueryString(FormatParams(format)) ==
      "format=" + format + if format == "json" then "&noJsonCallback=1" else ""
  {
    assert Pair(Param("format", format)) == "format=" + format by {
      assert "format" + "=" == "format=";
    }
    if format == "json" {
      assert Pair(Param("noJsonCallback", "1")) == "noJsonCallback=1";
      assert Pairs(FormatParams(format)) == ["format=" + format, "noJsonCallback=1"];
      assert ["format=" + format, "noJsonCallback=1"][1..] == ["noJsonCallback=1"];
      assert Implode('&', ["format=" + format, "noJsonCallback=1"]) == "format=" + format + ['&'] + "noJsonCallback=1";
      assert "format=" + format + ['&'] + "noJsonCallback=1" == "format=" + format + "&noJsonCallback=1";
    } else {
      assert Pairs(FormatParams(format)) == ["format=" + format];
    }
  }

  /** Adding field `k` after the parameters of the fields before it gives
      the parameters of the fields up to `k`. */
  lemma FieldsStep(ps: seq<Param>, fs: seq<FieldSpec>, k: nat)
    requires k < |fs|
    ensures ps + Fields(fs[..k]) + Field(fs[k]) == ps + Fields(fs[..k + 1])
  {
    assert fs[..k + 1][..k] == fs[..k];
  }

  /** One `$url .= "&name=" . $value` line: the URL of a request grows
      by one parameter. */
  method AppendParam(url: string, p: Param, ghost req: Request) returns (r: string)
    requires |req.params| >= 1 && url == Render(req)
    ensures r == Render(Request(req.path, req.params + [p]))
  {
    r := url + "&" + p.name + "=" + p.value;
    RenderNext(req.path, req.params, p);
  }

  /** One `if (isset($key)) $url .= ...` line: the parameter is added
      exactly when the key is set, its value URL-encoded when the field
      says so. */
  method AppendField(url: string, f: FieldSpec, ghost req: Request) returns (r: string)
    requires |req.params| >= 1 && url == Render(req)
    ensures r == Render(Request(req.path, req.params + Field(f)))
  {
    r := url;
    if f.value.Some? {
      var v := if f.encoded then UrlEncode(f.value.value) else f.value.value;
      r := AppendParam(url, Param(f.name, v), req);
    } else {
      assert req.params + Field(f) == req.params;
    }
  }

  /** The three `if (isset(...))` lines for subtype, port and keyword
      type, whose values are sent as given. */
  method AppendPlainOptionalFields(url: string, p: MonitorParams, ghost req: Request) returns (r: string)
    requires |req.params| >= 1 && url == Render(req)
    ensures r == Render(Request(req.path, req.params + Fields(PlainOptionalSpecs(p))))
  {
    ghost var path, ps, fs := req.path, req.params, PlainOptionalSpecs(p);
    assert ps + Fields(fs[..0]) == ps;
    r := AppendField(url, FieldSpec("monitorSubType", p.subType, false), Request(path, ps + Fields(fs[..0])));
    assert r == Render(Request(path, ps + Fields(fs[..1]))) by { FieldsStep(ps, fs, 0); }
    r := AppendField(r, FieldSpec("monitorPort", p.port, false), Request(path, ps + Fields(fs[..1])));
    assert r == Render(Request(path, ps + Fields(fs[..2]))) by { FieldsStep(ps, fs, 1); }
    r := AppendField(r, FieldSpec("monitorKeywordType", p.keywordType, false), Request(path, ps + Fields(fs[..2])));
    assert r == Render(Request(path, ps + Fields(fs[..3]))) by { FieldsStep(ps, fs, 2); }
    assert fs[..3] == fs;
  }

  /** The four `if (isset(...))` lines for keyword value, HTTP user name,
      HTTP password and alert contacts, whose values are URL-encoded. */
  method AppendEncodedOptionalFields(url: string, p: MonitorParams, ghost req: Request) returns (r: string)
    requires |req.params| >= 1 && url == Render(req)
    ensures r == Render(Request(req.path, req.params + Fields(EncodedOptionalSpecs(p))))
  {
    ghost var path, ps, fs := req.path, req.params, EncodedOptionalSpecs(p);
    assert ps + Fields(fs[..0]) == ps;
    r := AppendField(url, FieldSpec("monitorKeywordValue", p.keywordValue, true), Request(path, ps + Fields(fs[..0])));
    assert r == Render(Request(path, ps + Fields(fs[..1]))) by { FieldsStep(ps, fs, 0); }
    r := AppendField(r, FieldSpec("monitorHTTPUsername", p.httpUsername, true), Request(path, ps + Fields(fs[..1])));
    assert r == Render(Request(path, ps + Fields(fs[..2]))) by { FieldsStep(ps, fs, 1); }
    r := AppendField(r, FieldSpec("monitorHTTPPassword", p.httpPassword, true), Request(path, ps + Fields(fs[..2])));
    assert r == Render(Request(path, ps + Fields(fs[..3]))) by { FieldsStep(ps, fs, 2); }
    r := AppendField(r, FieldSpec("monitorAlertContacts", p.alertContacts, true), Request(path, ps + Fields(fs[..3])));
    assert r == Render(Request(path, ps + Fields(fs[..4]))) by { FieldsStep(ps, fs, 3); }
    assert fs[..4] == fs;
  }

  /** The seven `if (isset(...))` lines that newMonitor and editMonitor
      share: each optional key that is set adds its parameter, in a fixed
      order. */
  method AppendOptionalFields(url: string, p: MonitorParams, ghost req: Request) returns (r: string)
    requires |req.params| >= 1 && url == Render(req)
    ensures r == Render(Request(req.path, req.params + Fields(OptionalSpecs(p))))
  {
    ghost var ps, plain, encoded := req.params, Fields(PlainOptionalSpecs(p)), Fields(EncodedOptionalSpecs(p));
    ghost var mid := Request(req.path, ps + plain);
    r := AppendPlainOptionalFields(url, p, req);
    assert r == Render(mid);
    r := AppendEncodedOptionalFields(r, p, mid);
    assert mid.params + encoded == ps + Fields(OptionalSpecs(p)) by {
      FieldsAppend(PlainOptionalSpecs(p), EncodedOptionalSpecs(p));
      assert ps + plain + encoded == ps + (plain + encoded);
    }
  }

  /** The first three `if (isset(...))` lines of editMonitor: the keys
      newMonitor requires, each sent only when it is set. */
  method AppendRequiredFields(url: string, p: MonitorParams, ghost req: Request) returns (r: string)
    requires |req.params| >= 1 && url == Render(req)
    ensures r == Render(Request(req.path, req.params + Fields(RequiredSpecs(p))))
  {
    ghost var path, ps, fs := req.path, req.params, RequiredSpecs(p);
    assert ps + Fields(fs[..0]) == ps;
    r := AppendField(url, FieldSpec("monitorFriendlyName", p.friendlyName, true), Request(path, ps + Fields(fs[..0])));
    assert r == Render(Request(path, ps + Fields(fs[..1]))) by { FieldsStep(ps, fs, 0); }
    r := AppendField(r, FieldSpec("monitorURL", p.url, false), Request(path, ps + Fields(fs[..1])));
    assert r == Render(Request(path, ps + Fields(fs[..2]))) by { FieldsStep(ps, fs, 1); }
    r := AppendField(r, FieldSpec("monitorType", p.monitorType, false), Request(path, ps + Fields(fs[..2])));
    assert r == Render(Request(path, ps + Fields(fs[..3]))) by { FieldsStep(ps, fs, 2); }
    assert fs[..3] == fs;
  }

  /** The ten `if (isset(...))` lines of editMonitor: every key that is
      set adds its parameter, the three keys newMonitor requires first. */
  method AppendMonitorFields(url: string, p: MonitorParams, ghost req: Request) returns (r: string)
    requires |req.params| >= 1 && url == Render(req)
    ensures r == Render(Request(req.path, req.params + Fields(MonitorSpecs(p))))
  {
    ghost var ps, required, optional := req.params, Fields(RequiredSpecs(p)), Fields(OptionalSpecs(p));
    r := AppendRequiredFields(url, p, req);
    r := AppendOptionalFields(r, p, Request(req.path, ps + required));
    assert ps + required + optional == ps + Fields(MonitorSpecs(p)) by {
      FieldsAppend(RequiredSpecs(p), OptionalSpecs(p));
      assert ps + required + optional == ps + (required + optional);
    }
  }

  class UptimeRobot {
    /** The API key; null until one is given. */
    var apiKey: Option<string>
    /** The response format asked for: "json" by default. */
    var format: string

    constructor (apiKey: Option<string>)
      ensures this.apiKey == apiKey && format == "json"
    {
      this.apiKey := apiKey;
      format := "json";
    }

    method GetApiKey() returns (key: Option<string>)
      ensures key == apiKey
    {
      key := apiKey;
    }

    /** Throws code 1 on an empty key and changes nothing; otherwise the
        key is stored and the format is kept. */
    method SetApiKey(key: string) returns (error: Option<Error>)
      modifies this
      ensures EmptyText(key) ==> error == Some(ValueNotSpecified("apiKey")) && apiKey == old(apiKey)
      ensures !EmptyText(key) ==> error == None && apiKey == Some(key)
      ensures format == old(format)
    {
      if EmptyText(key) {
        return Some(ValueNotSpecified("apiKey"));
      }
      apiKey := Some(key);
      error := None;
    }

    method GetFormat() returns (f: string)
      ensures f == format
    {
      f := format;
    }

    /** Throws code 1 on an empty format and changes nothing; otherwise the
        format is stored, unchecked, and the key is kept. */
    method SetFormat(f: string) returns (error: Option<Error>)
      modifies this
      ensures EmptyText(f) ==> error == Some(ValueNotSpecified("format")) && format == old(format)
      ensures !EmptyText(f) ==> error == None && format == f
      ensures apiKey == old(apiKey)
    {
      if EmptyText(f) {
        return Some(ValueNotSpecified("format"));
      }
      format := f;
      error := None;
    }

    /** Adds the format parameters to a URL: `format`, then
        `noJsonCallback=1` exactly when the format is "json". */
    method AppendFormatToUrl(url: string) returns (r: string)
      ensures r == url + "&" + QueryString(FormatParams(format))
      ensures |r| > |url| && r[..|url|] == url
    {
      r := url + "&format=" + format;
      if format == "json" {
        r := r + "&noJsonCallback=1";
      }
      FormatQuery(format);
      assert "&format=" == "&" + "format=";
    }

    /** Requests `url` and returns according to the format: the body as it
        is for "xml", decoded for "json", and for any other format it
        throws, after the request has been made. An empty URL is refused
        before any request. */
    method Fetch(url: string) returns (o: Outcome)
      ensures EmptyText(url) ==> o == Refused(ValueNotSpecified("url"))
      ensures !EmptyText(url) ==> o.Sent? && o.url == url
      ensures !EmptyText(url) && format == "xml" ==> o.reply == Ok(RawBody)
      ensures !EmptyText(url) && format == "json" ==> o.reply == Ok(DecodedBody)
      ensures !EmptyText(url) && format != "xml" && format != "json" ==> o.reply == Fail(InvalidFormat)
    {
      if EmptyText(url) {
        return Refused(ValueNotSpecified("url"));
      }
      if format == "xml" {
        o := Sent(url, Ok(RawBody));
      } else if format == "json" {
        o := Sent(url, Ok(DecodedBody));
      } else {
        o := Sent(url, Fail(InvalidFormat));
      }
    }

    /** Lists monitors: throws code 2 without an API key; otherwise sends
        the key, the ids joined by `-` when there are any, the two flags
        and the format parameters. */
    method GetMonitors(monitors: seq<string>, logs: int, alertContacts: int) returns (o: Outcome)
      ensures Empty(apiKey) ==> o == Refused(PropertyNotSet("apiKey"))
      ensures !Empty(apiKey) ==>
        o == Sent(Render(Request("getMonitors", GetMonitorsQuery(apiKey.value, monitors, logs, alertContacts, format))),
                  Dispatch(format))
    {
      if Empty(apiKey) {
        return Refused(PropertyNotSet("apiKey"));
      }
      var url := BaseUri + "/getMonitors?apiKey=" + apiKey.value;
      ghost var path, ps := "getMonitors", [Param("apiKey", apiKey.value)];
      RenderFirst(path, ps[0], BaseUri + "/getMonitors?apiKey=");
      if |monitors| > 0 {
        url := AppendParam(url, Param("monitors", Implode('-', monitors)), Request(path, ps));
        ps := ps + [Param("monitors", Implode('-', monitors))];
      }
      var logsParam, contactsParam := Param("logs", IntToString(logs)), Param("alertContacts", IntToString(alertContacts));
      url := AppendParam(url, logsParam, Request(path, ps));
      url := AppendParam(url, contactsParam, Request(path, ps + [logsParam]));
      ghost var flags := [logsParam, contactsParam];
      assert ps + [logsParam] + [contactsParam] == ps + flags;
      RenderAppend(path, ps + flags, FormatParams(format));
      url := AppendFormatToUrl(url);
      assert ps + flags + FormatParams(format) == GetMonitorsQuery(apiKey.value, monitors, logs, alertContacts, format);
      o := Fetch(url);
    }

    /** Creates a monitor: throws code 3 when friendly name, URL or type is
        empty, and only then code 2 without an API key; otherwise sends
        the three required values, each optional key that is set, and the
        format parameters. */
    method NewMonitor(p: MonitorParams) returns (o: Outcome)
      ensures MissingRequired(p) ==> o == Refused(RequiredKeyMissing)
      ensures !MissingRequired(p) && Empty(apiKey) ==> o == Refused(PropertyNotSet("apiKey"))
      ensures !MissingRequired(p) && !Empty(apiKey) ==>
        o == Sent(Render(Request("newMonitor", NewMonitorQuery(apiKey.value, p, format))), Dispatch(format))
    {
      if Empty(p.friendlyName) || Empty(p.url) || Empty(p.monitorType) {
        return Refused(RequiredKeyMissing);
      }
      if Empty(apiKey) {
        return Refused(PropertyNotSet("apiKey"));
      }
      var url := BaseUri + "/newMonitor?apiKey=" + apiKey.value;
      ghost var path := "newMonitor";
      ghost var ps := [Param("apiKey", apiKey.value)];
      RenderFirst(path, ps[0], BaseUri + "/newMonitor?apiKey=");
      url := AppendParam(url, Param("monitorFriendlyName", UrlEncode(p.friendlyName.value)), Request(path, ps));
      ps := ps + [Param("monitorFriendlyName", UrlEncode(p.friendlyName.value))];
      url := AppendParam(url, Param("monitorURL", p.url.value), Request(path, ps));
      ps := ps + [Param("monitorURL", p.url.value)];
      url := AppendParam(url, Param("monitorType", p.monitorType.value), Request(path, ps));
      ps := ps + [Param("monitorType", p.monitorType.value)];

      assert ps == [Param("apiKey", apiKey.value),
                    Param("monitorFriendlyName", UrlEncode(p.friendlyName.GetOr(""))),
                    Param("monitorURL", p.url.GetOr("")),
                    Param("monitorType", p.monitorType.GetOr(""))];
      url := AppendOptionalFields(url, p, Request(path, ps));

      RenderAppend(path, ps + Fields(OptionalSpecs(p)), FormatParams(format));
      url := AppendFormatToUrl(url);
      o := Fetch(url);
    }

    /** Edits a monitor: throws code 1 when no key is set at all, and only
        then code 2 without an API key; otherwise sends the id, every key
        that is set (and no other), and the format parameters. The id is
        not checked. */
    method EditMonitor(monitorId: string, p: MonitorParams) returns (o: Outcome)
      ensures NoParams(p) ==> o == Refused(ValueNotSpecified("params"))
      ensures !NoParams(p) && Empty(apiKey) ==> o == Refused(PropertyNotSet("apiKey"))
      ensures !NoParams(p) && !Empty(apiKey) ==>
        o == Sent(Render(Request("editMonitor", EditMonitorQuery(apiKey.value, monitorId, p, format))), Dispatch(format))
    {
      if NoParams(p) {
        return Refused(ValueNotSpecified("params"));
      }
      if Empty(apiKey) {
        return Refused(PropertyNotSet("apiKey"));
      }
      var url := BaseUri + "/editMonitor?apiKey=" + apiKey.value;
      ghost var path := "editMonitor";
      ghost var ps := [Param("apiKey", apiKey.value)];
      RenderFirst(path, ps[0], BaseUri + "/editMonitor?apiKey=");
      url := AppendParam(url, Param("monitorID", monitorId), Request(path, ps));
      ps := ps + [Param("monitorID", monitorId)];

      assert ps == [Param("apiKey", apiKey.value), Param("monitorID", monitorId)];
      url := AppendMonitorFields(url, p, Request(path, ps));
      RenderAppend(path, ps + Fields(MonitorSpecs(p)), FormatParams(format));
      url := AppendFormatToUrl(url);
      o := Fetch(url);
    }

    /** Deletes a monitor: throws code 1 on an empty id, and only then
        code 2 without an API key; otherwise sends the key, the id and the
        format parameters. */
    method DeleteMonitor(monitorId: string) returns (o: Outcome)
      ensures EmptyText(monitorId) ==> o == Refused(ValueNotSpecified("monitorId"))
      ensures !EmptyText(monitorId) && Empty(apiKey) ==> o == Refused(PropertyNotSet("apiKey"))
      ensures !EmptyText(monitorId) && !Empty(apiKey) ==>
        o == Sent(Render(Request("deleteMonitor", DeleteMonitorQuery(apiKey.value, monitorId, format))), Dispatch(format))
    {
      if EmptyText(monitorId) {
        return Refused(ValueNotSpecified("monitorId"));
      }
      if Empty(apiKey) {
        return Refused(PropertyNotSet("apiKey"));
      }
      var url := BaseUri + "/deleteMonitor?apiKey=" + apiKey.value;
      ghost var ps := [Param("apiKey", apiKey.value)];
      RenderFirst("deleteMonitor", ps[0], BaseUri + "/deleteMonitor?apiKey=");
      url := AppendParam(url, Param("monitorID", monitorId), Request("deleteMonitor", ps));
      ps := ps + [Param("monitorID", monitorId)];
      RenderAppend("deleteMonitor", ps, FormatParams(format));
      url := AppendFormatToUrl(url);
      assert ps + FormatParams(format) == DeleteMonitorQuery(apiKey.value, monitorId, format);
      o := Fetch(url);
    }

    /** Lists alert contacts. The API key is not checked: an unset key is
        sent as the empty string, and the call is always made. */
    method GetAlertContacts() returns (o: Outcome)
      ensures o.Sent?
      ensures o == Sent(Render(Request("getAlertContacts", AlertContactsQuery(apiKey.GetOr(""), format))), Dispatch(format))
    {
      var url := BaseUri + "/getAlertContacts?apiKey=" + apiKey.GetOr("");
      RenderFirst("getAlertContacts", Param("apiKey", apiKey.GetOr("")), BaseUri + "/getAlertContacts?apiKey=");
      RenderAppend("getAlertContacts", [Param("apiKey", apiKey.GetOr(""))], FormatParams(format));
      url := AppendFormatToUrl(url);
      o := Fetch(url);
    }
  }
}
