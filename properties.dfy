/** What the server receives from each operation: which parameters the
    request carries and with what values, and that the URL the client
    writes parses back under `ParseUrl` as those parameters. */
module ApiProperties {
  import opened Wrappers
  import opened Text
  import opened UrlEncoding
  import opened Query
  import opened UptimeRobotApi

  /** No two fields share a name. */
  predicate DistinctNames(fs: seq<FieldSpec>)
  {
    forall j, k :: 0 <= j < k < |fs| ==> fs[j].name != fs[k].name
  }

  /** A name no field carries is not among the parameters of the fields. */
  lemma {:induction false} LookupFieldsAbsent(fs: seq<FieldSpec>, name: string)
    requires forall j :: 0 <= j < |fs| ==> fs[j].name != name
    ensures Lookup(Fields(fs), name) == None
  {
    if |fs| > 0 {
      LookupFieldsAbsent(fs[..|fs| - 1], name);
      LookupAppend(Fields(fs[..|fs| - 1]), Field(fs[|fs| - 1]), name);
    }
  }

  /** Among fields with distinct names, looking up a field's name gives
      what that field writes: its value (encoded when the field says so)
      when it is set, nothing when it is not. */
  lemma {:induction false} LookupFields(fs: seq<FieldSpec>, k: nat)
    requires DistinctNames(fs) && k < |fs|
    ensures Lookup(Fields(fs), fs[k].name) == Written(fs[k])
  {
    var init, last := fs[..|fs| - 1], fs[|fs| - 1];
    LookupAppend(Fields(init), Field(last), fs[k].name);
    if k == |fs| - 1 {
      LookupFieldsAbsent(init, fs[k].name);
    } else {
      LookupFields(init, k);
    }
  }

  /** The names the format parameters use. */
  predicate FormatName(name: string)
  {
    name == "format" || name == "noJsonCallback"
  }

  /** The ten monitor keys go out under ten different names, none of which
      is the API key, the monitor id or a format parameter. */
  lemma MonitorNames(p: MonitorParams)
    ensures DistinctNames(MonitorSpecs(p))
    ensures forall k :: 0 <= k < |MonitorSpecs(p)| ==>
      MonitorSpecs(p)[k].name != "apiKey" && MonitorSpecs(p)[k].name != "monitorID" && !FormatName(MonitorSpecs(p)[k].name)
  {
  }

  /** The format parameters: `format` carries the format, and
      `noJsonCallback` is `1` for JSON and absent otherwise. */
  lemma LookupFormat(format: string, name: string)
    ensures Lookup(FormatParams(format), "format") == Some(format)
    ensures Lookup(FormatParams(format), "noJsonCallback") == if format == "json" then Some("1") else None
    ensures !FormatName(name) ==> Lookup(FormatParams(format), name) == None
  {
    var fp := FormatParams(format);
    if format == "json" {
      assert fp[1..] == [Param("noJsonCallback", "1")];
      assert fp[1..][1..] == [];
      if !FormatName(name) {
        assert Lookup(fp[1..], name) == Lookup(fp[1..][1..], name);
      }
    } else {
      assert fp[1..] == [];
    }
  }

  /** One monitor key in an editMonitor request: present exactly when the
      key is set, with the value as the field writes it. */
  lemma EditMonitorField(key: string, monitorId: string, p: MonitorParams, format: string, k: nat)
    requires k < |MonitorSpecs(p)|
    ensures Lookup(EditMonitorQuery(key, monitorId, p, format), MonitorSpecs(p)[k].name) == Written(MonitorSpecs(p)[k])
  {
    var head, fs, name := [Param("apiKey", key), Param("monitorID", monitorId)], MonitorSpecs(p), MonitorSpecs(p)[k].name;
    MonitorNames(p);
    LookupAppend(head + Fields(fs), FormatParams(format), name);
    LookupAppend(head, Fields(fs), name);
    LookupFields(fs, k);
    LookupFormat(format, name);
  }

  /** The monitor keys editMonitor sends: every key that is set and none
      that is not; friendly name, keyword value, HTTP user name, HTTP
      password and alert contacts URL-encoded, the others as given. */
  lemma EditMonitorSendsKeys(key: string, monitorId: string, p: MonitorParams, format: string)
    ensures Lookup(EditMonitorQuery(key, monitorId, p, format), "monitorFriendlyName") == EncodedOpt(p.friendlyName)
    ensures Lookup(EditMonitorQuery(key, monitorId, p, format), "monitorURL") == p.url
    ensures Lookup(EditMonitorQuery(key, monitorId, p, format), "monitorType") == p.monitorType
    ensures Lookup(EditMonitorQuery(key, monitorId, p, format), "monitorSubType") == p.subType
    ensures Lookup(EditMonitorQuery(key, monitorId, p, format), "monitorPort") == p.port
    ensures Lookup(EditMonitorQuery(key, monitorId, p, format), "monitorKeywordType") == p.keywordType
    ensures Lookup(EditMonitorQuery(key, monitorId, p, format), "monitorKeywordValue") == EncodedOpt(p.keywordValue)
    ensures Lookup(EditMonitorQuery(key, monitorId, p, format), "monitorHTTPUsername") == EncodedOpt(p.httpUsername)
    ensures Lookup(EditMonitorQuery(key, monitorId, p, format), "monitorHTTPPassword") == EncodedOpt(p.httpPassword)
    ensures Lookup(EditMonitorQuery(key, monitorId, p, format), "monitorAlertContacts") == EncodedOpt(p.alertContacts)
  {
    EditMonitorField(key, monitorId, p, format, 0);
    EditMonitorField(key, monitorId, p, format, 1);
    EditMonitorField(key, monitorId, p, format, 2);
    EditMonitorField(key, monitorId, p, format, 3);
    EditMonitorField(key, monitorId, p, format, 4);
    EditMonitorField(key, monitorId, p, format, 5);
    EditMonitorField(key, monitorId, p, format, 6);
    EditMonitorField(key, monitorId, p, format, 7);
    EditMonitorField(key, monitorId, p, format, 8);
    EditMonitorField(key, monitorId, p, format, 9);
  }

  /** The rest of an editMonitor request: the API key, the monitor id, and
      the format parameters. */
  lemma EditMonitorSendsHead(key: string, monitorId: string, p: MonitorParams, format: string)
    ensures Lookup(EditMonitorQuery(key, monitorId, p, format), "apiKey") == Some(key)
    ensures Lookup(EditMonitorQuery(key, monitorId, p, format), "monitorID") == Some(monitorId)
    ensures Lookup(EditMonitorQuery(key, monitorId, p, format), "format") == Some(format)
    ensures Lookup(EditMonitorQuery(key, monitorId, p, format), "noJsonCallback") ==
      if format == "json" then Some("1") else None
  {
    var fs, fp := MonitorSpecs(p), FormatParams(format);
    var head, fields := [Param("apiKey", key), Param("monitorID", monitorId)], Fields(fs);
    var q := EditMonitorQuery(key, monitorId, p, format);
    assert Lookup(q, "monitorID") == Some(monitorId) by {
      assert q[1..] == [Param("monitorID", monitorId)] + fields + fp;
    }
    forall name | FormatName(name)
      ensures Lookup(q, name) == Lookup(fp, name)
    {
      assert Lookup(fields, name) == None by {
        MonitorNames(p);
        LookupFieldsAbsent(fs, name);
      }
      LookupAppend(head + fields, fp, name);
      LookupAppend(head, fields, name);
    }
    LookupFormat(format, "format");
  }

  /** With its three required keys given, the three fields newMonitor
      always writes are the fields editMonitor writes when they are set. */
  lemma RequiredFields(p: MonitorParams)
    requires !MissingRequired(p)
    ensures Fields(RequiredSpecs(p)) ==
      [Param("monitorFriendlyName", UrlEncode(p.friendlyName.value)),
       Param("monitorURL", p.url.value),
       Param("monitorType", p.monitorType.value)]
  {
    var fs := RequiredSpecs(p);
    assert fs[..1][..0] == [];
    assert Fields(fs[..1]) == Field(fs[0]);
    assert fs[..2][..1] == fs[..1];
    assert Fields(fs[..2]) == Field(fs[0]) + Field(fs[1]);
    assert fs[..3] == fs;
    assert Fields(fs) == Field(fs[0]) + Field(fs[1]) + Field(fs[2]);
  }

  /** newMonitor, once its required keys pass, sends the same keys in the
      same order and encoding as editMonitor; only the monitor id is
      missing. */
  lemma NewMonitorAsEdit(key: string, monitorId: string, p: MonitorParams, format: string)
    requires !MissingRequired(p)
    ensures NewMonitorQuery(key, p, format) == [Param("apiKey", key)] + Fields(MonitorSpecs(p)) + FormatParams(format)
    ensures EditMonitorQuery(key, monitorId, p, format) ==
      [Param("apiKey", key), Param("monitorID", monitorId)] + NewMonitorQuery(key, p, format)[1..]
  {
    var head, required, optional := [Param("apiKey", key)], Fields(RequiredSpecs(p)), Fields(OptionalSpecs(p));
    var fp := FormatParams(format);
    assert Fields(MonitorSpecs(p)) == required + optional by {
      FieldsAppend(RequiredSpecs(p), OptionalSpecs(p));
    }
    assert NewMonitorQuery(key, p, format) == head + required + optional + fp by {
      RequiredFields(p);
    }
    assert head + required + optional + fp == head + (required + optional) + fp;
  }

  /** What newMonitor sends once its required keys pass: the three
      required values (the friendly name URL-encoded), each optional key
      exactly when it is set (keyword value, HTTP user name, HTTP password
      and alert contacts URL-encoded), and the format parameters. */
  lemma NewMonitorSends(key: string, p: MonitorParams, format: string)
    requires !MissingRequired(p)
    ensures Lookup(NewMonitorQuery(key, p, format), "apiKey") == Some(key)
    ensures Lookup(NewMonitorQuery(key, p, format), "monitorFriendlyName") == Some(UrlEncode(p.friendlyName.value))
    ensures Lookup(NewMonitorQuery(key, p, format), "monitorURL") == p.url
    ensures Lookup(NewMonitorQuery(key, p, format), "monitorType") == p.monitorType
    ensures Lookup(NewMonitorQuery(key, p, format), "monitorSubType") == p.subType
    ensures Lookup(NewMonitorQuery(key, p, format), "monitorPort") == p.port
    ensures Lookup(NewMonitorQuery(key, p, format), "monitorKeywordType") == p.keywordType
    ensures Lookup(NewMonitorQuery(key, p, format), "monitorKeywordValue") == EncodedOpt(p.keywordValue)
    ensures Lookup(NewMonitorQuery(key, p, format), "monitorHTTPUsername") == EncodedOpt(p.httpUsername)
    ensures Lookup(NewMonitorQuery(key, p, format), "monitorHTTPPassword") == EncodedOpt(p.httpPassword)
    ensures Lookup(NewMonitorQuery(key, p, format), "monitorAlertContacts") == EncodedOpt(p.alertContacts)
    ensures Lookup(NewMonitorQuery(key, p, format), "format") == Some(format)
    ensures Lookup(NewMonitorQuery(key, p, format), "noJsonCallback") ==
      if format == "json" then Some("1") else None
  {
    NewMonitorAsEdit(key, "", p, format);
    var rest := Fields(MonitorSpecs(p)) + FormatParams(format);
    var nq, eq := NewMonitorQuery(key, p, format), EditMonitorQuery(key, "", p, format);
    assert nq == [Param("apiKey", key)] + rest;
    assert nq[1..] == rest && eq[1..][1..] == rest;
    EditMonitorSendsKeys(key, "", p, format);
    EditMonitorSendsHead(key, "", p, format);
  }

  lemma DelimitedAppend(ps: seq<Param>, qs: seq<Param>)
    requires Delimited(ps) && Delimited(qs)
    ensures Delimited(ps + qs)
  {
  }

  /** A URL-encoded value never holds `&`. */
  lemma EncodedDelimits(s: string)
    ensures '&' !in UrlEncode(s)
  {
  }

  /** A field whose name is a plain identifier, and whose value is encoded
      or free of `&`. */
  predicate FieldDelimits(f: FieldSpec)
  {
    '&' !in f.name && '=' !in f.name && (f.value.Some? && !f.encoded ==> '&' !in f.value.value)
  }

  lemma {:induction false} FieldsDelimited(fs: seq<FieldSpec>)
    requires forall k :: 0 <= k < |fs| ==> FieldDelimits(fs[k])
    ensures Delimited(Fields(fs))
  {
    if |fs| > 0 {
      var last := fs[|fs| - 1];
      FieldsDelimited(fs[..|fs| - 1]);
      if last.value.Some? && last.encoded {
        EncodedDelimits(last.value.value);
      }
      DelimitedAppend(Fields(fs[..|fs| - 1]), Field(last));
    }
  }

  lemma FormatDelimited(format: string)
    requires '&' !in format
    ensures Delimited(FormatParams(format))
  {
  }

  /** The monitor keys the client sends without encoding hold no `&`. */
  predicate PlainValuesDelimited(p: MonitorParams)
  {
    (p.url.Some? ==> '&' !in p.url.value) &&
    (p.monitorType.Some? ==> '&' !in p.monitorType.value) &&
    (p.subType.Some? ==> '&' !in p.subType.value) &&
    (p.port.Some? ==> '&' !in p.port.value) &&
    (p.keywordType.Some? ==> '&' !in p.keywordType.value)
  }

  /** A name that can stand before `=` in a query string. */
  predicate PlainName(n: string)
  {
    '&' !in n && '=' !in n
  }

  lemma RequiredNamesPlain()
    ensures PlainName("monitorFriendlyName") && PlainName("monitorURL") && PlainName("monitorType")
  {
  }

  lemma PlainOptionalNamesPlain()
    ensures PlainName("monitorSubType") && PlainName("monitorPort") && PlainName("monitorKeywordType")
  {
  }

  lemma EncodedOptionalNamesPlain()
    ensures PlainName("monitorKeywordValue") && PlainName("monitorHTTPUsername")
    ensures PlainName("monitorHTTPPassword") && PlainName("monitorAlertContacts")
  {
  }

  lemma RequiredFieldsDelimited(p: MonitorParams)
    requires PlainValuesDelimited(p)
    ensures Delimited(Fields(RequiredSpecs(p)))
  {
    RequiredNamesPlain();
    FieldsDelimited(RequiredSpecs(p));
  }

  lemma OptionalFieldsDelimited(p: MonitorParams)
    requires PlainValuesDelimited(p)
    ensures Delimited(Fields(OptionalSpecs(p)))
  {
    PlainOptionalNamesPlain();
    EncodedOptionalNamesPlain();
    FieldsDelimited(OptionalSpecs(p));
  }

  /** Every monitor field the client writes is a plain `name=value` pair. */
  lemma MonitorFieldsDelimited(p: MonitorParams)
    requires PlainValuesDelimited(p)
    ensures Delimited(Fields(OptionalSpecs(p)))
    ensures Delimited(Fields(MonitorSpecs(p)))
  {
    RequiredFieldsDelimited(p);
    OptionalFieldsDelimited(p);
    FieldsAppend(RequiredSpecs(p), OptionalSpecs(p));
    DelimitedAppend(Fields(RequiredSpecs(p)), Fields(OptionalSpecs(p)));
  }

  /** The URL editMonitor sends parses back under `ParseUrl` as its parameters, provided the
      key, the id, the format and the values sent unencoded hold no `&`. */
  lemma EditMonitorReadBack(key: string, monitorId: string, p: MonitorParams, format: string)
    requires '&' !in key && '&' !in monitorId && '&' !in format && PlainValuesDelimited(p)
    ensures var r := Request("editMonitor", EditMonitorQuery(key, monitorId, p, format));
      ParseUrl(Render(r)) == Some(r)
  {
    var head := [Param("apiKey", key), Param("monitorID", monitorId)];
    MonitorFieldsDelimited(p);
    FormatDelimited(format);
    DelimitedAppend(head, Fields(MonitorSpecs(p)));
    DelimitedAppend(head + Fields(MonitorSpecs(p)), FormatParams(format));
    ParseRender(Request("editMonitor", EditMonitorQuery(key, monitorId, p, format)));
  }

  /** The URL newMonitor sends parses back under `ParseUrl` as its parameters under the same
      provisos. */
  lemma NewMonitorReadBack(key: string, p: MonitorParams, format: string)
    requires !MissingRequired(p)
    requires '&' !in key && '&' !in format && PlainValuesDelimited(p)
    ensures var r := Request("newMonitor", NewMonitorQuery(key, p, format));
      ParseUrl(Render(r)) == Some(r)
  {
    var head, fields, fp := [Param("apiKey", key)], Fields(MonitorSpecs(p)), FormatParams(format);
    var q := NewMonitorQuery(key, p, format);
    assert q == head + fields + fp by {
      NewMonitorAsEdit(key, "", p, format);
    }
    assert Delimited(head + fields + fp) by {
      MonitorFieldsDelimited(p);
      FormatDelimited(format);
      DelimitedAppend(head, fields);
      DelimitedAppend(head + fields, fp);
    }
    ParseRender(Request("newMonitor", q));
  }

  /** The friendly name the service decodes from a newMonitor request is
      the one given, byte for byte. */
  lemma NewMonitorFriendlyName(key: string, p: MonitorParams, format: string)
    requires !MissingRequired(p)
    ensures Lookup(NewMonitorQuery(key, p, format), "monitorFriendlyName").Some?
    ensures UrlDecode(Lookup(NewMonitorQuery(key, p, format), "monitorFriendlyName").value) ==
      Utf8String(p.friendlyName.value)
  {
    NewMonitorSends(key, p, format);
    DecodeEncode(p.friendlyName.value);
  }

  lemma QueryNamesPlain()
    ensures PlainName("apiKey") && PlainName("monitorID") && PlainName("monitors")
    ensures PlainName("logs") && PlainName("alertContacts")
    ensures PlainName("format") && PlainName("noJsonCallback")
  {
  }

  /** A decimal integer never holds `&`. */
  lemma IntToStringDelimits(n: int)
    ensures '&' !in IntToString(n)
  {
  }

  /** The parameters of a request that follow the API key: the format
      parameters, and any others that carry none of their names. */
  lemma LookupAfter(head: seq<Param>, format: string, name: string)
    requires forall i :: 0 <= i < |head| ==> head[i].name != name
    ensures Lookup(head + FormatParams(format), name) == Lookup(FormatParams(format), name)
  {
    LookupAbsent(head, name);
    LookupAppend(head, FormatParams(format), name);
  }

  lemma {:induction false} LookupAbsent(ps: seq<Param>, name: string)
    requires forall i :: 0 <= i < |ps| ==> ps[i].name != name
    ensures Lookup(ps, name) == None
  {
    if |ps| > 0 {
      LookupAbsent(ps[1..], name);
    }
  }

  /** The parameters of a getMonitors request, with its values left
      abstract: `ids` is the optional `monitors` parameter. */
  lemma LookupMonitorsQuery(key: string, ids: Option<string>, logs: string, alertContacts: string, format: string)
    ensures var q := [Param("apiKey", key)]
        + (if ids.Some? then [Param("monitors", ids.value)] else [])
        + [Param("logs", logs), Param("alertContacts", alertContacts)]
        + FormatParams(format);
      Lookup(q, "apiKey") == Some(key) &&
      Lookup(q, "monitors") == ids &&
      Lookup(q, "logs") == Some(logs) &&
      Lookup(q, "alertContacts") == Some(alertContacts) &&
      Lookup(q, "format") == Some(format) &&
      Lookup(q, "noJsonCallback") == if format == "json" then Some("1") else None
  {
    var head := [Param("apiKey", key)];
    var m := if ids.Some? then [Param("monitors", ids.value)] else [];
    var flags := [Param("logs", logs), Param("alertContacts", alertContacts)];
    var fp := FormatParams(format);
    var q := head + m + flags + fp;
    assert q[1..] == m + (flags + fp);
    forall name | name != "apiKey"
      ensures Lookup(q, name) == Lookup(m + (flags + fp), name)
    {
    }
    assert Lookup(m + (flags + fp), "monitors") == ids by {
      LookupAppend(m, flags + fp, "monitors");
      LookupAfter(flags, format, "monitors");
      LookupFormat(format, "monitors");
    }
    forall name | name == "logs" || name == "alertContacts" || FormatName(name)
      ensures Lookup(m + (flags + fp), name) == Lookup(flags + fp, name)
    {
      LookupAbsent(m, name);
      LookupAppend(m, flags + fp, name);
    }
    assert flags[1..] == [Param("alertContacts", alertContacts)];
    LookupAppend(flags, fp, "logs");
    LookupAppend(flags, fp, "alertContacts");
    LookupAfter(flags, format, "format");
    LookupAfter(flags, format, "noJsonCallback");
    LookupFormat(format, "format");
  }

  /** What getMonitors sends: the key, the ids joined by `-` exactly when
      there are any, the two flags in decimal, and the format. */
  lemma GetMonitorsSends(key: string, monitors: seq<string>, logs: int, alertContacts: int, format: string)
    ensures var q := GetMonitorsQuery(key, monitors, logs, alertContacts, format);
      Lookup(q, "apiKey") == Some(key) &&
      Lookup(q, "monitors") == (if |monitors| > 0 then Some(Implode('-', monitors)) else None) &&
      Lookup(q, "logs") == Some(IntToString(logs)) &&
      Lookup(q, "alertContacts") == Some(IntToString(alertContacts)) &&
      Lookup(q, "format") == Some(format) &&
      Lookup(q, "noJsonCallback") == if format == "json" then Some("1") else None
  {
    var ids := if |monitors| > 0 then Some(Implode('-', monitors)) else None;
    LookupMonitorsQuery(key, ids, IntToString(logs), IntToString(alertContacts), format);
  }

  /** The URL getMonitors sends parses back under `ParseUrl` as its parameters when the key,
      the format and the ids hold no `&`; the service then reads the two
      flags as the integers given and, when no id holds `-`, the `monitors`
      value as the list of ids given. */
  lemma GetMonitorsReadBack(key: string, monitors: seq<string>, logs: int, alertContacts: int, format: string)
    requires '&' !in key && '&' !in format && FreeOf(monitors, '&')
    ensures var r := Request("getMonitors", GetMonitorsQuery(key, monitors, logs, alertContacts, format));
      ParseUrl(Render(r)) == Some(r)
    ensures var q := GetMonitorsQuery(key, monitors, logs, alertContacts, format);
      Lookup(q, "logs").Some? && ReadInt(Lookup(q, "logs").value) == Some(logs) &&
      Lookup(q, "alertContacts").Some? && ReadInt(Lookup(q, "alertContacts").value) == Some(alertContacts)
    ensures var q := GetMonitorsQuery(key, monitors, logs, alertContacts, format);
      |monitors| > 0 && FreeOf(monitors, '-') ==>
        Lookup(q, "monitors").Some? && Split(Lookup(q, "monitors").value, '-') == monitors
  {
    var head := [Param("apiKey", key)];
    var m := if |monitors| > 0 then [Param("monitors", Implode('-', monitors))] else [];
    var flags := [Param("logs", IntToString(logs)), Param("alertContacts", IntToString(alertContacts))];
    QueryNamesPlain();
    ImplodeFree('-', '&', monitors);
    IntToStringDelimits(logs);
    IntToStringDelimits(alertContacts);
    assert Delimited(head) && Delimited(m) && Delimited(flags);
    FormatDelimited(format);
    DelimitedAppend(head, m);
    DelimitedAppend(head + m, flags);
    DelimitedAppend(head + m + flags, FormatParams(format));
    ParseRender(Request("getMonitors", GetMonitorsQuery(key, monitors, logs, alertContacts, format)));
    GetMonitorsSends(key, monitors, logs, alertContacts, format);
    IntToStringRoundTrip(logs);
    IntToStringRoundTrip(alertContacts);
    if |monitors| > 0 && FreeOf(monitors, '-') {
      SplitImplode('-', monitors);
    }
  }

  /** What deleteMonitor sends: the key, the id and the format. */
  lemma DeleteMonitorSends(key: string, monitorId: string, format: string)
    ensures var q := DeleteMonitorQuery(key, monitorId, format);
      Lookup(q, "apiKey") == Some(key) && Lookup(q, "monitorID") == Some(monitorId) &&
      Lookup(q, "format") == Some(format) &&
      Lookup(q, "noJsonCallback") == if format == "json" then Some("1") else None
  {
    var head := [Param("apiKey", key), Param("monitorID", monitorId)];
    LookupAfter(head, format, "format");
    LookupAfter(head, format, "noJsonCallback");
    LookupFormat(format, "format");
  }

  /** The URL deleteMonitor sends parses back under `ParseUrl` as its parameters when the
      key, the id and the format hold no `&`. */
  lemma DeleteMonitorReadBack(key: string, monitorId: string, format: string)
    requires '&' !in key && '&' !in monitorId && '&' !in format
    ensures var r := Request("deleteMonitor", DeleteMonitorQuery(key, monitorId, format));
      ParseUrl(Render(r)) == Some(r)
  {
    var head := [Param("apiKey", key), Param("monitorID", monitorId)];
    QueryNamesPlain();
    assert Delimited(head);
    FormatDelimited(format);
    DelimitedAppend(head, FormatParams(format));
    ParseRender(Request("deleteMonitor", DeleteMonitorQuery(key, monitorId, format)));
  }

  /** What getAlertContacts sends: the key, even when it is empty, and
      the format. */
  lemma AlertContactsSends(key: string, format: string)
    ensures var q := AlertContactsQuery(key, format);
      Lookup(q, "apiKey") == Some(key) &&
      Lookup(q, "format") == Some(format) &&
      Lookup(q, "noJsonCallback") == if format == "json" then Some("1") else None
  {
    var head := [Param("apiKey", key)];
    LookupAfter(head, format, "format");
    LookupAfter(head, format, "noJsonCallback");
    LookupFormat(format, "format");
  }

  /** The URL getAlertContacts sends parses back under `ParseUrl` as its parameters when
      the key and the format hold no `&`. */
  lemma AlertContactsReadBack(key: string, format: string)
    requires '&' !in key && '&' !in format
    ensures var r := Request("getAlertContacts", AlertContactsQuery(key, format));
      ParseUrl(Render(r)) == Some(r)
  {
    var head := [Param("apiKey", key)];
    QueryNamesPlain();
    assert Delimited(head);
    FormatDelimited(format);
    DelimitedAppend(head, FormatParams(format));
    ParseRender(Request("getAlertContacts", AlertContactsQuery(key, format)));
  }
}
