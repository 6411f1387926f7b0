/** The request URLs the client sends: the service address, an operation
    path, and a query string of `name=value` pairs joined by `&`. This
    module gives the structured view of such a URL, how it is written out,
    and how it is read back. */
module Query {
  import opened Wrappers
  import opened Text

  /** The service address, fixed for every client. */
  const BaseUri: string := "http://api.uptimerobot.com"

  datatype Param = Param(name: string, value: string)

  /** One call: `BaseUri/path?` followed by the parameters in order. */
  datatype Request = Request(path: string, params: seq<Param>)

  function Pair(p: Param): string
  {
    p.name + "=" + p.value
  }

  function Pairs(ps: seq<Param>): (r: seq<string>)
    ensures |r| == |ps|
  {
    seq(|ps|, i requires 0 <= i < |ps| => Pair(ps[i]))
  }

  function QueryString(ps: seq<Param>): string
  {
    Implode('&', Pairs(ps))
  }

  /** The URL of a request. It is never empty. */
  function Render(r: Request): (url: string)
    ensures |url| > |BaseUri|
    ensures url[..|BaseUri|] == BaseUri
  {
    BaseUri + "/" + r.path + "?" + QueryString(r.params)
  }

  /** Adding parameters to a request adds `&` and their pairs to its URL. */
  lemma RenderAppend(path: string, ps: seq<Param>, qs: seq<Param>)
    requires |ps| >= 1 && |qs| >= 1
    ensures Render(Request(path, ps + qs)) == Render(Request(path, ps)) + "&" + QueryString(qs)
  {
    assert Pairs(ps + qs) == Pairs(ps) + Pairs(qs);
    ImplodeAppend('&', Pairs(ps), Pairs(qs));
  }

  /** The URL of a request with one parameter is the address, the path,
      `?`, and that parameter; `head` is everything up to the value. */
  lemma RenderFirst(path: string, p: Param, head: string)
    requires head == BaseUri + "/" + path + "?" + p.name + "="
    ensures Render(Request(path, [p])) == head + p.value
  {
  }

  /** Appending one parameter to a request appends `&name=value` to its URL. */
  lemma RenderNext(path: string, ps: seq<Param>, p: Param)
    requires |ps| >= 1
    ensures Render(Request(path, ps + [p])) == Render(Request(path, ps)) + "&" + p.name + "=" + p.value
  {
    RenderAppend(path, ps, [p]);
    assert Pairs([p]) == [p.name + "=" + p.value];
  }

  /** One `name=value` field; the name ends at the first `=`. */
  function ParsePair(f: string): Param
  {
    var i := IndexOf(f, '=');
    if i == |f| then Param(f, "") else Param(f[..i], f[i + 1..])
  }

  function ParseParams(fs: seq<string>): (ps: seq<Param>)
    ensures |ps| == |fs|
  {
    seq(|fs|, i requires 0 <= i < |fs| => ParsePair(fs[i]))
  }

  /** Reads a URL back as a request: the path ends at the first `?`, and
      the query string is cut at every `&`. */
  function ParseUrl(u: string): Option<Request>
  {
    var head := BaseUri + "/";
    if |u| < |head| || u[..|head|] != head then None
    else
      var rest := u[|head|..];
      var i := IndexOf(rest, '?');
      if i == |rest| then None
      else Some(Request(rest[..i], ParseParams(Split(rest[i + 1..], '&'))))
  }

  /** A request whose URL can be read back unambiguously: the path has no
      `?`, there is at least one parameter, no name holds `&` or `=`, and
      no value holds `&`. */
  predicate WellFormed(r: Request)
  {
    '?' !in r.path && |r.params| >= 1 && Delimited(r.params)
  }

  /** A parameter whose pair reads back as itself inside a query string. */
  predicate Delimits(p: Param)
  {
    '&' !in p.name && '=' !in p.name && '&' !in p.value
  }

  predicate Delimited(ps: seq<Param>)
  {
    forall i :: 0 <= i < |ps| ==> Delimits(ps[i])
  }

  lemma ParsePairOf(p: Param)
    requires '=' !in p.name
    ensures ParsePair(Pair(p)) == p
  {
    IndexOfAfter(p.name, '=', p.value);
    assert Pair(p) == p.name + ['='] + p.value;
  }

  /** The URL of a well-formed request reads back under `ParseUrl` as that
      request: the same path and the same parameters, in order. */
  lemma ParseRender(r: Request)
    requires WellFormed(r)
    ensures ParseUrl(Render(r)) == Some(r)
  {
    var head := BaseUri + "/";
    var q := QueryString(r.params);
    var u := Render(r);
    assert u == head + (r.path + ['?'] + q);
    var rest := u[|head|..];
    assert rest == r.path + ['?'] + q;
    IndexOfAfter(r.path, '?', q);
    assert rest[..|r.path|] == r.path;
    assert rest[|r.path| + 1..] == q;
    var pairs := Pairs(r.params);
    forall k | 0 <= k < |pairs|
      ensures '&' !in pairs[k]
    {
      assert pairs[k] == r.params[k].name + "=" + r.params[k].value;
    }
    SplitImplode('&', pairs);
    forall k | 0 <= k < |pairs|
      ensures ParsePair(pairs[k]) == r.params[k]
    {
      ParsePairOf(r.params[k]);
    }
    assert ParseParams(pairs) == r.params;
  }

  /** The value of the first parameter called `name`, if any. */
  function Lookup(ps: seq<Param>, name: string): Option<string>
  {
    if |ps| == 0 then None
    else if ps[0].name == name then Some(ps[0].value)
    else Lookup(ps[1..], name)
  }

  lemma {:induction false} LookupAppend(ps: seq<Param>, qs: seq<Param>, name: string)
    ensures Lookup(ps + qs, name) == if Lookup(ps, name).Some? then Lookup(ps, name) else Lookup(qs, name)
  {
    if |ps| == 0 {
      assert ps + qs == qs;
    } else {
      assert (ps + qs)[1..] == ps[1..] + qs;
      LookupAppend(ps[1..], qs, name);
    }
  }
}
