/**
  The request builder of the resolve handler: which providers a query selects, the
  limit each provider is sent, and the host and path of each provider request.

  The handler's own text compares the query-string values with JavaScript operators;
  the functions below keep those operators (from JsValues) and state in their
  contracts what they amount to for a parameter that is missing or given as text.
*/
module Providers {
  import opened JsValues

  /** The four search providers, in the order the handler tests their flags. */
  datatype Provider = SoundCloud | YouTube | Mixcloud | Spotify
  {
    /** The key under which the provider's result is reported. */
    function Name(): string
    {
      match this
      case SoundCloud => "soundcloud"
      case YouTube => "youtube"
      case Mixcloud => "mixcloud"
      case Spotify => "spotify"
    }

    function Host(): string
    {
      match this
      case SoundCloud => "api.soundcloud.com"
      case YouTube => "www.googleapis.com"
      case Mixcloud => "api.mixcloud.com"
      case Spotify => "api.spotify.com"
    }

    /** The largest limit the handler forwards to the provider. */
    function Cap(): nat
    {
      match this
      case SoundCloud => 100
      case YouTube => 50
      case Mixcloud => 100
      case Spotify => 50
    }

    /** Position of the provider's block in the handler. */
    function Rank(): nat
    {
      match this
      case SoundCloud => 0
      case YouTube => 1
      case Mixcloud => 2
      case Spotify => 3
    }
  }

  const REGISTRY: seq<Provider> := [SoundCloud, YouTube, Mixcloud, Spotify]

  /** The limit used when the query has none. */
  const DEFAULT_LIMIT: nat := 10

  /** The query-string parameters the handler reads. */
  datatype Query = Query(q: Param, limit: Param, sc: Param, yt: Param, spotify: Param, mixcloud: Param)

  /** The credentials read from the process environment (SC_CLIENT_ID, YT_API_KEY). */
  datatype Config = Config(scClientId: Param, ytApiKey: Param)

  /** A request descriptor: the provider's name, the host and the path after the host. */
  datatype Request = Request(name: string, host: string, path: string)

  /** The limit value written into a path: the query's own limit text, or a number. */
  datatype MaxResults = Raw(text: string) | Count(n: nat)

  /** A flag after destructuring with a default: the default applies only to a missing
      parameter, and a given parameter stays a string. */
  function FlagValue(flag: Param, default: bool): JsValue
  {
    match flag
    case Absent => Bool(default)
    case Text(s) => Str(s)
  }

  /** `flag !== 'false'` with default `true` (the sc and yt flags). */
  function OnUnlessFalse(flag: Param): (on: bool)
    ensures on <==> flag != Text("false")
  {
    !StrictEquals(FlagValue(flag, true), Str("false"))
  }

  /** `if (flag)` with default `false` (the mixcloud and spotify flags): any non-empty
      text turns the provider on, "false" included. */
  function OnIfTruthy(flag: Param): (on: bool)
    ensures on <==> flag.Text? && flag.text != ""
  {
    Truthy(FlagValue(flag, false))
  }

  predicate Selected(p: Provider, query: Query)
  {
    match p
    case SoundCloud => OnUnlessFalse(query.sc)
    case YouTube => OnUnlessFalse(query.yt)
    case Mixcloud => OnIfTruthy(query.mixcloud)
    case Spotify => OnIfTruthy(query.spotify)
  }

  /** The number the comparison `limit <= cap` saw for a limit that was forwarded. */
  function Compared(m: MaxResults, toNumber: string -> JsNumber): JsNumber
  {
    match m
    case Raw(s) => toNumber(s)
    case Count(n) => Finite(n as real)
  }

  /** `limit <= cap ? limit : cap`, where a missing limit is the number 10 and a given
      limit is a string that the comparison converts with `toNumber`. */
  function ClampLimit(limit: Param, cap: nat, toNumber: string -> JsNumber): (m: MaxResults)
    ensures AtMost(Compared(m, toNumber), cap as real)
    ensures limit.Absent? && DEFAULT_LIMIT <= cap ==> m == Count(DEFAULT_LIMIT)
    ensures limit.Text? ==> (m == Raw(limit.text) <==> AtMost(toNumber(limit.text), cap as real))
    ensures limit.Text? && m != Raw(limit.text) ==> m == Count(cap)
    ensures limit.Text? && toNumber(limit.text) == NaN ==> m == Count(cap)
  {
    match limit
    case Absent =>
      if AtMost(Finite(DEFAULT_LIMIT as real), cap as real) then Count(DEFAULT_LIMIT) else Count(cap)
    case Text(s) =>
      if AtMost(toNumber(s), cap as real) then Raw(s) else Count(cap)
  }

  /** `${maxResults}` */
  function RenderMax(m: MaxResults): string
  {
    match m
    case Raw(s) => s
    case Count(n) => Decimal(n)
  }

  /** The credential a provider's path embeds, if any. */
  function Credential(p: Provider, cfg: Config): Option<Param>
  {
    match p
    case SoundCloud => Some(cfg.scClientId)
    case YouTube => Some(cfg.ytApiKey)
    case Mixcloud => None
    case Spotify => None
  }

  /** The path template of each provider, with its query, limit and credential slots filled. */
  function Path(p: Provider, query: string, max: string, cfg: Config): string
  {
    match p
    case SoundCloud => "tracks/?q=" + query + "&limit=" + max + "&client_id=" + Render(cfg.scClientId)
    case YouTube => "youtube/v3/search?part=snippet&q=" + query + "&key=" + Render(cfg.ytApiKey) + "&maxResults=" + max
    case Mixcloud => "search/?q=" + query + "&type=cloudcast&limit=" + max
    case Spotify => "v1/search/?q=" + query + "&type=track&limit=" + max
  }

  /** The descriptor the handler pushes for provider `p`, given the encoded query text. */
  function RequestFor(p: Provider, query: string, limit: Param, cfg: Config, toNumber: string -> JsNumber): Request
  {
    Request(p.Name(), p.Host(), Path(p, query, RenderMax(ClampLimit(limit, p.Cap(), toNumber)), cfg))
  }

  /** A provider's request depends on the configuration only through its own credential:
      soundcloud only on the client id, youtube only on the key, the others on neither. */
  lemma CredentialIsolation(p: Provider, query: string, limit: Param, cfg1: Config, cfg2: Config, toNumber: string -> JsNumber)
    requires Credential(p, cfg1) == Credential(p, cfg2)
    ensures RequestFor(p, query, limit, cfg1, toNumber) == RequestFor(p, query, limit, cfg2, toNumber)
  {
  }

  /** Every descriptor carries its provider's result key and host, and a path that is the
      provider's template with the query's limit when that is within the provider's cap,
      the cap otherwise, and 10 when the query has no limit. */
  lemma PathLimit(p: Provider, query: string, limit: Param, cfg: Config, toNumber: string -> JsNumber)
    ensures var r := RequestFor(p, query, limit, cfg, toNumber);
      && r.name == p.Name() && r.host == p.Host()
      && match limit
         case Absent => r.path == Path(p, query, "10", cfg)
         case Text(s) =>
           r.path == Path(p, query, if AtMost(toNumber(s), p.Cap() as real) then s else Decimal(p.Cap()), cfg)
  {
    assert Decimal(10) == "10" by { assert Decimal(1) == "1"; }
  }

  /** `r` is `ps` with some elements left out, the others kept in their order. */
  predicate Subsequence<T(==)>(r: seq<T>, ps: seq<T>)
  {
    if r == [] then true
    else if ps == [] then false
    else (r[0] == ps[0] && Subsequence(r[1..], ps[1..])) || Subsequence(r, ps[1..])
  }

  lemma SubsequenceKeep<T>(ps: seq<T>, r: seq<T>)
    requires ps != [] && Subsequence(r, ps[1..])
    ensures Subsequence([ps[0]] + r, ps)
  {
    assert ([ps[0]] + r)[1..] == r;
  }

  lemma SubsequenceSkip<T>(ps: seq<T>, r: seq<T>)
    requires ps != [] && Subsequence(r, ps[1..])
    ensures Subsequence(r, ps)
  {
  }

  predicate InRegistryOrder(ps: seq<Provider>)
  {
    forall i, j :: 0 <= i < j < |ps| ==> ps[i].Rank() < ps[j].Rank()
  }

  lemma HeadBeforeRest(ps: seq<Provider>, rest: seq<Provider>)
    requires ps != []
    requires forall p :: p in rest ==> p in ps[1..]
    ensures InRegistryOrder(ps) ==> forall k :: 0 <= k < |rest| ==> ps[0].Rank() < rest[k].Rank()
  {
    if InRegistryOrder(ps) {
      forall k | 0 <= k < |rest| ensures ps[0].Rank() < rest[k].Rank() {
        assert rest[k] in rest;
        var j :| 0 <= j < |ps[1..]| && ps[1..][j] == rest[k];
        assert ps[j + 1] == rest[k];
      }
    }
  }

  /** The providers of `ps` that the query selects, in the order of `ps`. */
  function SelectFrom(ps: seq<Provider>, query: Query): (r: seq<Provider>)
    ensures |r| <= |ps|
    ensures forall p :: p in r <==> p in ps && Selected(p, query)
    ensures InRegistryOrder(ps) ==> InRegistryOrder(r)
  {
    if ps == [] then []
    else if Selected(ps[0], query) then
      var rest := SelectFrom(ps[1..], query);
      HeadBeforeRest(ps, rest);
      [ps[0]] + rest
    else SelectFrom(ps[1..], query)
  }

  /** The filter only leaves providers out: what it keeps stays in the order of its input,
      whatever that order is. */
  lemma {:induction false} SelectFromKeepsOrder(ps: seq<Provider>, query: Query)
    ensures Subsequence(SelectFrom(ps, query), ps)
  {
    if ps != [] {
      var rest := SelectFrom(ps[1..], query);
      SelectFromKeepsOrder(ps[1..], query);
      if Selected(ps[0], query) {
        SubsequenceKeep(ps, rest);
      } else {
        SubsequenceSkip(ps, rest);
      }
    }
  }

  lemma RegistryIsComplete(p: Provider)
    ensures p in REGISTRY && REGISTRY[p.Rank()] == p
  {
  }

  /** The selected providers in the handler's fixed order. */
  function SelectedProviders(query: Query): (r: seq<Provider>)
    ensures |r| <= 4
    ensures forall p :: p in r <==> Selected(p, query)
    ensures InRegistryOrder(r)
  {
    assert InRegistryOrder(REGISTRY);
    forall p ensures p in REGISTRY { RegistryIsComplete(p); }
    SelectFrom(REGISTRY, query)
  }

  /** One request per provider of `ps`, in the same order. */
  function RequestsFor(ps: seq<Provider>, query: string, limit: Param, cfg: Config, toNumber: string -> JsNumber): (rs: seq<Request>)
    ensures |rs| == |ps|
    ensures forall i :: 0 <= i < |ps| ==> rs[i] == RequestFor(ps[i], query, limit, cfg, toNumber)
  {
    if ps == [] then [] else [RequestFor(ps[0], query, limit, cfg, toNumber)] + RequestsFor(ps[1..], query, limit, cfg, toNumber)
  }

  function Names(rs: seq<Request>): set<string>
  {
    set r | r in rs :: r.name
  }

  predicate DistinctNames(rs: seq<Request>)
  {
    forall i, j :: 0 <= i < j < |rs| ==> rs[i].name != rs[j].name
  }

  lemma NameInjective(p: Provider, p': Provider)
    requires p != p'
    ensures p.Name() != p'.Name()
  {
  }

  /** The requests the handler builds for a query, with `encode` for encodeURIComponent
      and `toNumber` for the conversion of the limit text to a number. */
  function Requests(query: Query, cfg: Config, encode: string -> string, toNumber: string -> JsNumber): seq<Request>
  {
    RequestsFor(SelectedProviders(query), encode(Render(query.q)), query.limit, cfg, toNumber)
  }

  /** A missing `q` is rendered as the text "undefined", so it builds exactly the requests of
      a query whose `q` is the text "undefined". */
  lemma MissingQueryAsUndefinedText(query: Query, cfg: Config, encode: string -> string, toNumber: string -> JsNumber)
    requires query.q == Absent
    ensures Requests(query, cfg, encode, toNumber) == Requests(query.(q := Text("undefined")), cfg, encode, toNumber)
  {
    var named := query.(q := Text("undefined"));
    SameSelection(REGISTRY, query, named);
    assert Render(query.q) == Render(named.q);
  }

  /** The filter reads a query only through which providers it selects. */
  lemma {:induction false} SameSelection(ps: seq<Provider>, query: Query, query': Query)
    requires forall p :: Selected(p, query) == Selected(p, query')
    ensures SelectFrom(ps, query) == SelectFrom(ps, query')
  {
    if ps != [] {
      SameSelection(ps[1..], query, query');
    }
  }

  /** The request list has at most four entries, with pairwise distinct names, in the
      fixed order soundcloud, youtube, mixcloud, spotify. */
  lemma RequestsOrdered(query: Query, cfg: Config, encode: string -> string, toNumber: string -> JsNumber)
    ensures var rs := Requests(query, cfg, encode, toNumber);
      && |rs| <= 4
      && DistinctNames(rs)
      && forall i, j :: 0 <= i < j < |rs| ==> ProviderOf(rs[i]).Rank() < ProviderOf(rs[j]).Rank()
  {
    var ps := SelectedProviders(query);
    var rs := Requests(query, cfg, encode, toNumber);
    forall i | 0 <= i < |rs| ensures ProviderOf(rs[i]) == ps[i] {
      ProviderOfName(ps[i]);
    }
    forall i, j | 0 <= i < j < |rs| ensures rs[i].name != rs[j].name {
      NameInjective(ps[i], ps[j]);
    }
  }

  /** A provider's request is in the list exactly when the query selects the provider. */
  lemma RequestsSelection(query: Query, cfg: Config, encode: string -> string, toNumber: string -> JsNumber, p: Provider)
    ensures Selected(p, query) <==> RequestFor(p, encode(Render(query.q)), query.limit, cfg, toNumber) in Requests(query, cfg, encode, toNumber)
  {
    var ps := SelectedProviders(query);
    var rs := Requests(query, cfg, encode, toNumber);
    var r := RequestFor(p, encode(Render(query.q)), query.limit, cfg, toNumber);
    if r in rs {
      var i :| 0 <= i < |rs| && rs[i] == r;
      NameInjectiveConverse(p, ps[i]);
    }
    if Selected(p, query) {
      var i :| 0 <= i < |ps| && ps[i] == p;
      assert rs[i] == r;
    }
  }

  /** The names in the request list are the names of the selected providers. */
  lemma RequestsNames(query: Query, cfg: Config, encode: string -> string, toNumber: string -> JsNumber)
    ensures Names(Requests(query, cfg, encode, toNumber)) == set p | p in REGISTRY && Selected(p, query) :: p.Name()
  {
    var ps := SelectedProviders(query);
    NamesOfRequestsFor(ps, encode(Render(query.q)), query.limit, cfg, toNumber);
    forall p ensures p in ps <==> p in REGISTRY && Selected(p, query) {
      RegistryIsComplete(p);
    }
  }

  lemma NamesOfRequestsFor(ps: seq<Provider>, query: string, limit: Param, cfg: Config, toNumber: string -> JsNumber)
    ensures Names(RequestsFor(ps, query, limit, cfg, toNumber)) == set p | p in ps :: p.Name()
  {
    var rs := RequestsFor(ps, query, limit, cfg, toNumber);
    forall x ensures x in Names(rs) <==> x in set p | p in ps :: p.Name() {
      if x in Names(rs) {
        var i :| 0 <= i < |rs| && rs[i].name == x;
        assert ps[i] in ps;
      }
      if x in set p | p in ps :: p.Name() {
        var i :| 0 <= i < |ps| && ps[i].Name() == x;
        assert rs[i] in rs;
      }
    }
  }

  /** The provider a request was built for, recovered from its name. */
  function ProviderOf(r: Request): Provider
  {
    if r.name == "soundcloud" then SoundCloud
    else if r.name == "youtube" then YouTube
    else if r.name == "mixcloud" then Mixcloud
    else Spotify
  }

  lemma ProviderOfName(p: Provider)
    ensures ProviderOf(Request(p.Name(), p.Host(), "")) == p
  {
    match p
    case SoundCloud =>
    case YouTube => NameInjective(YouTube, SoundCloud);
    case Mixcloud => NameInjective(Mixcloud, SoundCloud); NameInjective(Mixcloud, YouTube);
    case Spotify => NameInjective(Spotify, SoundCloud); NameInjective(Spotify, YouTube); NameInjective(Spotify, Mixcloud);
  }

  lemma NameInjectiveConverse(p: Provider, p': Provider)
    requires p.Name() == p'.Name()
    ensures p == p'
  {
    if p != p' { NameInjective(p, p'); }
  }

  /** The request builder: an empty list grown by one push per selected provider. */
  method BuildRequests(query: string, params: Query, cfg: Config, toNumber: string -> JsNumber) returns (requests: seq<Request>)
    ensures requests == RequestsFor(SelectedProviders(params), query, params.limit, cfg, toNumber)
  {
    requests := [];
    ghost var pushed: seq<Provider> := [];
    if OnUnlessFalse(params.sc) {
      requests := requests + [RequestFor(SoundCloud, query, params.limit, cfg, toNumber)];
      RequestsForPush(pushed, SoundCloud, query, params.limit, cfg, toNumber);
      pushed := pushed + [SoundCloud];
    }
    assert pushed == Opt(SoundCloud, params);
    if OnUnlessFalse(params.yt) {
      requests := requests + [RequestFor(YouTube, query, params.limit, cfg, toNumber)];
      RequestsForPush(pushed, YouTube, query, params.limit, cfg, toNumber);
      pushed := pushed + [YouTube];
    }
    assert pushed == Opt(SoundCloud, params) + Opt(YouTube, params);
    if OnIfTruthy(params.mixcloud) {
      requests := requests + [RequestFor(Mixcloud, query, params.limit, cfg, toNumber)];
      RequestsForPush(pushed, Mixcloud, query, params.limit, cfg, toNumber);
      pushed := pushed + [Mixcloud];
    }
    assert pushed == Opt(SoundCloud, params) + Opt(YouTube, params) + Opt(Mixcloud, params);
    if OnIfTruthy(params.spotify) {
      requests := requests + [RequestFor(Spotify, query, params.limit, cfg, toNumber)];
      RequestsForPush(pushed, Spotify, query, params.limit, cfg, toNumber);
      pushed := pushed + [Spotify];
    }
    assert pushed == Opt(SoundCloud, params) + Opt(YouTube, params) + Opt(Mixcloud, params) + Opt(Spotify, params);
    assert requests == RequestsFor(pushed, query, params.limit, cfg, toNumber);
    SelectedProvidersUnrolled(params);
    Regroup(Opt(SoundCloud, params), Opt(YouTube, params), Opt(Mixcloud, params), Opt(Spotify, params));
  }

  lemma Regroup<T>(a: seq<T>, b: seq<T>, c: seq<T>, d: seq<T>)
    ensures a + b + c + d == a + (b + (c + d))
  {
  }

  /** Pushing one more provider's request extends the request list by that request. */
  lemma RequestsForPush(ps: seq<Provider>, p: Provider, query: string, limit: Param, cfg: Config, toNumber: string -> JsNumber)
    ensures RequestsFor(ps + [p], query, limit, cfg, toNumber)
         == RequestsFor(ps, query, limit, cfg, toNumber) + [RequestFor(p, query, limit, cfg, toNumber)]
  {
  }

  function Opt(p: Provider, query: Query): seq<Provider>
  {
    if Selected(p, query) then [p] else []
  }

  lemma SelectedProvidersUnrolled(query: Query)
    ensures SelectedProviders(query)
         == Opt(SoundCloud, query) + (Opt(YouTube, query) + (Opt(Mixcloud, query) + Opt(Spotify, query)))
  {
    var s3 := SelectFrom([Spotify], query);
    assert [Spotify][1..] == [];
    SelectFromCons([Spotify], query);
    assert s3 == Opt(Spotify, query);
    var s2 := SelectFrom([Mixcloud, Spotify], query);
    assert [Mixcloud, Spotify][1..] == [Spotify];
    SelectFromCons([Mixcloud, Spotify], query);
    assert s2 == Opt(Mixcloud, query) + s3;
    var s1 := SelectFrom([YouTube, Mixcloud, Spotify], query);
    assert [YouTube, Mixcloud, Spotify][1..] == [Mixcloud, Spotify];
    SelectFromCons([YouTube, Mixcloud, Spotify], query);
    assert s1 == Opt(YouTube, query) + s2;
    assert REGISTRY[1..] == [YouTube, Mixcloud, Spotify];
    SelectFromCons(REGISTRY, query);
  }

  lemma SelectFromCons(ps: seq<Provider>, query: Query)
    requires ps != []
    ensures SelectFrom(ps, query) == Opt(ps[0], query) + SelectFrom(ps[1..], query)
  {
  }

  lemma OnlySoundCloudAndYouTube(query: Query)
    requires Selected(SoundCloud, query) && Selected(YouTube, query)
    requires !Selected(Mixcloud, query) && !Selected(Spotify, query)
    ensures SelectedProviders(query) == [SoundCloud, YouTube]
  {
    SelectedProvidersUnrolled(query);
  }

  lemma OnlySoundCloud(query: Query)
    requires Selected(SoundCloud, query) && !Selected(YouTube, query)
    requires !Selected(Mixcloud, query) && !Selected(Spotify, query)
    ensures SelectedProviders(query) == [SoundCloud]
  {
    SelectedProvidersUnrolled(query);
  }

  /** The caps as they appear in a path. */
  lemma CapNumerals()
    ensures Decimal(SoundCloud.Cap()) == "100" && Decimal(YouTube.Cap()) == "50"
  {
    assert Decimal(1) == "1";
    assert Decimal(10) == "10";
    assert Decimal(5) == "5";
  }

  /** `limit=500` with soundcloud and youtube on and the others off: the paths carry the
      caps 100 and 50, never 500. */
  lemma LimitAboveBothCaps(query: Query, cfg: Config, encode: string -> string, toNumber: string -> JsNumber)
    requires query.limit == Text("500") && toNumber("500") == Finite(500.0)
    requires OnUnlessFalse(query.sc) && OnUnlessFalse(query.yt)
    requires !OnIfTruthy(query.mixcloud) && !OnIfTruthy(query.spotify)
    ensures var rs, e := Requests(query, cfg, encode, toNumber), encode(Render(query.q));
      && |rs| == 2
      && rs[0].name == "soundcloud" && rs[0].path == Path(SoundCloud, e, "100", cfg)
      && rs[1].name == "youtube" && rs[1].path == Path(YouTube, e, "50", cfg)
  {
    OnlySoundCloudAndYouTube(query);
    var e := encode(Render(query.q));
    var rs := Requests(query, cfg, encode, toNumber);
    assert rs[0] == RequestFor(SoundCloud, e, query.limit, cfg, toNumber);
    assert rs[1] == RequestFor(YouTube, e, query.limit, cfg, toNumber);
    CapNumerals();
    PathLimit(SoundCloud, e, query.limit, cfg, toNumber);
    PathLimit(YouTube, e, query.limit, cfg, toNumber);
  }

  /** `q=daft punk&sc=true&yt=false&limit=5`: exactly one request, to soundcloud, with
      limit 5. */
  lemma DaftPunkScenario(cfg: Config, encode: string -> string, toNumber: string -> JsNumber)
    requires toNumber("5") == Finite(5.0)
    ensures var rs := Requests(Query(Text("daft punk"), Text("5"), Text("true"), Text("false"), Absent, Absent), cfg, encode, toNumber);
      && |rs| == 1
      && rs[0].name == "soundcloud"
      && rs[0].path == Path(SoundCloud, encode("daft punk"), "5", cfg)
  {
    var query := Query(Text("daft punk"), Text("5"), Text("true"), Text("false"), Absent, Absent);
    OnlySoundCloud(query);
    PathLimit(SoundCloud, encode("daft punk"), query.limit, cfg, toNumber);
  }
}
