/**
  The resolve handler of the HTTP API: it reads the query, builds one request per
  selected provider, keys the pending results by provider name, waits for all of them
  and writes the status and body of Koa's context.

  The HTTP call and JSON.parse of each request are the parameter `fetch`; the timing
  that decides which rejection `hash` reports first is left open (any rejected one).
*/
module Handler {
  import opened JsValues
  import opened Providers
  import opened Aggregate

  const MISSING_QUERY_MESSAGE: string := "Required ':q?' parameter is missing"
  const BAD_REQUEST: JsValue := Number(Finite(400.0))

  /** What the handler assigns to `ctx.body`. */
  datatype Body = NoBody | Message(message: JsValue) | Results(results: map<string, Json>)

  /** `q` after destructuring: it has no default, so a missing one is undefined. */
  function SearchText(q: Param): JsValue
  {
    match q
    case Absent => Undefined
    case Text(s) => Str(s)
  }

  /** `!q` */
  function MissingQuery(q: Param): (missing: bool)
    ensures missing <==> q == Absent || q == Text("")
  {
    !Truthy(SearchText(q))
  }

  /** The two properties of Koa's request context that the handler assigns. `None` is a
      status the handler has not assigned. */
  class Context {
    var status: Option<JsValue>
    var body: Body

    constructor ()
      ensures status == None && body == NoBody
    {
      status := None;
      body := NoBody;
    }
  }

  /** The response after `await hash(promises)`: when every promise fulfilled, the body is
      the object of their values and the status stays `before`; otherwise the catch block
      answers with the status and message of one rejected promise (which one is a matter
      of timing). */
  ghost predicate Answered(status: Option<JsValue>, body: Body, promises: map<string, Outcome>, before: Option<JsValue>)
  {
    if AllFulfilled(promises) then
      status == before && body == Results(Payloads(promises))
    else
      exists name :: name in promises && promises[name].Rejected? &&
        status == Some(ErrorStatus(promises[name].reason)) && body == Message(promises[name].reason.message)
  }

  /** After the handler's `hash` step: the `hash` outcome, written into the context. */
  method Settle(ctx: Context, promises: map<string, Outcome>)
    modifies ctx
    ensures Answered(ctx.status, ctx.body, promises, old(ctx.status))
  {
    if forall name | name in promises :: promises[name].Fulfilled? {
      ctx.body := Results(map name | name in promises :: promises[name].payload);
    } else {
      var name :| name in promises && promises[name].Rejected?;
      var err := promises[name].reason;
      ctx.status := Some(ErrorStatus(err));
      ctx.body := Message(err.message);
    }
  }

  /** The handler as written: a missing `q` sets status 400 and a message body but does
      not return, so the requests are still built (for the text "undefined" when `q` is
      missing), dispatched, and the body is overwritten. */
  method Resolve(ctx: Context, query: Query, cfg: Config, encode: string -> string,
                 toNumber: string -> JsNumber, fetch: Request -> Outcome)
    returns (dispatched: seq<Request>)
    modifies ctx
    ensures dispatched == Requests(query, cfg, encode, toNumber)
    ensures Answered(ctx.status, ctx.body, Keyed(dispatched, fetch),
                     if MissingQuery(query.q) then Some(BAD_REQUEST) else old(ctx.status))
    ensures ctx.body.Results? ==>
      && ctx.body.results.Keys == Names(dispatched)
      && forall i :: 0 <= i < |dispatched| ==> fetch(dispatched[i]) == Fulfilled(ctx.body.results[dispatched[i].name])
  {
    if MissingQuery(query.q) {
      ctx.status := Some(BAD_REQUEST);
      ctx.body := Message(Str(MISSING_QUERY_MESSAGE));
    }
    var encoded := encode(Render(query.q));
    dispatched := BuildRequests(encoded, query, cfg, toNumber);
    var promises := CollectByName(dispatched, fetch);
    Settle(ctx, promises);
    RequestsOrdered(query, cfg, encode, toNumber);
    if ctx.body.Results? {
      ResultsByName(dispatched, fetch, ctx.status, ctx.body, if MissingQuery(query.q) then Some(BAD_REQUEST) else old(ctx.status));
    }
  }

  /** A result object answered for distinct request names has one key per request, holding
      that request's payload. */
  lemma ResultsByName(rs: seq<Request>, fetch: Request -> Outcome, status: Option<JsValue>, body: Body, before: Option<JsValue>)
    requires DistinctNames(rs)
    requires Answered(status, body, Keyed(rs, fetch), before)
    requires body.Results?
    ensures body.results.Keys == Names(rs)
    ensures forall i :: 0 <= i < |rs| ==> fetch(rs[i]) == Fulfilled(body.results[rs[i].name])
  {
    KeyedKeys(rs, fetch);
    KeyedDistinct(rs, fetch);
  }

  /** The handler with the evident intent of its `q` check: answer 400 and stop. */
  method ResolveChecked(ctx: Context, query: Query, cfg: Config, encode: string -> string,
                        toNumber: string -> JsNumber, fetch: Request -> Outcome)
    returns (dispatched: seq<Request>)
    modifies ctx
    ensures MissingQuery(query.q) ==>
      && dispatched == []
      && ctx.status == Some(BAD_REQUEST)
      && ctx.body == Message(Str(MISSING_QUERY_MESSAGE))
    ensures !MissingQuery(query.q) ==>
      && dispatched == Requests(query, cfg, encode, toNumber)
      && Answered(ctx.status, ctx.body, Keyed(dispatched, fetch), old(ctx.status))
  {
    if MissingQuery(query.q) {
      ctx.status := Some(BAD_REQUEST);
      ctx.body := Message(Str(MISSING_QUERY_MESSAGE));
      return [];
    }
    var encoded := encode(Render(query.q));
    dispatched := BuildRequests(encoded, query, cfg, toNumber);
    var promises := CollectByName(dispatched, fetch);
    Settle(ctx, promises);
  }

  /** A request without any parameter: `GET /resolve`. */
  const BARE_QUERY: Query := Query(Absent, Absent, Absent, Absent, Absent, Absent)

  /** As written, `GET /resolve` still builds the soundcloud and youtube requests, for the
      encoded text "undefined" and the default limit 10. */
  lemma BareQueryStillDispatches(cfg: Config, encode: string -> string, toNumber: string -> JsNumber)
    ensures MissingQuery(BARE_QUERY.q)
    ensures Requests(BARE_QUERY, cfg, encode, toNumber)
         == [RequestFor(SoundCloud, encode("undefined"), Absent, cfg, toNumber),
             RequestFor(YouTube, encode("undefined"), Absent, cfg, toNumber)]
  {
    OnlySoundCloudAndYouTube(BARE_QUERY);
    var rs := Requests(BARE_QUERY, cfg, encode, toNumber);
    assert |rs| == 2;
  }

  /** As written, when both of those requests succeed the response keeps status 400 but its
      body is the two providers' results, not the missing-parameter message. */
  lemma BareQueryAnswersResultsWith400(cfg: Config, encode: string -> string, toNumber: string -> JsNumber,
                                       fetch: Request -> Outcome, status: Option<JsValue>, body: Body, before: Option<JsValue>)
    requires forall r :: fetch(r).Fulfilled?
    requires Answered(status, body, Keyed(Requests(BARE_QUERY, cfg, encode, toNumber), fetch),
                      if MissingQuery(BARE_QUERY.q) then Some(BAD_REQUEST) else before)
    ensures status == Some(BAD_REQUEST)
    ensures body.Results? && body.results.Keys == {"soundcloud", "youtube"}
    ensures body != Message(Str(MISSING_QUERY_MESSAGE))
  {
    BareQueryStillDispatches(cfg, encode, toNumber);
    var rs := Requests(BARE_QUERY, cfg, encode, toNumber);
    KeyedAllFulfilled(rs, fetch);
    KeyedKeys(rs, fetch);
    PairNames(rs);
  }

  /** `GET /resolve` run through the handler on a fresh context, with every provider request
      succeeding: the response is status 400 with the soundcloud and youtube results. */
  method BareRequestResponse(cfg: Config, encode: string -> string, toNumber: string -> JsNumber,
                             fetch: Request -> Outcome)
    returns (status: Option<JsValue>, body: Body)
    requires forall r :: fetch(r).Fulfilled?
    ensures status == Some(BAD_REQUEST)
    ensures body.Results? && body.results.Keys == {"soundcloud", "youtube"}
  {
    var ctx := new Context();
    var dispatched := Resolve(ctx, BARE_QUERY, cfg, encode, toNumber, fetch);
    BareQueryAnswersResultsWith400(cfg, encode, toNumber, fetch, ctx.status, ctx.body, None);
    status, body := ctx.status, ctx.body;
  }

  lemma PairNames(rs: seq<Request>)
    requires |rs| == 2 && rs[0].name == "soundcloud" && rs[1].name == "youtube"
    ensures Names(rs) == {"soundcloud", "youtube"}
  {
    assert rs[0] in rs && rs[1] in rs;
  }

  /** With every provider switched off nothing is dispatched and, when `q` is given, the
      body is the empty object and the status is left as it was. */
  lemma NothingSelectedAnswersEmptyObject(query: Query, cfg: Config, encode: string -> string, toNumber: string -> JsNumber,
                                          fetch: Request -> Outcome, status: Option<JsValue>, body: Body, before: Option<JsValue>)
    requires query.sc == Text("false") && query.yt == Text("false")
    requires !OnIfTruthy(query.mixcloud) && !OnIfTruthy(query.spotify)
    requires Answered(status, body, Keyed(Requests(query, cfg, encode, toNumber), fetch), before)
    ensures Requests(query, cfg, encode, toNumber) == []
    ensures status == before && body == Results(map[])
  {
    SelectedProvidersUnrolled(query);
  }
}
