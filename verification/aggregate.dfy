/**
  What the resolve handler does with its request list: the reduce that keys one
  pending result per provider name, the settlement of that object by RSVP's `hash`,
  and the status chosen when the settlement is a rejection.
*/
module Aggregate {
  import opened JsValues
  import opened Providers

  /** A parsed JSON document; the handler passes it through unchanged. */
  datatype Json =
    | JNull
    | JBool(b: bool)
    | JNumber(n: real)
    | JString(s: string)
    | JArray(items: seq<Json>)
    | JObject(fields: seq<(string, Json)>)

  /** A rejection reason, reduced to the three properties the catch block reads. */
  datatype JsError = JsError(statusCode: JsValue, status: JsValue, message: JsValue)

  /** How the promise for one provider request settles: with the parsed response body, or
      rejected (a transport failure, a non-2xx status, or a body JSON.parse refuses). */
  datatype Outcome = Fulfilled(payload: Json) | Rejected(reason: JsError)

  /** The object the reduce has built after the requests `rs`: each step writes the key
      of its request's name, so a later request with the same name would replace an
      earlier one. `fetch` gives the outcome of the promise made for a request. */
  function Keyed(rs: seq<Request>, fetch: Request -> Outcome): map<string, Outcome>
  {
    if rs == [] then map[]
    else Keyed(rs[..|rs| - 1], fetch)[rs[|rs| - 1].name := fetch(rs[|rs| - 1])]
  }

  /** The reduce's key set is the set of request names. */
  lemma {:induction false} KeyedKeys(rs: seq<Request>, fetch: Request -> Outcome)
    ensures Keyed(rs, fetch).Keys == Names(rs)
  {
    if rs != [] {
      var init, last := rs[..|rs| - 1], rs[|rs| - 1];
      KeyedKeys(init, fetch);
      assert rs == init + [last];
      assert Names(rs) == Names(init) + {last.name};
    }
  }

  /** The entry for a request's name holds that request's outcome when no later request
      carries the same name (the last write wins). */
  lemma {:induction false} KeyedLastWriteWins(rs: seq<Request>, fetch: Request -> Outcome, i: nat)
    requires i < |rs|
    requires forall j :: i < j < |rs| ==> rs[j].name != rs[i].name
    ensures rs[i].name in Keyed(rs, fetch)
    ensures Keyed(rs, fetch)[rs[i].name] == fetch(rs[i])
  {
    if i < |rs| - 1 {
      var init := rs[..|rs| - 1];
      KeyedLastWriteWins(init, fetch, i);
    }
  }

  /** With pairwise distinct names no entry is overwritten: every request's name maps
      to that request's own outcome. */
  lemma KeyedDistinct(rs: seq<Request>, fetch: Request -> Outcome)
    requires DistinctNames(rs)
    ensures forall i :: 0 <= i < |rs| ==> rs[i].name in Keyed(rs, fetch) && Keyed(rs, fetch)[rs[i].name] == fetch(rs[i])
  {
    forall i | 0 <= i < |rs|
      ensures rs[i].name in Keyed(rs, fetch) && Keyed(rs, fetch)[rs[i].name] == fetch(rs[i])
    {
      KeyedLastWriteWins(rs, fetch, i);
    }
  }

  /** The map-then-reduce of the handler: for each request an object with the single key
      `req.name`, folded into one accumulator object. */
  method CollectByName(requests: seq<Request>, fetch: Request -> Outcome) returns (promises: map<string, Outcome>)
    ensures promises == Keyed(requests, fetch)
    ensures promises.Keys == Names(requests)
    ensures DistinctNames(requests) ==>
      forall i :: 0 <= i < |requests| ==> promises[requests[i].name] == fetch(requests[i])
  {
    promises := map[];
    for i := 0 to |requests|
      invariant promises == Keyed(requests[..i], fetch)
    {
      var item := map[requests[i].name := fetch(requests[i])];
      var key := requests[i].name;
      promises := promises[key := item[key]];
      assert requests[..i + 1][..i] == requests[..i];
    }
    assert requests[..|requests|] == requests;
    KeyedKeys(requests, fetch);
    if DistinctNames(requests) {
      KeyedDistinct(requests, fetch);
    }
  }

  /** `hash` fulfils only when every promise of the object fulfils. */
  predicate AllFulfilled(promises: map<string, Outcome>)
  {
    forall name :: name in promises ==> promises[name].Fulfilled?
  }

  /** When every request succeeds, every promise of the keyed object fulfils. */
  lemma {:induction false} KeyedAllFulfilled(rs: seq<Request>, fetch: Request -> Outcome)
    requires forall i :: 0 <= i < |rs| ==> fetch(rs[i]).Fulfilled?
    ensures AllFulfilled(Keyed(rs, fetch))
  {
    if rs != [] {
      KeyedAllFulfilled(rs[..|rs| - 1], fetch);
    }
  }

  /** With pairwise distinct names, `hash` fulfils exactly when every request succeeds. */
  lemma KeyedFulfilledIff(rs: seq<Request>, fetch: Request -> Outcome)
    requires DistinctNames(rs)
    ensures AllFulfilled(Keyed(rs, fetch)) <==> forall i :: 0 <= i < |rs| ==> fetch(rs[i]).Fulfilled?
  {
    KeyedDistinct(rs, fetch);
    if forall i :: 0 <= i < |rs| ==> fetch(rs[i]).Fulfilled? {
      KeyedAllFulfilled(rs, fetch);
    }
  }

  /** The object `hash` fulfils with: the same keys, each holding its promise's value. */
  function Payloads(promises: map<string, Outcome>): (results: map<string, Json>)
    requires AllFulfilled(promises)
    ensures results.Keys == promises.Keys
    ensures forall name :: name in results ==> promises[name] == Fulfilled(results[name])
  {
    map name | name in promises :: promises[name].payload
  }

  const INTERNAL_SERVER_ERROR: JsValue := Number(Finite(500.0))

  /** `err.statusCode || err.status || 500` */
  function ErrorStatus(err: JsError): (status: JsValue)
    ensures Truthy(status)
    ensures Truthy(err.statusCode) ==> status == err.statusCode
    ensures !Truthy(err.statusCode) && Truthy(err.status) ==> status == err.status
    ensures !Truthy(err.statusCode) && !Truthy(err.status) ==> status == INTERNAL_SERVER_ERROR
  {
    Or(Or(err.statusCode, err.status), INTERNAL_SERVER_ERROR)
  }
}
