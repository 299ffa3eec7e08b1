/** `_iter_requests_get_generator`: the items of each page's `results`, page
    after page, following `next` until it is false. The lazy generator is
    modelled by the whole run it produces: the items yielded and the error,
    if any, raised after them. */
module Pagination {
  import opened Wrappers
  import opened JsonValues
  import opened Errors
  import opened Client
  import opened Request

  const ResultsKey := "results"
  const NextKey := "next"

  /** What a page's `next` entry tells the loop to do. */
  datatype Link =
    /** A false value (`null`, `""`, ...): stop. */
    | Stop
    /** A non-empty address: fetch it. */
    | Follow(address: string)
    /** No `next` key: `KeyError`. */
    | Missing
    /** A true value that is not an address. */
    | NotAnAddress

  /** The page's `results` list, if the body has one. */
  function PageResults(body: Json): (r: Option<seq<Json>>)
    ensures r.Some? <==> Field(body, ResultsKey).Some? && Field(body, ResultsKey).value.JArray?
    ensures r.Some? ==> Field(body, ResultsKey) == Some(JArray(r.value))
  {
    match Field(body, ResultsKey)
    case Some(JArray(items)) => Some(items)
    case _ => None
  }

  /** How the page's `next` entry is read: by its truth value. */
  function NextLink(body: Json): (l: Link)
    ensures l.Stop? <==> Field(body, NextKey).Some? && !Truthy(Field(body, NextKey).value)
    ensures l.Follow? <==> Field(body, NextKey).Some? && Field(body, NextKey).value.JString? && Field(body, NextKey).value.s != ""
    ensures l.Follow? ==> Field(body, NextKey) == Some(JString(l.address))
    ensures l.Missing? <==> Field(body, NextKey).None?
  {
    match Field(body, NextKey)
    case None => Missing
    case Some(n) =>
      if !Truthy(n) then Stop
      else if n.JString? then Follow(n.s)
      else NotAnAddress
  }

  /** Fetching the page body at an address. */
  type Fetch = string -> Result<Json, Error>

  /** The run of a generator: the items it yielded, then the error it raised
      (`None` when it returned normally). */
  datatype Run = Run(items: seq<Json>, error: Option<Error>)

  /** The chain of pages starting from `first` ends, by an error or by a false
      `next`, after at most `bound` follow-up requests. */
  ghost predicate EndsWithin(first: Result<Json, Error>, fetch: Fetch, bound: nat)
    decreases bound
  {
    match first
    case Failure(_) => true
    case Success(body) =>
      PageResults(body).None? || !NextLink(body).Follow? ||
      (bound > 0 && EndsWithin(fetch(NextLink(body).address), fetch, bound - 1))
  }

  /** The generator's loop, given the outcome of the first request and the
      fetch used for every later one. A page's items are yielded before its
      `next` is looked at. */
  function Iterate(first: Result<Json, Error>, fetch: Fetch, bound: nat): (r: Run)
    requires EndsWithin(first, fetch, bound)
    ensures first.Failure? ==> r == Run([], Some(first.error))
    ensures first.Success? && PageResults(first.value).None? ==> r == Run([], Some(MalformedPage(ResultsKey)))
    ensures first.Success? && PageResults(first.value).Some? ==> PageResults(first.value).value <= r.items
    decreases bound
  {
    match first
    case Failure(e) => Run([], Some(e))
    case Success(body) =>
      match PageResults(body)
      case None => Run([], Some(MalformedPage(ResultsKey)))
      case Some(items) =>
        match NextLink(body)
        case Stop => Run(items, None)
        case Follow(next) =>
          var rest := Iterate(fetch(next), fetch, bound - 1);
          Run(items + rest.items, rest.error)
        case _ => Run(items, Some(MalformedPage(NextKey)))
  }

  /** A larger bound is still a bound. */
  lemma {:induction false} EndsWithinMonotone(first: Result<Json, Error>, fetch: Fetch, n: nat, m: nat)
    requires n <= m && EndsWithin(first, fetch, n)
    ensures EndsWithin(first, fetch, m)
    decreases n
  {
    if first.Success? && PageResults(first.value).Some? && NextLink(first.value).Follow? {
      EndsWithinMonotone(fetch(NextLink(first.value).address), fetch, n - 1, m - 1);
    }
  }

  /** The run does not depend on which bound witnesses that the chain ends. */
  lemma {:induction false} IterateBoundIndependent(first: Result<Json, Error>, fetch: Fetch, n: nat, m: nat)
    requires EndsWithin(first, fetch, n) && EndsWithin(first, fetch, m)
    ensures Iterate(first, fetch, n) == Iterate(first, fetch, m)
    decreases n
  {
    if first.Success? && PageResults(first.value).Some? && NextLink(first.value).Follow? {
      IterateBoundIndependent(fetch(NextLink(first.value).address), fetch, n - 1, m - 1);
    }
  }

  /** The generator as a loop, the way the code is written: `Run(items, error)`
      is exactly what `Iterate` describes. */
  method Paginate(first: Result<Json, Error>, fetch: Fetch, ghost bound: nat) returns (items: seq<Json>, error: Option<Error>)
    requires EndsWithin(first, fetch, bound)
    ensures Run(items, error) == Iterate(first, fetch, bound)
  {
    items := [];
    var current := first;
    ghost var n := bound;
    while true
      invariant EndsWithin(current, fetch, n)
      invariant Iterate(first, fetch, bound) == Run(items + Iterate(current, fetch, n).items, Iterate(current, fetch, n).error)
      decreases n
    {
      if current.Failure? {
        error := Some(current.error);
        return;
      }
      var body := current.value;
      var results := PageResults(body);
      if results.None? {
        error := Some(MalformedPage(ResultsKey));
        return;
      }
      var link := NextLink(body);
      if link.Stop? {
        items := items + results.value;
        error := None;
        return;
      } else if link.Follow? {
        items := items + results.value;
        current := fetch(link.address);
        n := n - 1;
      } else {
        items := items + results.value;
        error := Some(MalformedPage(NextKey));
        return;
      }
    }
  }

  /** A stored page of an abstract page store. */
  datatype StoredPage = StoredPage(results: seq<Json>, next: Option<string>)

  /** The JSON body a stored page is served as. */
  function Body(p: StoredPage): Json {
    JObject(map[ResultsKey := JArray(p.results), NextKey := if p.next.Some? then JString(p.next.value) else JNull])
  }

  /** Status of a fetch from an address the store does not hold. */
  const NotFound := 404

  /** Fetching from an abstract page store; an unknown address fails. */
  function StoreFetch(store: map<string, StoredPage>): Fetch {
    a => if a in store then Success(Body(store[a])) else Failure(HttpError(NotFound, None))
  }

  /** `chain` lists the addresses visited: each page's `next` is the
      following address, and the last page's `next` is false. */
  ghost predicate IsChain(store: map<string, StoredPage>, chain: seq<string>) {
    && |chain| > 0
    && (forall i :: 0 <= i < |chain| ==> chain[i] in store)
    && (forall i :: 0 < i < |chain| ==> chain[i] != "" && store[chain[i - 1]].next == Some(chain[i]))
    && store[chain[|chain| - 1]].next in {None, Some("")}
  }

  /** The `results` of the listed pages, concatenated in order. */
  function Concat(store: map<string, StoredPage>, chain: seq<string>): seq<Json>
    requires forall i :: 0 <= i < |chain| ==> chain[i] in store
    decreases |chain|
  {
    if chain == [] then [] else store[chain[0]].results + Concat(store, chain[1..])
  }

  /** `fetch` serves each of `addrs` as the store holds it. */
  ghost predicate Serves(fetch: Fetch, store: map<string, StoredPage>, addrs: seq<string>) {
    forall i :: 0 <= i < |addrs| ==> addrs[i] in store && fetch(addrs[i]) == Success(Body(store[addrs[i]]))
  }

  /** The store's own fetch serves every address it holds. */
  lemma StoreServesChain(store: map<string, StoredPage>, chain: seq<string>)
    requires IsChain(store, chain)
    ensures Serves(StoreFetch(store), store, chain)
  {
  }

  /** Over a finite chain of pages, when the first page has been fetched and
      every later address is served as stored, the generator yields the
      concatenation of their `results` along the `next` chain and stops after
      the page whose `next` is false, without error. */
  lemma {:induction false} ChainYieldsConcatenation(store: map<string, StoredPage>, chain: seq<string>, fetch: Fetch)
    requires IsChain(store, chain) && Serves(fetch, store, chain[1..])
    ensures EndsWithin(Success(Body(store[chain[0]])), fetch, |chain| - 1)
    ensures Iterate(Success(Body(store[chain[0]])), fetch, |chain| - 1) == Run(Concat(store, chain), None)
    decreases |chain|
  {
    var page := store[chain[0]];
    var body := Body(page);
    assert PageResults(body) == Some(page.results);
    if |chain| == 1 {
      assert NextLink(body).Stop?;
      assert Concat(store, chain) == page.results + Concat(store, chain[1..]);
    } else {
      assert NextLink(body) == Follow(chain[1]);
      var tail := chain[1..];
      assert IsChain(store, tail) by {
        forall i | 0 < i < |tail|
          ensures tail[i] != "" && store[tail[i - 1]].next == Some(tail[i])
        {
          assert tail[i - 1] == chain[i] && tail[i] == chain[i + 1];
        }
      }
      assert Serves(fetch, store, tail[1..]) by {
        forall i | 0 <= i < |tail[1..]|
          ensures tail[1..][i] in store && fetch(tail[1..][i]) == Success(Body(store[tail[1..][i]]))
        {
          assert tail[1..][i] == chain[1..][i + 1];
        }
      }
      assert fetch(chain[1]) == Success(Body(store[tail[0]])) by {
        assert chain[1..][0] == chain[1];
      }
      ChainYieldsConcatenation(store, tail, fetch);
    }
  }

  /** The two-page example: `[1, 2]` then `[3]` with no further page yields
      exactly `[1, 2, 3]`. */
  lemma TwoPageExample()
    ensures var store := map["addr1" := StoredPage([JNumber(1), JNumber(2)], Some("addr2")),
                             "addr2" := StoredPage([JNumber(3)], None)];
      && EndsWithin(StoreFetch(store)("addr1"), StoreFetch(store), 1)
      && Iterate(StoreFetch(store)("addr1"), StoreFetch(store), 1) == Run([JNumber(1), JNumber(2), JNumber(3)], None)
  {
    var store := map["addr1" := StoredPage([JNumber(1), JNumber(2)], Some("addr2")),
                     "addr2" := StoredPage([JNumber(3)], None)];
    var chain := ["addr1", "addr2"];
    assert IsChain(store, chain);
    StoreServesChain(store, chain);
    assert Serves(StoreFetch(store), store, chain[1..]);
    ChainYieldsConcatenation(store, chain, StoreFetch(store));
    assert Concat(store, chain) == [JNumber(1), JNumber(2)] + ([JNumber(3)] + Concat(store, []));
  }

  /** `resp.json()` of a GET response, or the error the request raised. */
  function FetchBody(c: Client, address: string, opts: Options, parse: UrlParser, send: Session): (r: Result<Json, Error>)
    ensures var g := Get(c, address, opts, parse, send);
      && (r.Success? <==> g.Success? && g.value.body.Some?)
      && (r.Success? ==> r.value == g.value.body.value)
      && (g.Failure? ==> r == Failure(g.error))
      && (g.Success? && g.value.body.None? ==> r == Failure(DecodeError))
  {
    match Get(c, address, opts, parse, send)
    case Success(resp) => DecodeBody(resp)
    case Failure(e) => Failure(e)
  }

  /** Follow-up pages are requested with the `next` address alone. */
  function FollowUps(c: Client, parse: UrlParser, send: Session): (fetch: Fetch)
    ensures forall a :: fetch(a) == FetchBody(c, a, NoOptions, parse, send)
  {
    a => FetchBody(c, a, NoOptions, parse, send)
  }

  /** `_iter_requests_get(address, **kwargs)`: the first page with the
      caller's options, every later page by its `next` address alone. A
      failed first request yields nothing; otherwise the first page's items
      come first. The code has no `bound`: it only witnesses that the chain
      ends, and `IterateBoundIndependent` shows the run does not depend on
      which witness is given. */
  function IterGet(c: Client, address: string, opts: Options, parse: UrlParser, send: Session, bound: nat): (r: Run)
    requires EndsWithin(FetchBody(c, address, opts, parse, send), FollowUps(c, parse, send), bound)
    ensures var first := FetchBody(c, address, opts, parse, send);
      && (first.Failure? ==> r == Run([], Some(first.error)))
      && (first.Success? && PageResults(first.value).Some? ==> PageResults(first.value).value <= r.items)
  {
    Iterate(FetchBody(c, address, opts, parse, send), FollowUps(c, parse, send), bound)
  }

  /** Through the session: when the first GET (with the caller's options)
      returns the first stored page and every GET by a later `next` address
      alone returns its stored page, the generator yields the concatenation
      of the pages' `results` and stops without error. */
  lemma IterGetOverChain(c: Client, opts: Options, parse: UrlParser, send: Session, store: map<string, StoredPage>, chain: seq<string>)
    requires IsChain(store, chain)
    requires FetchBody(c, chain[0], opts, parse, send) == Success(Body(store[chain[0]]))
    requires forall i :: 0 < i < |chain| ==> FetchBody(c, chain[i], NoOptions, parse, send) == Success(Body(store[chain[i]]))
    ensures EndsWithin(FetchBody(c, chain[0], opts, parse, send), FollowUps(c, parse, send), |chain| - 1)
    ensures IterGet(c, chain[0], opts, parse, send, |chain| - 1) == Run(Concat(store, chain), None)
  {
    var fetch := FollowUps(c, parse, send);
    assert Serves(fetch, store, chain[1..]) by {
      forall i | 0 <= i < |chain[1..]|
        ensures chain[1..][i] in store && fetch(chain[1..][i]) == Success(Body(store[chain[1..][i]]))
      {
        assert chain[1..][i] == chain[i + 1];
      }
    }
    ChainYieldsConcatenation(store, chain, fetch);
  }
}
