/**
 * The Hydro-Estimator timestamp client: the two-hour window filter, the
 * single-slot cache in front of the timestamp request, and the uncached
 * refresh. The clock reading and the request's outcome are parameters.
 */
module ApiManager {
  import opened Common
  import opened Seqs
  import FormatoData

  /** Two hours in milliseconds. */
  const TwoHoursMs: int := 2 * 60 * 60 * 1000

  /** A timestamp's instant lies in [now - 2 h, now]; an Invalid Date compares false both ways. */
  predicate Recent(ts: string, now: int)
  {
    var t := FormatoData.ConvertTimestampToDate(ts);
    t.Some? && now - TwoHoursMs <= t.value <= now
  }

  function RecentAt(now: int): string -> bool { (ts: string) => Recent(ts, now) }

  /** filterTimestamps: the timestamps of the last two hours, in their order. */
  function FilterTimestamps(data: seq<string>, now: int): (r: seq<string>)
    ensures forall ts :: ts in r <==> ts in data && Recent(ts, now)
  {
    FilterMembers(data, RecentAt(now));
    Filter(data, RecentAt(now))
  }

  lemma {:induction false} FilterMembers<T>(s: seq<T>, p: T -> bool)
    ensures forall x :: x in Filter(s, p) <==> x in s && p(x)
  {
    forall x | x in s && p(x) ensures x in Filter(s, p) {
      var i :| 0 <= i < |s| && s[i] == x;
    }
  }

  /** Filtering an already filtered list at the same instant changes nothing. */
  lemma {:induction false} FilterTimestampsIdempotent(data: seq<string>, now: int)
    ensures FilterTimestamps(FilterTimestamps(data, now), now) == FilterTimestamps(data, now)
  {
    FilterIdempotent(data, RecentAt(now));
  }

  /** `data[productID]` in the response body: missing or falsy, something other than an array, or an array. */
  datatype Produto = Missing | NotArray | Lista(timestamps: seq<string>)

  /** The request's outcome: a non-ok status (or a network error), or a body. */
  datatype Resposta = HttpError | Corpo(produto: Produto)

  /** What the two fetchers throw. */
  datatype Erro = RequestFailed | NoTimes

  /** The response checks of both fetchers: the request succeeded and the product's list is a non-empty array. */
  function Validate(resp: Resposta): (r: Result<seq<string>, Erro>)
    ensures r.Success? <==> resp.Corpo? && resp.produto.Lista? && |resp.produto.timestamps| > 0
    ensures r.Success? ==> r.value == resp.produto.timestamps
    ensures resp.HttpError? ==> r == Failure(RequestFailed)
  {
    if resp.HttpError? then Failure(RequestFailed)
    else if resp.produto.Lista? && |resp.produto.timestamps| > 0 then Success(resp.produto.timestamps)
    else Failure(NoTimes)
  }

  /** apiCache's data (null is None) and timestamp (null counts as 0 in the subtraction). */
  datatype Cache = Cache(data: Option<seq<string>>, timestamp: int)

  /** The cache serves: it is enabled, holds data, and is younger than ttl. */
  predicate Hit(c: Cache, useCache: bool, now: int, ttl: int)
  {
    useCache && c.data.Some? && now - c.timestamp < ttl
  }

  /**
   * fetchTimestamps as a function of the cache, the flag, the time, the ttl
   * and the response it would get: the answer and the new cache.
   */
  function Fetch(c: Cache, useCache: bool, now: int, ttl: int, resp: Resposta): (Result<seq<string>, Erro>, Cache)
  {
    if Hit(c, useCache, now, ttl) then (Success(FilterTimestamps(c.data.value, now)), c)
    else
      match Validate(resp)
      case Success(ts) => (Success(FilterTimestamps(ts, now)), Cache(Some(ts), now))
      case Failure(e) => (Failure(e), c)
  }

  /** apiCache: its ttl comes from the configuration, which the client takes as given. */
  class ApiCache {
    var data: Option<seq<string>>
    var timestamp: int
    const ttl: int

    constructor(ttl: int)
      ensures data == None && timestamp == 0 && this.ttl == ttl
    {
      data := None;
      timestamp := 0;
      this.ttl := ttl;
    }

    function State(): Cache
      reads this
    {
      Cache(data, timestamp)
    }

    /** fetchTimestamps(productID, useCache) at time now, with the response the request would get. */
    method FetchTimestamps(useCache: bool, now: int, resp: Resposta) returns (r: Result<seq<string>, Erro>)
      modifies this
      ensures (r, State()) == Fetch(old(State()), useCache, now, ttl, resp)
    {
      if useCache && data.Some? && now - timestamp < ttl {
        return Success(FilterTimestamps(data.value, now));
      }
      var checked := Validate(resp);
      if checked.Failure? {
        return Failure(checked.error);
      }
      data := Some(checked.value);
      timestamp := now;
      r := Success(FilterTimestamps(data.value, now));
    }
  }

  /** refreshTimestamps: the same request and checks, with no cache involved. */
  function RefreshTimestamps(now: int, resp: Resposta): (r: Result<seq<string>, Erro>)
    ensures r.Success? <==> Validate(resp).Success?
    ensures r.Success? ==> r.value == FilterTimestamps(Validate(resp).value, now)
  {
    match Validate(resp)
    case Success(ts) => Success(FilterTimestamps(ts, now))
    case Failure(e) => Failure(e)
  }

  /**
   * A cached call is answered from the stored list, filtered at the current
   * time, whatever the response, and leaves the cache as it was.
   */
  lemma {:induction false} FetchHit(c: Cache, useCache: bool, now: int, ttl: int, resp: Resposta)
    requires Hit(c, useCache, now, ttl)
    ensures Fetch(c, useCache, now, ttl, resp) == (Success(FilterTimestamps(c.data.value, now)), c)
  {
  }

  /**
   * Otherwise the answer is what refreshTimestamps would answer; a success
   * stores the unfiltered list and the time, a rejection keeps the cache.
   */
  lemma {:induction false} FetchMiss(c: Cache, useCache: bool, now: int, ttl: int, resp: Resposta)
    requires !Hit(c, useCache, now, ttl)
    ensures var (r, c') := Fetch(c, useCache, now, ttl, resp);
      r == RefreshTimestamps(now, resp)
      && (r.Success? ==> c' == Cache(Some(resp.produto.timestamps), now))
      && (r.Failure? ==> c' == c)
  {
  }

  /** Without the cache flag the fetch is a refresh that also stores the list. */
  lemma {:induction false} FetchUncached(c: Cache, now: int, ttl: int, resp: Resposta)
    ensures Fetch(c, false, now, ttl, resp).0 == RefreshTimestamps(now, resp)
  {
  }

  /**
   * After a successful fetch at t, a cached call less than ttl later is a
   * hit: it answers the same stored list, filtered at its own time.
   */
  lemma {:induction false} FetchThenHit(c: Cache, useCache: bool, t: int, t': int, ttl: int, resp: Resposta, resp': Resposta)
    requires !Hit(c, useCache, t, ttl) && Validate(resp).Success? && t' - t < ttl
    ensures var c1 := Fetch(c, useCache, t, ttl, resp).1;
      Fetch(c1, true, t', ttl, resp') == (Success(FilterTimestamps(resp.produto.timestamps, t')), c1)
  {
  }

  /** Every answer holds only timestamps of the two hours before the call. */
  lemma {:induction false} FetchRecent(c: Cache, useCache: bool, now: int, ttl: int, resp: Resposta)
    ensures var r := Fetch(c, useCache, now, ttl, resp).0;
      r.Success? ==> forall ts :: ts in r.value ==> Recent(ts, now)
  {
  }
}
