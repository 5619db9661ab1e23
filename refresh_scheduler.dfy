/**
 * The refresh rule of the rainfall animation: how long scheduleRefresh waits
 * before asking for new timestamps, and which of its two callbacks the
 * request's outcome reaches. The clock reading, the timer and the request
 * are parameters.
 */
module RefreshScheduler {
  import opened Common
  import FormatoData
  import ApiManager

  /** The default intervalMs: 15 minutes. */
  const DefaultIntervalMs: int := 15 * 60 * 1000

  /** The default minDelay: 1 minute. */
  const DefaultMinDelay: int := 60 * 1000

  /**
   * What scheduleRefresh throws: the log line formats the last timestamp,
   * and toISOString rejects an Invalid Date before any timer is set.
   */
  datatype Falha = InvalidLastTimestamp

  /**
   * The delay of the timer scheduleRefresh sets at time now: intervalMs for
   * an empty list, otherwise the time left until the last timestamp plus
   * intervalMs, but never less than minDelay.
   */
  function Delay(timestamps: seq<string>, intervalMs: int, minDelay: int, now: int): (r: Result<int, Falha>)
    ensures timestamps == [] ==> r == Success(intervalMs)
    ensures timestamps != [] ==>
      var last := FormatoData.ConvertTimestampToDate(timestamps[|timestamps| - 1]);
      (r.Failure? <==> last.None?)
      && (r.Success? ==> r.value >= minDelay && r.value >= last.value + intervalMs - now
                         && (r.value == minDelay || r.value == last.value + intervalMs - now))
  {
    if timestamps == [] then Success(intervalMs)
    else DelayAfter(FormatoData.ConvertTimestampToDate(timestamps[|timestamps| - 1]), intervalMs, minDelay, now)
  }

  /** The clamped delay after the last timestamp's instant, or the throw for an Invalid Date. */
  function DelayAfter(lastDate: Option<int>, intervalMs: int, minDelay: int, now: int): Result<int, Falha>
  {
    match lastDate
    case None => Failure(InvalidLastTimestamp)
    case Some(t) =>
      var delay := t + intervalMs - now;
      Success(if delay < minDelay then minDelay else delay)
  }

  /** The delay reads only the last element of the list, not the greatest. */
  lemma {:induction false} DelayOfLast(a: seq<string>, b: seq<string>, x: string, intervalMs: int, minDelay: int, now: int)
    ensures Delay(a + [x], intervalMs, minDelay, now) == Delay(b + [x], intervalMs, minDelay, now)
  {
    assert Delay(a + [x], intervalMs, minDelay, now) == DelayAfter(FormatoData.ConvertTimestampToDate(x), intervalMs, minDelay, now) by {
      assert (a + [x])[|a + [x]| - 1] == x;
    }
    assert Delay(b + [x], intervalMs, minDelay, now) == DelayAfter(FormatoData.ConvertTimestampToDate(x), intervalMs, minDelay, now) by {
      assert (b + [x])[|b + [x]| - 1] == x;
    }
  }

  /** The callback that runs when the timer fires. */
  datatype Callback = OnRefreshSuccess(timestamps: seq<string>) | OnRefreshError(error: ApiManager.Erro)

  /** The timer's body: refreshTimestamps at the firing time, then exactly one of the two callbacks. */
  function Fire(firedAt: int, resp: ApiManager.Resposta): (c: Callback)
    ensures c.OnRefreshSuccess? <==> ApiManager.RefreshTimestamps(firedAt, resp).Success?
    ensures c.OnRefreshSuccess? ==> c.timestamps == ApiManager.RefreshTimestamps(firedAt, resp).value
    ensures c.OnRefreshError? ==> c.error == ApiManager.RefreshTimestamps(firedAt, resp).error
  {
    match ApiManager.RefreshTimestamps(firedAt, resp)
    case Success(ts) => OnRefreshSuccess(ts)
    case Failure(e) => OnRefreshError(e)
  }

  /**
   * With a valid last timestamp the refresh runs no sooner than one minDelay
   * from now and no sooner than intervalMs after that timestamp.
   */
  lemma {:induction false} NextRefreshTime(timestamps: seq<string>, intervalMs: int, minDelay: int, now: int)
    requires timestamps != [] && FormatoData.ConvertTimestampToDate(timestamps[|timestamps| - 1]).Some?
    ensures var d := Delay(timestamps, intervalMs, minDelay, now);
      d.Success? && now + d.value >= now + minDelay
      && now + d.value >= FormatoData.ConvertTimestampToDate(timestamps[|timestamps| - 1]).value + intervalMs
  {
  }
}
