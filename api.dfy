/**
 * The client's data layer (js/api.js): fetching with retries and exponential
 * back-off, the owner's own latest point, the 'ALL' selection expansion and the
 * polling timers with their ten-second countdown.
 *
 * `fetch` is a parameter: attempt i of a request has the outcome `attempt(i)`.
 * Timer handles come from the caller, since `setInterval` is a host call.
 */
module Api {
  import opened Wrappers
  import opened Json
  import opened Records

  // ------------------------------------------------------------------
  // fetchWithRetry
  // ------------------------------------------------------------------

  /** An HTTP response; `ok` is the 2xx range, as in the Fetch standard. */
  datatype Response = Response(status: int) {
    predicate ok() { 200 <= status <= 299 }
  }

  /** One call of `fetch`: a response, or a rejected promise (network failure). */
  datatype Attempt = Responded(resp: Response) | NetworkError

  /** The error a failed attempt leaves behind: `HTTP <status>` for a response, the network error otherwise. */
  datatype FetchError = HttpError(status: int) | NetworkFailure

  /** What `await fetchWithRetry(...)` yields: a response, a thrown error, or `undefined` (NoResult). */
  datatype Outcome = Returned(resp: Response) | Thrown(error: FetchError) | NoResult

  predicate Succeeds(a: Attempt) {
    a.Responded? && a.resp.ok()
  }

  function ErrorOf(a: Attempt): FetchError {
    match a
    case Responded(r) => HttpError(r.status)
    case NetworkError => NetworkFailure
  }

  /** The first n attempts all failed. */
  ghost predicate AllFail(attempt: nat -> Attempt, n: nat) {
    forall j :: 0 <= j < n ==> !Succeeds(attempt(j))
  }

  function Pow2(n: nat): (r: nat)
    ensures r >= 1
  {
    if n == 0 then 1 else 2 * Pow2(n - 1)
  }

  /** Each wait is twice the one before it, starting at one second. */
  lemma BackoffDoubles(n: nat)
    ensures n > 0 ==> Backoff(n)[0] == 1000
    ensures forall j :: 0 < j < n ==> Backoff(n)[j] == 2 * Backoff(n)[j - 1]
  {
  }

  /** The waits before attempts 2 .. n+1: `2^i * 1000` ms after failed attempt i. */
  function Backoff(n: nat): (ds: seq<nat>)
    ensures |ds| == n
    ensures forall j :: 0 <= j < n ==> ds[j] == Pow2(j) * 1000
  {
    if n == 0 then [] else Backoff(n - 1) + [Pow2(n - 1) * 1000]
  }

  /**
   * Reference semantics of the retry loop from attempt i on: the first successful attempt
   * is returned, the last allowed attempt's failure is thrown, and every other failure,
   * whatever its status, leads to the next attempt.
   */
  function Retry(attempt: nat -> Attempt, maxRetries: int, i: nat): Outcome
    decreases if i < maxRetries then maxRetries - i else 0
  {
    if i >= maxRetries then NoResult
    else if Succeeds(attempt(i)) then Returned(attempt(i).resp)
    else if i == maxRetries - 1 then Thrown(ErrorOf(attempt(i)))
    else Retry(attempt, maxRetries, i + 1)
  }

  /**
   * `fetchWithRetry(url, options, maxRetries)`. Besides the outcome it reports how many
   * times fetch was called and the delays it waited, in order.
   */
  method FetchWithRetry(attempt: nat -> Attempt, maxRetries: int) returns (out: Outcome, calls: nat, delays: seq<nat>)
    ensures out == Retry(attempt, maxRetries, 0)
    ensures maxRetries <= 0 ==> out == NoResult && calls == 0 && delays == []
    ensures maxRetries > 0 ==> 1 <= calls <= maxRetries && AllFail(attempt, calls - 1) && delays == Backoff(calls - 1)
    ensures out.Returned? <==> maxRetries > 0 && calls >= 1 && Succeeds(attempt(calls - 1))
    ensures out.Returned? && calls >= 1 ==> out.resp == attempt(calls - 1).resp
    ensures out.Thrown? ==> calls == maxRetries && calls >= 1 && out.error == ErrorOf(attempt(calls - 1))
  {
    out, calls, delays := NoResult, 0, [];
    var i: int := 0;
    while i < maxRetries
      invariant 0 <= i && (maxRetries > 0 ==> i < maxRetries) && (maxRetries <= 0 ==> i == 0)
      invariant calls == i && AllFail(attempt, i) && delays == Backoff(i)
      invariant Retry(attempt, maxRetries, 0) == Retry(attempt, maxRetries, i)
      decreases maxRetries - i
    {
      calls := calls + 1;
      var a := attempt(i);
      if a.Responded? {
        if a.resp.ok() {
          return Returned(a.resp), calls, delays;
        }
        if a.resp.status >= 500 && i < maxRetries - 1 {
          delays := delays + [Pow2(i) * 1000];
          i := i + 1;
          continue;
        }
      }
      // The HTTP error thrown for any other response lands in the same catch block as a network error.
      if i == maxRetries - 1 {
        return Thrown(ErrorOf(a)), calls, delays;
      }
      delays := delays + [Pow2(i) * 1000];
      i := i + 1;
    }
  }

  /** A 4xx answer is retried like a 5xx one: a later success is still returned. */
  lemma ClientErrorRetried(attempt: nat -> Attempt, maxRetries: int, status: int)
    requires maxRetries >= 2 && 400 <= status <= 499
    requires attempt(0) == Responded(Response(status)) && Succeeds(attempt(1))
    ensures Retry(attempt, maxRetries, 0) == Returned(attempt(1).resp)
  {
  }

  /** When every allowed attempt fails, the last attempt's error is what the caller sees. */
  lemma {:induction false} RetryExhausted(attempt: nat -> Attempt, maxRetries: int, i: nat)
    requires i < maxRetries
    requires forall j :: i <= j < maxRetries ==> !Succeeds(attempt(j))
    ensures Retry(attempt, maxRetries, i) == Thrown(ErrorOf(attempt(maxRetries - 1)))
    decreases maxRetries - i
  {
    if i < maxRetries - 1 {
      RetryExhausted(attempt, maxRetries, i + 1);
    }
  }

  /** The first successful attempt within the allowance decides the outcome. */
  lemma {:induction false} RetryFirstSuccess(attempt: nat -> Attempt, maxRetries: int, i: nat, k: nat)
    requires i <= k < maxRetries && Succeeds(attempt(k))
    requires forall j :: i <= j < k ==> !Succeeds(attempt(j))
    ensures Retry(attempt, maxRetries, i) == Returned(attempt(k).resp)
    decreases k - i
  {
    if i < k {
      RetryFirstSuccess(attempt, maxRetries, i + 1, k);
    }
  }

  // ------------------------------------------------------------------
  // fetchOwnerLocation
  // ------------------------------------------------------------------

  /** `config.k` is truthy. */
  predicate ConfigTruthy(config: map<string, Json>, k: string) {
    k in config && Truthy(config[k])
  }

  /** The fixed position, when both `config.fixedLat` and `config.fixedLon` are truthy, through `parseFloat`. */
  function FixedPosition(config: map<string, Json>, parseFloat: Json -> real): (r: Option<(real, real)>)
    ensures r.Some? <==> ConfigTruthy(config, "fixedLat") && ConfigTruthy(config, "fixedLon")
  {
    if ConfigTruthy(config, "fixedLat") && ConfigTruthy(config, "fixedLon")
    then Some((parseFloat(config["fixedLat"]), parseFloat(config["fixedLon"])))
    else None
  }

  /**
   * The object built from `data.point`: both coordinate spellings from the point, battery,
   * timestamp, email 'OWNER' and a null address; a fixed position then overwrites
   * `latitude` and `longitude` but not `lat` and `lon`.
   */
  function ClientOwnerRecord(point: Json, fixed: Option<(real, real)>): (rec: Json)
    requires point != JNull
    ensures rec.JObj?
    ensures "email" in rec.fields && rec.fields["email"] == JStr(OWNER)
    ensures "address" in rec.fields && rec.fields["address"] == JNull
    ensures rec.fields.Keys <= {"email", "latitude", "lon", "lat", "longitude", "battery", "timestamp", "address"}
  {
    var upstream := Upstream(point);
    var base := upstream["email" := JStr(OWNER)]["address" := JNull];
    match fixed
    case None => JObj(base)
    case Some((la, lo)) => JObj(base["latitude" := JNum(la)]["longitude" := JNum(lo)])
  }

  /** The fields copied from the point, under both coordinate spellings. */
  function Upstream(point: Json): (m: map<string, Json>)
    requires point != JNull
    ensures m.Keys <= {"latitude", "lon", "lat", "longitude", "battery", "timestamp"}
  {
    WithProp(WithProp(WithProp(WithProp(WithProp(WithProp(map[],
      "latitude", Field(point, "latitude")), "lon", Field(point, "longitude")),
      "lat", Field(point, "latitude")), "longitude", Field(point, "longitude")),
      "battery", Field(point, "battery")), "timestamp", Field(point, "timestamp"))
  }

  /** Each upstream field is present exactly when the point has its source field, with its value. */
  lemma UpstreamCopies(point: Json)
    requires point != JNull
    ensures var m := JObj(Upstream(point));
      FieldFrom(m, "latitude", Field(point, "latitude")) && FieldFrom(m, "lon", Field(point, "longitude")) &&
      FieldFrom(m, "lat", Field(point, "latitude")) && FieldFrom(m, "longitude", Field(point, "longitude")) &&
      FieldFrom(m, "battery", Field(point, "battery")) && FieldFrom(m, "timestamp", Field(point, "timestamp"))
  {
  }

  /** `lat` and `lon` always carry the upstream coordinates. */
  lemma OwnerRawCoordinates(point: Json, fixed: Option<(real, real)>)
    requires point != JNull
    ensures FieldFrom(ClientOwnerRecord(point, fixed), "lat", Field(point, "latitude"))
    ensures FieldFrom(ClientOwnerRecord(point, fixed), "lon", Field(point, "longitude"))
  {
    UpstreamCopies(point);
  }

  /** Without a fixed position `latitude` and `longitude` are the upstream ones too. */
  lemma OwnerUpstreamCoordinates(point: Json)
    requires point != JNull
    ensures FieldFrom(ClientOwnerRecord(point, None), "latitude", Field(point, "latitude"))
    ensures FieldFrom(ClientOwnerRecord(point, None), "longitude", Field(point, "longitude"))
  {
    UpstreamCopies(point);
  }

  /** With a fixed position `latitude` and `longitude` are the fixed numbers. */
  lemma OwnerFixedCoordinates(point: Json, la: real, lo: real)
    requires point != JNull
    ensures var rec := ClientOwnerRecord(point, Some((la, lo)));
      "latitude" in rec.fields && rec.fields["latitude"] == JNum(la) &&
      "longitude" in rec.fields && rec.fields["longitude"] == JNum(lo)
  {
  }

  /** Battery and timestamp are copied from the point. */
  lemma OwnerTelemetry(point: Json, fixed: Option<(real, real)>)
    requires point != JNull
    ensures FieldFrom(ClientOwnerRecord(point, fixed), "battery", Field(point, "battery"))
    ensures FieldFrom(ClientOwnerRecord(point, fixed), "timestamp", Field(point, "timestamp"))
  {
    UpstreamCopies(point);
  }

  /**
   * The value `fetchOwnerLocation` leaves in `ownerLocation` (JNull for null). `body` is what
   * `response.json()` yields, None when it rejects. Every failure on the way gives null.
   */
  function OwnerLocation(config: map<string, Json>, attempt: nat -> Attempt, body: Option<Json>, parseFloat: Json -> real): (o: Json)
    ensures !ConfigTruthy(config, "apiUserName") ==> o == JNull
    ensures o != JNull <==>
      ConfigTruthy(config, "apiUserName") && Retry(attempt, 3, 0).Returned? &&
      body.Some? && body.value != JNull && PropTruthy(Get(body.value, "point").value)
    ensures o != JNull ==> o == ClientOwnerRecord(Get(body.value, "point").value.value, FixedPosition(config, parseFloat))
  {
    if !ConfigTruthy(config, "apiUserName") then JNull
    else
      var reply := Retry(attempt, 3, 0);
      if !(reply.Returned? && reply.resp.ok()) then JNull
      else match body
        case None => JNull
        case Some(data) =>
          match Get(data, "point")
          case Err(_) => JNull
          case Ok(p) => if PropTruthy(p) then ClientOwnerRecord(p.value, FixedPosition(config, parseFloat)) else JNull
  }

  /** Only successful responses leave the retry loop, so the `response.ok` test never sees a failed one. */
  lemma {:induction false} RetryReturnsOk(attempt: nat -> Attempt, maxRetries: int, i: nat)
    ensures Retry(attempt, maxRetries, i).Returned? ==> Retry(attempt, maxRetries, i).resp.ok()
    decreases if i < maxRetries then maxRetries - i else 0
  {
    if i < maxRetries && !Succeeds(attempt(i)) && i != maxRetries - 1 {
      RetryReturnsOk(attempt, maxRetries, i + 1);
    }
  }

  // ------------------------------------------------------------------
  // Selection expansion
  // ------------------------------------------------------------------

  /** The emails occurring in a list of records. */
  ghost predicate IsEmailSet(es: set<string>, locations: seq<Member>) {
    forall e :: e in es <==> exists j :: 0 <= j < |locations| && locations[j].email == e
  }

  /** A browser timer id; browsers hand out positive ones, which are truthy. */
  type Handle = h: int | h > 0 witness 1

  /** The handles `stopTracking` passes to `clearInterval`, in call order. */
  function Live(refresh: Option<Handle>, countdown: Option<Handle>): (hs: seq<Handle>)
    ensures |hs| == (if refresh.Some? then 1 else 0) + (if countdown.Some? then 1 else 0)
    ensures forall h :: h in hs <==> Some(h) == refresh || Some(h) == countdown
    ensures refresh.Some? ==> hs[0] == refresh.value
    ensures countdown.Some? ==> hs[|hs| - 1] == countdown.value
  {
    (if refresh.Some? then [refresh.value] else []) + (if countdown.Some? then [countdown.value] else [])
  }

  // ------------------------------------------------------------------
  // The countdown
  // ------------------------------------------------------------------

  /** One run of the countdown callback: decrement, and start over at 10 once it reaches 0. */
  function NextSecond(s: int): (r: int)
    ensures s <= 11 ==> 1 <= r <= 10
    ensures r == 10 || r == s - 1
  {
    if s - 1 <= 0 then 10 else s - 1
  }

  /** The countdown after k callbacks. */
  function Ticks(s: int, k: nat): int
    decreases k
  {
    if k == 0 then s else Ticks(NextSecond(s), k - 1)
  }

  lemma {:induction false} TicksSnoc(s: int, k: nat)
    ensures Ticks(s, k + 1) == NextSecond(Ticks(s, k))
    decreases k
  {
    if k > 0 {
      TicksSnoc(NextSecond(s), k - 1);
    }
  }

  /** Counting down from s takes s - 1 callbacks to reach 1. */
  lemma {:induction false} TicksDown(s: int, k: nat)
    requires k < s
    ensures Ticks(s, k) == s - k
    decreases k
  {
    if k > 0 {
      TicksDown(s - 1, k - 1);
    }
  }

  /** From a fresh countdown the display shows 10, 9, ..., 1 and is back at 10 after ten seconds. */
  lemma CountdownCycle()
    ensures forall k :: 0 <= k < 10 ==> Ticks(10, k) == 10 - k
    ensures Ticks(10, 10) == 10
  {
    forall k | 0 <= k < 10 ensures Ticks(10, k) == 10 - k {
      TicksDown(10, k);
    }
    TicksSnoc(10, 9);
  }

  // ------------------------------------------------------------------
  // Module state
  // ------------------------------------------------------------------

  /** The module-level `let` bindings of js/api.js that these operations reassign. */
  class Tracker {
    var refreshInterval: Option<Handle>
    var countdownInterval: Option<Handle>
    var secondsToRefresh: int
    var lastLocations: seq<Member>
    var ownerLocation: Json
    /** How many times the fetch callback has been called directly (not by a timer). */
    var immediateFetches: nat
    /** Every handle passed to `clearInterval`, oldest first. */
    var cleared: seq<Handle>

    constructor ()
      ensures refreshInterval == None && countdownInterval == None && secondsToRefresh == 10
      ensures lastLocations == [] && ownerLocation == JNull
      ensures immediateFetches == 0 && cleared == []
    {
      refreshInterval := None;
      countdownInterval := None;
      secondsToRefresh := 10;
      lastLocations := [];
      ownerLocation := JNull;
      immediateFetches := 0;
      cleared := [];
    }

    /** The body of the one-second countdown interval. */
    method Tick()
      modifies this`secondsToRefresh
      ensures secondsToRefresh == NextSecond(old(secondsToRefresh))
      ensures 1 <= old(secondsToRefresh) <= 10 ==> 1 <= secondsToRefresh <= 10
    {
      secondsToRefresh := secondsToRefresh - 1;
      if secondsToRefresh <= 0 {
        secondsToRefresh := 10;
      }
    }

    /** `stopTracking`: clears whichever timers are set; calling it again clears nothing more. */
    method StopTracking()
      modifies this`refreshInterval, this`countdownInterval, this`cleared
      ensures refreshInterval == None && countdownInterval == None
      ensures cleared == old(cleared) + Live(old(refreshInterval), old(countdownInterval))
    {
      if refreshInterval.Some? {
        cleared := cleared + [refreshInterval.value];
        refreshInterval := None;
      }
      if countdownInterval.Some? {
        cleared := cleared + [countdownInterval.value];
        countdownInterval := None;
      }
    }

    /** `startTracking`: stop the old timers, fetch once, then install the two new ones. */
    method StartTracking(refresh: Handle, countdown: Handle)
      modifies this`refreshInterval, this`countdownInterval, this`cleared, this`immediateFetches
      ensures refreshInterval == Some(refresh) && countdownInterval == Some(countdown)
      ensures cleared == old(cleared) + Live(old(refreshInterval), old(countdownInterval))
      ensures immediateFetches == old(immediateFetches) + 1
    {
      StopTracking();
      immediateFetches := immediateFetches + 1;
      refreshInterval := Some(refresh);
      countdownInterval := Some(countdown);
    }

    /**
     * `fetchOwnerLocation(config)`. No request is made without `apiUserName`; otherwise
     * one to three calls of fetch, by the default retry allowance.
     */
    method FetchOwnerLocation(config: map<string, Json>, attempt: nat -> Attempt, body: Option<Json>, parseFloat: Json -> real)
      returns (calls: nat)
      modifies this`ownerLocation
      ensures ownerLocation == OwnerLocation(config, attempt, body, parseFloat)
      ensures !ConfigTruthy(config, "apiUserName") ==> calls == 0
      ensures ConfigTruthy(config, "apiUserName") ==> 1 <= calls <= 3
    {
      if !ConfigTruthy(config, "apiUserName") {
        ownerLocation := JNull;
        return 0;
      }
      var reply, n, _ := FetchWithRetry(attempt, 3);
      calls := n;
      if !(reply.Returned? && reply.resp.ok()) {
        ownerLocation := JNull;
        return;
      }
      if body.None? {
        ownerLocation := JNull;
        return;
      }
      var point := Get(body.value, "point");
      if point.Err? || !PropTruthy(point.value) {
        ownerLocation := JNull;
        return;
      }
      ownerLocation := ClientOwnerRecord(point.value.value, None);
      if ConfigTruthy(config, "fixedLat") && ConfigTruthy(config, "fixedLon") {
        ownerLocation := JObj(ownerLocation.fields["latitude" := JNum(parseFloat(config["fixedLat"]))]);
        ownerLocation := JObj(ownerLocation.fields["longitude" := JNum(parseFloat(config["fixedLon"]))]);
      }
    }

    /** The 'ALL' step of `fetchData`: the shared selection becomes exactly the emails of `lastLocations`. */
    method ExpandAll(selected: EmailSet)
      modifies selected
      ensures "ALL" in old(selected.elems) ==> IsEmailSet(selected.elems, lastLocations)
      ensures "ALL" !in old(selected.elems) ==> selected.elems == old(selected.elems)
    {
      if selected.Has("ALL") {
        selected.Clear();
        var i := 0;
        while i < |lastLocations|
          invariant 0 <= i <= |lastLocations|
          invariant IsEmailSet(selected.elems, lastLocations[..i])
        {
          selected.Add(lastLocations[i].email);
          assert lastLocations[..i + 1][..i] == lastLocations[..i];
          i := i + 1;
        }
        assert lastLocations[..i] == lastLocations;
      }
    }
  }
}
