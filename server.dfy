/**
 * The share-link backend: POST /api/share issues a signed token, GET
 * /api/shared/location turns a token into one location record, and GET
 * /api/status reports whether the upstream credentials are set. Each handler
 * is a function from the request, the process environment and the outcomes of
 * the foreign calls it makes (token verification, the upstream fetch) to the
 * HTTP reply; the server keeps no state between requests.
 */
module Server {
  import opened Wrappers
  import opened Json
  import Text

  /** DAWARICH_API_URL and DAWARICH_API_KEY from the environment; "" stands for unset. */
  datatype Env = Env(apiUrl: string, apiKey: string)

  /** `!!(DAWARICH_API_URL && DAWARICH_API_KEY)` */
  predicate Configured(env: Env) {
    env.apiUrl != [] && env.apiKey != []
  }

  /** A reply: a JSON body with a status, or Express's default error page after a synchronous throw. */
  datatype Reply =
    | JsonReply(status: int, body: Json)
    | ErrorPage(status: int)

  const OWNER := "OWNER"
  const DEFAULT_NAME := "User"
  const DEFAULT_DURATION := 3600

  const NotConfiguredReply := JsonReply(503, ErrorBody("Server not configured for sharing (Missing API URL/Key)"))
  const MissingTokenReply := JsonReply(401, ErrorBody("Missing token"))
  const ExpiredReply := JsonReply(410, ErrorBody("Share link expired"))
  const InternalErrorReply := JsonReply(500, ErrorBody("Internal Server Error"))
  const NotFoundReply := JsonReply(404, ErrorBody("Location not found or outdated"))

  /** The checkConfig middleware: a reply that ends the request, or None to pass on to the handler. */
  function CheckConfig(env: Env): (r: Option<Reply>)
    ensures r.Some? <==> !Configured(env)
    ensures r.Some? ==> r.value.status == 503
  {
    if !Configured(env) then Some(NotConfiguredReply) else None
  }

  // ---------------------------------------------------------------------
  // POST /api/share
  // ---------------------------------------------------------------------

  /** The `duration` field of the request body: missing, a JSON integer, or a string. */
  datatype Duration = NoDuration | Seconds(n: int) | DurationText(s: string)

  /** The request body; "" stands for a missing string field. */
  datatype ShareBody = ShareBody(duration: Duration, email: string, name: string, styleUrl: string)

  predicate DurationTruthy(d: Duration) {
    match d
    case NoDuration => false
    case Seconds(n) => n != 0
    case DurationText(s) => s != []
  }

  predicate IsHexDigit(c: char) {
    Text.IsDigit(c) || 'a' <= c <= 'f' || 'A' <= c <= 'F'
  }

  function HexValue(c: char): (d: nat)
    requires IsHexDigit(c)
    ensures d < 16
  {
    if Text.IsDigit(c) then Text.DigitValue(c)
    else if 'a' <= c <= 'f' then (c as int - 'a' as int + 10) as nat
    else (c as int - 'A' as int + 10) as nat
  }

  /** The longest prefix of s made of digits of the radix (10 or 16). */
  function DigitPrefix(s: string, hex: bool): (r: string)
    ensures |r| <= |s| && r == s[..|r|]
    ensures forall i :: 0 <= i < |r| ==> if hex then IsHexDigit(r[i]) else Text.IsDigit(r[i])
    ensures |r| < |s| ==> !(if hex then IsHexDigit(s[|r|]) else Text.IsDigit(s[|r|]))
  {
    if s != [] && (if hex then IsHexDigit(s[0]) else Text.IsDigit(s[0]))
    then [s[0]] + DigitPrefix(s[1..], hex)
    else []
  }

  function RadixValue(s: string, hex: bool): nat
    requires forall i :: 0 <= i < |s| ==> if hex then IsHexDigit(s[i]) else Text.IsDigit(s[i])
  {
    if s == [] then 0
    else RadixValue(s[..|s| - 1], hex) * (if hex then 16 else 10)
         + (if hex then HexValue(s[|s| - 1]) else Text.DigitValue(s[|s| - 1]))
  }

  /**
   * parseInt(s) with no radix: leading whitespace is skipped, then an optional
   * sign, an optional "0x"/"0X" that selects base 16, and the longest run of
   * digits; None is NaN (no digit at all).
   */
  function ParseInt(s: string): (r: Option<int>)
    // NaN exactly when no digit of the selected radix follows the whitespace, sign and prefix
    ensures var u := Unsigned(Text.TrimStart(s));
      var rest := if HasHexPrefix(u) then u[2..] else u;
      r.None? <==> rest == [] || !(if HasHexPrefix(u) then IsHexDigit(rest[0]) else Text.IsDigit(rest[0]))
    // only a leading minus gives a negative number
    ensures r.Some? && r.value < 0 ==> IsNegative(Text.TrimStart(s))
    ensures r.Some? && !IsNegative(Text.TrimStart(s)) ==> r.value >= 0
  {
    var unsigned := Unsigned(Text.TrimStart(s));
    var hex := HasHexPrefix(unsigned);
    var digits := DigitPrefix(if hex then unsigned[2..] else unsigned, hex);
    if digits == [] then None
    else
      var v: int := RadixValue(digits, hex);
      Some(if IsNegative(Text.TrimStart(s)) then -v else v)
  }

  predicate IsNegative(t: string) {
    t != [] && t[0] == '-'
  }

  /** t without its leading sign. */
  function Unsigned(t: string): (u: string)
    ensures t != [] && (t[0] == '-' || t[0] == '+') ==> u == t[1..]
    ensures t == [] || (t[0] != '-' && t[0] != '+') ==> u == t
  {
    if t != [] && (t[0] == '-' || t[0] == '+') then t[1..] else t
  }

  predicate HasHexPrefix(u: string) {
    |u| >= 2 && u[0] == '0' && (u[1] == 'x' || u[1] == 'X')
  }

  lemma {:induction false} DigitPrefixOfDigits(s: string)
    requires forall i :: 0 <= i < |s| ==> Text.IsDigit(s[i])
    ensures DigitPrefix(s, false) == s
  {
    if s != [] {
      DigitPrefixOfDigits(s[1..]);
    }
  }

  lemma {:induction false} RadixValueIsDigitsValue(s: string)
    requires forall i :: 0 <= i < |s| ==> Text.IsDigit(s[i])
    ensures RadixValue(s, false) == Text.DigitsValue(s)
  {
    if s != [] {
      RadixValueIsDigitsValue(s[..|s| - 1]);
    }
  }

  /** The digit run stops at the first character that is not a digit. */
  lemma {:induction false} DigitPrefixStops(d: string, tail: string)
    requires forall i :: 0 <= i < |d| ==> Text.IsDigit(d[i])
    requires tail != [] && !Text.IsDigit(tail[0])
    ensures DigitPrefix(d + tail, false) == d
  {
    if d != [] {
      assert (d + tail)[1..] == d[1..] + tail;
      DigitPrefixStops(d[1..], tail);
    } else {
      assert d + tail == tail;
    }
  }

  /** parseInt ignores whatever follows the digits: "3600s" reads as 3600. */
  lemma ParseIntIgnoresTail(d: string, tail: string)
    requires d != [] && d[0] != '0' && forall i :: 0 <= i < |d| ==> Text.IsDigit(d[i])
    requires tail != [] && !Text.IsDigit(tail[0])
    ensures ParseInt(d + tail) == Some(RadixValue(d, false))
  {
    var s := d + tail;
    assert s[0] == d[0] && Text.IsDigit(s[0]);
    assert !Text.IsJsWhitespace(s[0]);
    assert Text.TrimStart(s) == s;
    assert Unsigned(s) == s;
    assert !HasHexPrefix(s);
    assert !IsNegative(s);
    DigitPrefixStops(d, tail);
  }

  /** A "0x" prefix selects base 16: "0x1f" reads as 31. */
  lemma ParseIntHex()
    ensures ParseInt("0x1f") == Some(31)
  {
    var s := "0x1f";
    assert !Text.IsJsWhitespace(s[0]);
    assert Text.TrimStart(s) == s;
    assert Unsigned(s) == s;
    assert HasHexPrefix(s);
    assert s[2..] == "1f";
    assert DigitPrefix("f", true) == "f" by {
      assert "f"[1..] == [];
    }
    assert DigitPrefix("1f", true) == "1f" by {
      assert "1f"[1..] == "f";
    }
    assert RadixValue("1f", true) == 31 by {
      assert "1f"[..1] == "1";
      assert "1"[..0] == [];
    }
  }

  /** parseInt reads back the decimal text of a non-negative integer, as the client sends durations. */
  lemma ParseIntOfDecimal(n: nat)
    ensures ParseInt(Text.NatToString(n)) == Some(n)
  {
    var s := Text.NatToString(n);
    assert !Text.IsJsWhitespace(s[0]);
    assert Text.TrimStart(s) == s;
    assert Unsigned(s) == s;
    assert !HasHexPrefix(s) by {
      if |s| >= 2 { assert Text.IsDigit(s[1]); }
    }
    DigitPrefixOfDigits(s);
    RadixValueIsDigitsValue(s);
    Text.NatToStringRoundTrip(n);
  }

  /** `parseInt(duration || 3600)`: the token lifetime in seconds, None for NaN. */
  function ExpiresIn(d: Duration): (r: Option<int>)
    ensures !DurationTruthy(d) ==> r == Some(DEFAULT_DURATION)
    ensures d.Seconds? && d.n != 0 ==> r == Some(d.n)
    ensures d.DurationText? && d.s != [] ==> r == ParseInt(d.s)
  {
    if !DurationTruthy(d) then Some(DEFAULT_DURATION)
    else match d
      case Seconds(n) => Some(n)
      case DurationText(s) => ParseInt(s)
  }

  /** The payload the server signs. */
  datatype Payload = Payload(email: string, name: string, styleUrl: string, createdAt: int)

  /** A verified token: the payload with the issued-at and expiry NumericDates (seconds, section 4.1.4 of RFC 7519). */
  datatype Claims = Claims(payload: Payload, iat: int, exp: int)

  /**
   * The three `Date.now()` readings, in milliseconds, one share request makes:
   * the payload's `created_at`, the one jwt.sign takes for `iat`, and the one
   * behind `expires_at`. They are separate calls, so they may differ.
   */
  datatype Clock = Clock(createdMs: nat, signMs: nat, replyMs: nat)

  /** The payload built from the request body at time nowMs (milliseconds). */
  function SharePayload(body: ShareBody, nowMs: nat): (p: Payload)
    ensures p.email == (if body.email == [] then OWNER else body.email)
    ensures p.name == (if body.name == [] then DEFAULT_NAME else body.name)
    ensures p.email != [] && p.name != []
    ensures p.styleUrl == body.styleUrl && p.createdAt == nowMs
  {
    Payload(if body.email != [] then body.email else OWNER,
            if body.name != [] then body.name else DEFAULT_NAME,
            body.styleUrl,
            nowMs)
  }

  /**
   * The claims jwt.sign produces for a lifetime of `seconds`: iat is the
   * current time in whole seconds and exp lies `seconds` after it.
   */
  function SignedClaims(p: Payload, seconds: int, nowMs: nat): (c: Claims)
    ensures c.payload == p
    ensures c.iat * 1000 <= nowMs < c.iat * 1000 + 1000
    ensures c.exp - c.iat == seconds
  {
    Claims(p, nowMs / 1000, nowMs / 1000 + seconds)
  }

  /** The claims the token issued for `body` carries, None when the lifetime is NaN and jwt.sign throws. */
  function IssuedClaims(body: ShareBody, clock: Clock): (r: Option<Claims>)
    ensures r.Some? <==> ExpiresIn(body.duration).Some?
    ensures r.Some? ==> r.value.payload == SharePayload(body, clock.createdMs)
    ensures r.Some? ==> r.value.iat * 1000 <= clock.signMs < r.value.iat * 1000 + 1000
    ensures r.Some? ==> r.value.exp - r.value.iat == ExpiresIn(body.duration).value
  {
    match ExpiresIn(body.duration)
    case None => None
    case Some(seconds) => Some(SignedClaims(SharePayload(body, clock.createdMs), seconds, clock.signMs))
  }

  /**
   * POST /api/share. `sign` is jwt.sign with the server secret. The reply
   * carries the token and `expires_at` in milliseconds.
   */
  function Share(env: Env, body: ShareBody, clock: Clock, sign: Claims -> string): (r: Reply)
    ensures !Configured(env) ==> r == NotConfiguredReply
    ensures Configured(env) && ExpiresIn(body.duration).None? ==> r == ErrorPage(500)
    ensures Configured(env) && ExpiresIn(body.duration).Some? ==>
      var seconds := ExpiresIn(body.duration).value;
      r == JsonReply(200, JObj(map["token" := JStr(sign(IssuedClaims(body, clock).value)),
                                   "expires_at" := JNum((clock.replyMs + seconds * 1000) as real)]))
  {
    match CheckConfig(env)
    case Some(reply) => reply
    case None =>
      match IssuedClaims(body, clock)
      case None => ErrorPage(500)
      case Some(claims) =>
        var seconds := ExpiresIn(body.duration).value;
        JsonReply(200, JObj(map["token" := JStr(sign(claims)),
                                "expires_at" := JNum((clock.replyMs + seconds * 1000) as real)]))
  }

  /** With no duration in the body the link lives one hour, for the owner, under the name "User". */
  lemma ShareDefaults(body: ShareBody, clock: Clock)
    requires body.duration == NoDuration && body.email == [] && body.name == []
    ensures IssuedClaims(body, clock).Some?
    ensures var c := IssuedClaims(body, clock).value;
      c.payload.email == OWNER && c.payload.name == DEFAULT_NAME && c.exp == c.iat + 3600
  {
  }

  // ---------------------------------------------------------------------
  // GET /api/shared/location
  // ---------------------------------------------------------------------

  /** The outcome of jwt.verify: the decoded claims, a TokenExpiredError, or any other failure. */
  datatype Verification = Verified(claims: Claims) | TokenExpired | TokenInvalid

  /** The two upstream endpoints the handler may call. */
  datatype Endpoint = LatestPoints | FamilyLocations

  /** The outcome of `fetch` on an endpoint: a network failure, or a status and a body (None: not valid JSON). */
  datatype Upstream = NetworkError | Response(status: int, body: Option<Json>)

  predicate HttpOk(status: int) {
    200 <= status <= 299
  }

  /** What can be thrown inside the handler's try block besides the verifier's errors. */
  datatype Thrown = UpstreamStatus(status: int) | UpstreamUnreachable | BadJson | TypeErrorThrown

  /** `fetch`, `if (!response.ok) throw`, `await response.json()`. */
  function FetchJson(u: Upstream): (r: Result<Json, Thrown>)
    ensures r.Ok? <==> u.Response? && HttpOk(u.status) && u.body.Some?
    ensures r.Ok? ==> r.value == u.body.value
  {
    match u
    case NetworkError => Err(UpstreamUnreachable)
    case Response(status, body) =>
      if !HttpOk(status) then Err(UpstreamStatus(status))
      else match body
        case None => Err(BadJson)
        case Some(j) => Ok(j)
  }

  /** The endpoint queried for a claimed identity. */
  function EndpointFor(email: string): (e: Endpoint)
    ensures e == LatestPoints <==> email == OWNER
  {
    if email == OWNER then LatestPoints else FamilyLocations
  }

  /**
   * The owner's point from the points body: the first element of an array
   * body, otherwise the first element of `data.points`; None when neither has one.
   */
  function OwnerPoint(data: Json): (r: Result<Option<Json>, Thrown>)
    ensures data.JArr? && data.items != [] ==> r == Ok(Some(data.items[0]))
    ensures r.Err? <==> data == JNull
    ensures r.Ok? && r.value.Some? && !data.JArr? ==>
      data.JObj? && "points" in data.fields && data.fields["points"].JArr? &&
      data.fields["points"].items != [] && r.value.value == data.fields["points"].items[0]
    ensures r == Ok(None) <==>
      data != JNull && !(data.JArr? && data.items != []) &&
      !(data.JObj? && "points" in data.fields && data.fields["points"].JArr? && data.fields["points"].items != [])
  {
    if data.JArr? && data.items != [] then Ok(Some(data.items[0]))
    else match Get(data, "points")
      case Err(_) => Err(TypeErrorThrown)
      case Ok(Defined(JArr(points))) => if points != [] then Ok(Some(points[0])) else Ok(None)
      case Ok(_) => Ok(None)
  }

  /** The record built for the owner: coordinates, battery and timestamp under either upstream spelling. */
  function OwnerRecord(name: string, point: Json): (rec: Json)
    requires point != JNull
    ensures rec.JObj?
    ensures "email" in rec.fields && rec.fields["email"] == JStr(OWNER)
    ensures "name" in rec.fields && rec.fields["name"] == JStr(name)
    ensures "address" in rec.fields && rec.fields["address"] == JNull
    ensures rec.fields.Keys <= {"email", "name", "latitude", "longitude", "battery", "timestamp", "address"}
  {
    var lat := Or(Field(point, "latitude"), Field(point, "lat"));
    var lon := Or(Field(point, "longitude"), Field(point, "lon"));
    var batt := Or(Field(point, "battery"), Field(point, "batt"));
    var tst := Or(Field(point, "timestamp"), Field(point, "tst"));
    var telemetry := Entry("latitude", lat) + Entry("longitude", lon) + Entry("battery", batt) + Entry("timestamp", tst);
    JObj(telemetry["email" := JStr(OWNER)]["name" := JStr(name)]["address" := JNull])
  }

  /** The owner record's coordinates come from `latitude || lat` and `longitude || lon`. */
  lemma OwnerRecordCoordinates(name: string, point: Json)
    requires point != JNull
    ensures FieldFrom(OwnerRecord(name, point), "latitude", Or(Field(point, "latitude"), Field(point, "lat")))
    ensures FieldFrom(OwnerRecord(name, point), "longitude", Or(Field(point, "longitude"), Field(point, "lon")))
  {
  }

  /** The owner record's battery and timestamp come from `battery || batt` and `timestamp || tst`. */
  lemma OwnerRecordTelemetry(name: string, point: Json)
    requires point != JNull
    ensures FieldFrom(OwnerRecord(name, point), "battery", Or(Field(point, "battery"), Field(point, "batt")))
    ensures FieldFrom(OwnerRecord(name, point), "timestamp", Or(Field(point, "timestamp"), Field(point, "tst")))
  {
  }

  /** `m.email === email` */
  predicate Matches(m: Json, email: string) {
    m.JObj? && "email" in m.fields && m.fields["email"] == JStr(email)
  }

  /** An element `find` looks past: not null, and not a match. */
  predicate PassedOver(m: Json, email: string) {
    m != JNull && !Matches(m, email)
  }

  /** `members.find(m => m.email === email)` from position i: the index found, or the TypeError a null element raises. */
  function FindFrom(members: seq<Json>, email: string, i: nat): (r: Result<Option<nat>, Thrown>)
    requires i <= |members|
    decreases |members| - i
    ensures r.Ok? && r.value.Some? ==>
      i <= r.value.value < |members| && Matches(members[r.value.value], email) &&
      forall j :: i <= j < r.value.value ==> PassedOver(members[j], email)
    ensures r == Ok(None) ==> forall j :: i <= j < |members| ==> PassedOver(members[j], email)
    ensures r.Err? ==> exists j :: i <= j < |members| && members[j] == JNull &&
                                   forall k :: i <= k < j ==> PassedOver(members[k], email)
  {
    if i == |members| then Ok(None)
    else if members[i] == JNull then Err(TypeErrorThrown)
    else if Matches(members[i], email) then Ok(Some(i))
    else FindFrom(members, email, i + 1)
  }

  /** The member record: every upstream field, with the name replaced by the token's. */
  function MemberRecord(name: string, member: Json): (rec: Json)
    requires member.JObj?
    ensures rec.JObj? && "name" in rec.fields && rec.fields["name"] == JStr(name)
    ensures forall f :: f in member.fields && f != "name" ==> f in rec.fields && rec.fields[f] == member.fields[f]
    ensures rec.fields.Keys == member.fields.Keys + {"name"}
  {
    JObj(member.fields["name" := JStr(name)])
  }

  /**
   * The location record for verified claims, None when there is no data,
   * or what the upstream call or the body handling threw.
   */
  function Resolve(claims: Claims, upstream: Endpoint -> Upstream): (r: Result<Option<Json>, Thrown>)
    ensures FetchJson(upstream(EndpointFor(claims.payload.email))).Err? ==> r.Err?
    ensures r.Ok? && r.value.Some? ==> r.value.value.JObj?
    ensures r.Ok? && r.value.Some? ==>
      "name" in r.value.value.fields && r.value.value.fields["name"] == JStr(claims.payload.name)
  {
    var email := claims.payload.email;
    var name := claims.payload.name;
    match FetchJson(upstream(EndpointFor(email)))
    case Err(e) => Err(e)
    case Ok(data) =>
      if email == OWNER then
        match OwnerPoint(data)
        case Err(e) => Err(e)
        case Ok(point) =>
          if point.Some? && Truthy(point.value) then Ok(Some(OwnerRecord(name, point.value))) else Ok(None)
      else
        match Get(data, "locations")
        case Err(_) => Err(TypeErrorThrown)
        case Ok(locations) =>
          match Or(locations, Defined(JArr([])))
          case Defined(JArr(members)) =>
            (match FindFrom(members, email, 0)
             case Err(e) => Err(e)
             case Ok(None) => Ok(None)
             case Ok(Some(i)) => Ok(Some(MemberRecord(name, members[i]))))
          case _ => Err(TypeErrorThrown)
  }

  /** Adds `styleUrl` when the token carries one and `expires_at` (the exp claim, in seconds) when it is set. */
  function Compose(rec: Json, claims: Claims): (out: Json)
    requires rec.JObj?
    ensures out.JObj?
    ensures claims.payload.styleUrl != [] ==> "styleUrl" in out.fields && out.fields["styleUrl"] == JStr(claims.payload.styleUrl)
    ensures claims.exp != 0 ==> "expires_at" in out.fields && out.fields["expires_at"] == JNum(claims.exp as real)
    ensures forall f :: f in rec.fields && f != "styleUrl" && f != "expires_at" ==> f in out.fields && out.fields[f] == rec.fields[f]
    ensures out.fields.Keys == rec.fields.Keys
      + (if claims.payload.styleUrl != [] then {"styleUrl"} else {})
      + (if claims.exp != 0 then {"expires_at"} else {})
  {
    var f1 := if claims.payload.styleUrl != [] then rec.fields["styleUrl" := JStr(claims.payload.styleUrl)] else rec.fields;
    var f2 := if claims.exp != 0 then f1["expires_at" := JNum(claims.exp as real)] else f1;
    JObj(f2)
  }

  /**
   * GET /api/shared/location?token=... : `verify` is jwt.verify with the
   * server secret, `upstream` the outcome of fetching each endpoint.
   */
  function SharedLocation(env: Env, token: string, verify: string -> Verification, upstream: Endpoint -> Upstream): (r: Reply)
    ensures !Configured(env) ==> r == NotConfiguredReply
    ensures Configured(env) && token == [] ==> r == MissingTokenReply
    ensures Configured(env) && token != [] && verify(token) == TokenExpired ==> r == ExpiredReply
    ensures Configured(env) && token != [] && verify(token) == TokenInvalid ==> r == InternalErrorReply
  {
    match CheckConfig(env)
    case Some(reply) => reply
    case None =>
      if token == [] then MissingTokenReply
      else match verify(token)
        case TokenExpired => ExpiredReply
        case TokenInvalid => InternalErrorReply
        case Verified(claims) =>
          match Resolve(claims, upstream)
          case Err(_) => InternalErrorReply
          case Ok(None) => NotFoundReply
          case Ok(Some(rec)) => JsonReply(200, Compose(rec, claims))
  }

  /** The handler only ever answers with one of six statuses, and never 401 for a token that is present. */
  lemma LocationStatuses(env: Env, token: string, verify: string -> Verification, upstream: Endpoint -> Upstream)
    ensures SharedLocation(env, token, verify, upstream).JsonReply?
    ensures SharedLocation(env, token, verify, upstream).status in {200, 401, 404, 410, 500, 503}
    ensures token != [] ==> SharedLocation(env, token, verify, upstream).status != 401
  {
  }

  /** Without credentials, neither the token, the verifier nor the upstream affects the reply of either guarded endpoint. */
  lemma GuardComesFirst(env: Env, body: ShareBody, clock: Clock, sign: Claims -> string,
                        token: string, verify: string -> Verification, upstream: Endpoint -> Upstream)
    requires !Configured(env)
    ensures Share(env, body, clock, sign).status == 503
    ensures SharedLocation(env, token, verify, upstream).status == 503
  {
  }

  /** A request without a token is answered 401 whatever the verifier and the upstream would have done. */
  lemma MissingTokenSkipsVerifier(env: Env, verify1: string -> Verification, verify2: string -> Verification,
                                  upstream1: Endpoint -> Upstream, upstream2: Endpoint -> Upstream)
    requires Configured(env)
    ensures SharedLocation(env, [], verify1, upstream1) == SharedLocation(env, [], verify2, upstream2) == MissingTokenReply
  {
  }

  /** Every failure of the upstream call, including an error status, is a 500, never a 404. */
  lemma UpstreamFailureIs500(env: Env, token: string, verify: string -> Verification, upstream: Endpoint -> Upstream)
    requires Configured(env) && token != [] && verify(token).Verified?
    requires FetchJson(upstream(EndpointFor(verify(token).claims.payload.email))).Err?
    ensures SharedLocation(env, token, verify, upstream) == InternalErrorReply
  {
  }

  /** A claimed member that the family list does not contain gives 404. */
  lemma UnknownMemberIs404(env: Env, token: string, verify: string -> Verification, upstream: Endpoint -> Upstream, members: seq<Json>)
    requires Configured(env) && token != [] && verify(token).Verified?
    requires verify(token).claims.payload.email != OWNER
    requires upstream(FamilyLocations) == Response(200, Some(JObj(map["locations" := JArr(members)])))
    requires forall j :: 0 <= j < |members| ==> PassedOver(members[j], verify(token).claims.payload.email)
    ensures SharedLocation(env, token, verify, upstream) == NotFoundReply
  {
    FindNone(members, verify(token).claims.payload.email, 0);
  }

  /**
   * For the owner, a points body is answered 404 exactly when it yields no
   * first point or a falsy one.
   */
  lemma OwnerNotFound(env: Env, token: string, verify: string -> Verification, upstream: Endpoint -> Upstream, data: Json)
    requires Configured(env) && token != [] && verify(token).Verified?
    requires verify(token).claims.payload.email == OWNER
    requires upstream(LatestPoints) == Response(200, Some(data)) && data != JNull
    ensures OwnerPoint(data).Ok?
    ensures SharedLocation(env, token, verify, upstream) == NotFoundReply <==>
      OwnerPoint(data) == Ok(None) || !Truthy(OwnerPoint(data).value.value)
  {
    var c := verify(token).claims;
    assert FetchJson(upstream(EndpointFor(c.payload.email))) == Ok(data);
  }

  /** An empty array, an object with an empty `points` array, or one without `points` gives the owner 404. */
  lemma OwnerWithoutPointIs404(env: Env, token: string, verify: string -> Verification, upstream: Endpoint -> Upstream, data: Json)
    requires Configured(env) && token != [] && verify(token).Verified?
    requires verify(token).claims.payload.email == OWNER
    requires data == JArr([]) || data == JObj(map["points" := JArr([])]) || data == JObj(map[])
    requires upstream(LatestPoints) == Response(200, Some(data))
    ensures SharedLocation(env, token, verify, upstream) == NotFoundReply
  {
    OwnerNotFound(env, token, verify, upstream, data);
  }

  /** find returns undefined when every element is passed over. */
  lemma {:induction false} FindNone(members: seq<Json>, email: string, from: nat)
    requires from <= |members|
    requires forall j :: from <= j < |members| ==> PassedOver(members[j], email)
    ensures FindFrom(members, email, from) == Ok(None)
    decreases |members| - from
  {
    if from < |members| {
      FindNone(members, email, from + 1);
    }
  }

  /** A verified token whose record resolves is answered 200 with the composed record. */
  lemma LocationSuccess(env: Env, token: string, verify: string -> Verification, upstream: Endpoint -> Upstream)
    requires Configured(env) && token != [] && verify(token).Verified?
    requires var r := Resolve(verify(token).claims, upstream); r.Ok? && r.value.Some?
    ensures SharedLocation(env, token, verify, upstream)
         == JsonReply(200, Compose(Resolve(verify(token).claims, upstream).value.value, verify(token).claims))
  {
  }

  /** Resolving a member whose entry `find` reaches gives that entry's fields under the token's name. */
  lemma ResolveMember(c: Claims, upstream: Endpoint -> Upstream, members: seq<Json>, i: nat)
    requires c.payload.email != OWNER
    requires upstream(FamilyLocations) == Response(200, Some(JObj(map["locations" := JArr(members)])))
    requires i < |members| && Matches(members[i], c.payload.email)
    requires forall j :: 0 <= j < i ==> PassedOver(members[j], c.payload.email)
    ensures Resolve(c, upstream) == Ok(Some(MemberRecord(c.payload.name, members[i])))
  {
    FindFirst(members, c.payload.email, 0, i);
  }

  /**
   * A member found in the family list is returned with all its upstream
   * fields, the token's name, and the token's expiry.
   */
  lemma MemberReply(env: Env, token: string, verify: string -> Verification, upstream: Endpoint -> Upstream, members: seq<Json>, i: nat)
    requires Configured(env) && token != [] && verify(token).Verified?
    requires var c := verify(token).claims; c.payload.email != OWNER && c.exp != 0
    requires upstream(FamilyLocations) == Response(200, Some(JObj(map["locations" := JArr(members)])))
    requires i < |members| && Matches(members[i], verify(token).claims.payload.email)
    requires forall j :: 0 <= j < i ==> PassedOver(members[j], verify(token).claims.payload.email)
    ensures var r := SharedLocation(env, token, verify, upstream);
      var c := verify(token).claims;
      r.status == 200 && r.JsonReply? && r.body.JObj? &&
      "name" in r.body.fields && r.body.fields["name"] == JStr(c.payload.name) &&
      "email" in r.body.fields && r.body.fields["email"] == JStr(c.payload.email) &&
      "expires_at" in r.body.fields && r.body.fields["expires_at"] == JNum(c.exp as real) &&
      (forall f :: f in members[i].fields && f != "name" && f != "styleUrl" && f != "expires_at" ==>
        f in r.body.fields && r.body.fields[f] == members[i].fields[f])
  {
    var c := verify(token).claims;
    ResolveMember(c, upstream, members, i);
    LocationSuccess(env, token, verify, upstream);
  }

  /** find stops at the first match when everything before it was passed over. */
  lemma {:induction false} FindFirst(members: seq<Json>, email: string, from: nat, i: nat)
    requires from <= i < |members| && Matches(members[i], email)
    requires forall j :: from <= j < i ==> PassedOver(members[j], email)
    ensures FindFrom(members, email, from) == Ok(Some(i))
    decreases i - from
  {
    if from < i {
      FindFirst(members, email, from + 1, i);
    }
  }

  /** The owner's point is the first element of an array body or of `points`. */
  lemma ResolveOwner(c: Claims, upstream: Endpoint -> Upstream, point: Json)
    requires c.payload.email == OWNER
    requires upstream(LatestPoints) == Response(200, Some(JArr([point]))) ||
             upstream(LatestPoints) == Response(200, Some(JObj(map["points" := JArr([point])])))
    requires Truthy(point)
    ensures Resolve(c, upstream) == Ok(Some(OwnerRecord(c.payload.name, point)))
  {
    var data := upstream(LatestPoints).body.value;
    assert OwnerPoint(data) == Ok(Some(point));
  }

  /**
   * The owner's reply takes its point from an array body or from `points`,
   * the token's name, a null address and the token's expiry.
   */
  lemma OwnerReply(env: Env, token: string, verify: string -> Verification, upstream: Endpoint -> Upstream, point: Json)
    requires Configured(env) && token != [] && verify(token).Verified?
    requires verify(token).claims.payload.email == OWNER
    requires upstream(LatestPoints) == Response(200, Some(JArr([point]))) ||
             upstream(LatestPoints) == Response(200, Some(JObj(map["points" := JArr([point])])))
    requires Truthy(point)
    ensures var r := SharedLocation(env, token, verify, upstream);
      var c := verify(token).claims;
      r.status == 200 && r.JsonReply? && r.body.JObj? &&
      "email" in r.body.fields && r.body.fields["email"] == JStr(OWNER) &&
      "name" in r.body.fields && r.body.fields["name"] == JStr(c.payload.name) &&
      "address" in r.body.fields && r.body.fields["address"] == JNull &&
      (c.exp != 0 ==> "expires_at" in r.body.fields && r.body.fields["expires_at"] == JNum(c.exp as real))
  {
    ResolveOwner(verify(token).claims, upstream, point);
    LocationSuccess(env, token, verify, upstream);
  }

  // ---------------------------------------------------------------------
  // Issue, then resolve
  // ---------------------------------------------------------------------

  /**
   * The issue reply carries the signed token and `expires_at`: the lifetime
   * after the reply's own clock reading. When that reading is not earlier than
   * the signing one, `expires_at` is no earlier than the exp claim, and later by
   * less than one second plus the time between the two readings.
   */
  lemma IssueReply(env: Env, body: ShareBody, clock: Clock, sign: Claims -> string)
    requires Configured(env) && IssuedClaims(body, clock).Some?
    ensures var r := Share(env, body, clock, sign);
      var c := IssuedClaims(body, clock).value;
      r.JsonReply? && r.status == 200 && r.body.JObj? &&
      "token" in r.body.fields && r.body.fields["token"] == JStr(sign(c)) &&
      "expires_at" in r.body.fields &&
      r.body.fields["expires_at"] == JNum((clock.replyMs + (c.exp - c.iat) * 1000) as real)
    ensures var ea := Share(env, body, clock, sign).body.fields["expires_at"].n;
      var c := IssuedClaims(body, clock).value;
      clock.signMs <= clock.replyMs ==>
        (c.exp * 1000) as real <= ea < (c.exp * 1000 + 1000 + (clock.replyMs - clock.signMs)) as real
  {
  }

  /**
   * A token issued for `body` and resolved while still valid yields the name
   * and style of the request, whatever the upstream record said, and its
   * expiry in seconds; the issue reply's `expires_at` is the same instant in
   * milliseconds, up to the sub-second part jwt.sign drops.
   */
  lemma IssueThenResolve(env: Env, body: ShareBody, clock: Clock, sign: Claims -> string,
                         verify: string -> Verification, upstream: Endpoint -> Upstream)
    requires Configured(env) && IssuedClaims(body, clock).Some?
    requires var c := IssuedClaims(body, clock).value; sign(c) != [] && verify(sign(c)) == Verified(c) && c.exp != 0
    requires var c := IssuedClaims(body, clock).value; Resolve(c, upstream).Ok? && Resolve(c, upstream).value.Some?
    ensures var c := IssuedClaims(body, clock).value;
      var located := SharedLocation(env, sign(c), verify, upstream);
      && located.JsonReply? && located.status == 200 && located.body.JObj?
      && "name" in located.body.fields
      && located.body.fields["name"] == JStr(if body.name == [] then DEFAULT_NAME else body.name)
      && (body.styleUrl != [] ==> "styleUrl" in located.body.fields && located.body.fields["styleUrl"] == JStr(body.styleUrl))
      && "expires_at" in located.body.fields && located.body.fields["expires_at"] == JNum(c.exp as real)
  {
    var c := IssuedClaims(body, clock).value;
    LocationSuccess(env, sign(c), verify, upstream);
  }

  // ---------------------------------------------------------------------
  // GET /api/status
  // ---------------------------------------------------------------------

  /** GET /api/status: not guarded; `configured` tells whether both credentials are set. */
  function StatusReply(env: Env, version: string): (r: Reply)
    ensures r.status == 200 && r.JsonReply? && r.body.JObj?
    ensures r.body.fields.Keys == {"status", "configured", "version"}
    ensures r.body.fields["configured"] == JBool(env.apiUrl != [] && env.apiKey != [])
    ensures r.body.fields["status"] == JStr("ok") && r.body.fields["version"] == JStr(version)
  {
    JsonReply(200, JObj(map["status" := JStr("ok"), "configured" := JBool(Configured(env)), "version" := JStr(version)]))
  }
}
