/**
 * The browser client's configuration (js/config.js): input validators, the
 * memoised stored configuration, and the merge of URL parameters into the
 * stored configuration and the stored display-name dictionary.
 *
 * localStorage holds JSON text; the model stores the parsed objects, so
 * `JSON.stringify` followed by `JSON.parse` is the identity here.
 */
module Config {
  import opened Wrappers
  import opened Text
  import opened Json

  const MIN_KEY_LENGTH: nat := 20
  const MAX_KEY_LENGTH: nat := 256
  const MAX_NAME_LENGTH: nat := 100

  /** One constructor per error message the validators throw. */
  datatype ConfigError =
    | UrlMissing        // URL is required and must be a string
    | UrlEmpty          // URL cannot be empty
    | UrlInvalid        // Invalid URL format (the URL parser rejected it)
    | UrlProtocol       // Only HTTP and HTTPS protocols are allowed
    | UrlHostname       // Invalid hostname
    | KeyMissing        // API key is required
    | KeyTooShort       // API key is too short (minimum 20 characters)
    | KeyTooLong        // API key is too long (maximum 256 characters)
    | KeyInvalidChars   // API key contains invalid characters
    | NameTooLong       // Name is too long (maximum 100 characters)
    | CoordinatesNotNumbers
    | LatitudeOutOfRange
    | LongitudeOutOfRange

  // ------------------------------------------------------------------
  // Validators
  // ------------------------------------------------------------------

  /** `[a-zA-Z0-9_.\-]` */
  predicate IsKeyChar(c: char) {
    'a' <= c <= 'z' || 'A' <= c <= 'Z' || '0' <= c <= '9' || c == '_' || c == '.' || c == '-'
  }

  predicate AllKeyChars(s: string) {
    forall i :: 0 <= i < |s| ==> IsKeyChar(s[i])
  }

  /** `validateApiKey`; the empty string stands for a missing or non-string key. */
  function ValidateApiKey(key: string): (r: Result<string, ConfigError>)
    ensures r.Ok? <==> key != [] && MIN_KEY_LENGTH <= Utf16Length(Trim(key)) <= MAX_KEY_LENGTH && AllKeyChars(Trim(key))
    ensures r.Ok? ==> r.value == Trim(key)
    // the checks run in this order: missing, too short, too long, characters
    ensures key == [] ==> r == Err(KeyMissing)
    ensures key != [] && Utf16Length(Trim(key)) < MIN_KEY_LENGTH ==> r == Err(KeyTooShort)
    ensures key != [] && Utf16Length(Trim(key)) > MAX_KEY_LENGTH ==> r == Err(KeyTooLong)
    ensures r.Err? && key != [] && MIN_KEY_LENGTH <= Utf16Length(Trim(key)) <= MAX_KEY_LENGTH ==> r == Err(KeyInvalidChars)
  {
    if key == [] then Err(KeyMissing)
    else
      var trimmed := Trim(key);
      if Utf16Length(trimmed) < MIN_KEY_LENGTH then Err(KeyTooShort)
      else if Utf16Length(trimmed) > MAX_KEY_LENGTH then Err(KeyTooLong)
      else if !AllKeyChars(trimmed) then Err(KeyInvalidChars)
      else Ok(trimmed)
  }

  /** An accepted key is accepted again, unchanged. */
  lemma ApiKeyIdempotent(key: string)
    requires ValidateApiKey(key).Ok?
    ensures ValidateApiKey(ValidateApiKey(key).value) == ValidateApiKey(key)
  {
    TrimIdempotent(key);
  }

  /** `validateName`: optional, trimmed, at most 100 characters. */
  function ValidateName(name: string): (r: Result<string, ConfigError>)
    ensures name == [] ==> r == Ok([])
    ensures name != [] ==> (r.Ok? <==> Utf16Length(Trim(name)) <= MAX_NAME_LENGTH)
    ensures name != [] && r.Ok? ==> r.value == Trim(name)
    ensures r.Err? ==> r.error == NameTooLong
  {
    if name == [] then Ok([])
    else
      var trimmed := Trim(name);
      if Utf16Length(trimmed) > MAX_NAME_LENGTH then Err(NameTooLong) else Ok(trimmed)
  }

  /** An accepted name is accepted again, unchanged. */
  lemma NameIdempotent(name: string)
    requires ValidateName(name).Ok?
    ensures ValidateName(ValidateName(name).value) == ValidateName(name)
  {
    if name != [] {
      TrimIdempotent(name);
    }
  }

  /**
   * A name of more than 50 characters that all lie above U+FFFF is over 100 code
   * units long, so it is refused as too long (60 emoji, say).
   */
  lemma AstralNameTooLong(name: string)
    requires 50 < |name| && forall i :: 0 <= i < |name| ==> name[i] > '\U{FFFF}'
    ensures ValidateName(name) == Err(NameTooLong)
  {
    TrimOfTrimmed(name);
  }

  /**
   * A key of 10 to 128 characters that all lie above U+FFFF has 20 to 256 code
   * units, so it passes both length checks and is refused for its characters.
   */
  lemma AstralKeyInvalidChars(key: string)
    requires 10 <= |key| <= 128 && forall i :: 0 <= i < |key| ==> key[i] > '\U{FFFF}'
    ensures ValidateApiKey(key) == Err(KeyInvalidChars)
  {
    assert 20 <= Utf16Length(key) <= 256;
    assert !AllKeyChars(key) by {
      assert !IsKeyChar(key[0]);
    }
    TrimOfTrimmed(key);
    KeyCharsChecked(key);
  }

  /** A key of acceptable length that has a character outside the set is refused for it. */
  lemma KeyCharsChecked(key: string)
    requires key != [] && MIN_KEY_LENGTH <= Utf16Length(Trim(key)) <= MAX_KEY_LENGTH
    requires !AllKeyChars(Trim(key))
    ensures ValidateApiKey(key) == Err(KeyInvalidChars)
  {
  }

  /**
   * `validateCoordinates`, given what `parseFloat` made of the two inputs
   * (None for NaN). The bounds are inclusive and the parsed values are returned.
   */
  function ValidateCoordinates(lat: Option<real>, lon: Option<real>): (r: Result<(real, real), ConfigError>)
    ensures r.Ok? <==>
      lat.Some? && lon.Some? && -90.0 <= lat.value <= 90.0 && -180.0 <= lon.value <= 180.0
    ensures r.Ok? ==> r.value == (lat.value, lon.value)
    ensures (lat.None? || lon.None?) ==> r == Err(CoordinatesNotNumbers)
    ensures lat.Some? && lon.Some? && !(-90.0 <= lat.value <= 90.0) ==> r == Err(LatitudeOutOfRange)
    ensures r.Err? && lat.Some? && lon.Some? && -90.0 <= lat.value <= 90.0 ==> r == Err(LongitudeOutOfRange)
  {
    if lat.None? || lon.None? then Err(CoordinatesNotNumbers)
    else if lat.value < -90.0 || lat.value > 90.0 then Err(LatitudeOutOfRange)
    else if lon.value < -180.0 || lon.value > 180.0 then Err(LongitudeOutOfRange)
    else Ok((lat.value, lon.value))
  }

  /** What the WHATWG URL parser gives for a string: a failure, or the parts the sanitizer reads. */
  datatype ParsedUrl = NotAUrl | Url(protocol: string, hostname: string, href: string)

  /** `.replace(/\/$/, '')`: drops one trailing slash. */
  function StripTrailingSlash(s: string): (r: string)
    ensures r == s || r + "/" == s
    ensures s != [] && s[|s| - 1] == '/' ==> r + "/" == s
  {
    if s != [] && s[|s| - 1] == '/' then s[..|s| - 1] else s
  }

  /** The slash that URL serialisation appends to a bare origin is what the sanitizer removes. */
  lemma SlashStripped(s: string)
    ensures StripTrailingSlash(s + "/") == s
  {
    assert (s + "/")[..|s|] == s;
  }

  predicate IsHttpProtocol(protocol: string) {
    protocol == "https:" || protocol == "http:"
  }

  /** `sanitizeUrl`, over an abstract URL parser. */
  function SanitizeUrl(url: string, parse: string -> ParsedUrl): (r: Result<string, ConfigError>)
    ensures r.Ok? <==>
      Trim(url) != [] && parse(Trim(url)).Url? &&
      IsHttpProtocol(parse(Trim(url)).protocol) && parse(Trim(url)).hostname != []
    ensures r.Ok? ==> r.value == StripTrailingSlash(parse(Trim(url)).href)
    ensures url == [] ==> r == Err(UrlMissing)
  {
    if url == [] then Err(UrlMissing)
    else
      var trimmed := Trim(url);
      if trimmed == [] then Err(UrlEmpty)
      else match parse(trimmed)
        case NotAUrl => Err(UrlInvalid)
        case Url(protocol, hostname, href) =>
          if !IsHttpProtocol(protocol) then Err(UrlProtocol)
          else if hostname == [] then Err(UrlHostname)
          else Ok(StripTrailingSlash(href))
  }

  // ------------------------------------------------------------------
  // URL parameters, one effect each
  // ------------------------------------------------------------------

  /** The query parameters the client reads; "" for a missing one. */
  datatype Params = Params(
    config: string, server: string, key: string, name: string, engine: string,
    style: string, geocode: string, photon: string, photonKey: string, awake: string,
    lat: string, lon: string, names: string)

  /** Runtime services the merge calls: the URL parser, `parseFloat`, and `Number.prototype.toString`. */
  datatype Runtime = Runtime(parseUrl: string -> ParsedUrl, parseFloat: string -> Option<real>, numberText: real -> string)

  /** What one parameter does to the configuration object: fields to assign, or a thrown error. */
  type Effect = Result<map<string, Json>, ConfigError>

  /** The single-parameter `if (...)` block that fires the individual merge. */
  predicate AnyIndividual(p: Params) {
    p.server != [] || p.key != [] || p.name != [] || p.engine != [] || p.style != [] ||
    p.geocode != [] || p.photon != [] || p.photonKey != [] || p.awake != [] || p.lat != [] || p.lon != []
  }

  /** Assign field k from a validator's result, or pass on its error. */
  function Assign(k: string, v: Result<string, ConfigError>): (e: Effect)
    ensures e.Ok? <==> v.Ok?
    ensures v.Ok? ==> e.value == map[k := JStr(v.value)]
  {
    match v
    case Ok(s) => Ok(map[k := JStr(s)])
    case Err(err) => Err(err)
  }

  const NoChange: Effect := Ok(map[])

  function ServerEffect(p: Params, rt: Runtime): Effect {
    if p.server == [] then NoChange else Assign("baseUrl", SanitizeUrl(p.server, rt.parseUrl))
  }

  function KeyEffect(p: Params): Effect {
    if p.key == [] then NoChange else Assign("apiKey", ValidateApiKey(p.key))
  }

  function NameEffect(p: Params): Effect {
    if p.name == [] then NoChange else Assign("apiUserName", ValidateName(p.name))
  }

  /** Only the two known engines are taken; anything else is ignored. */
  function EngineEffect(p: Params): Effect {
    if p.engine == "maplibre" || p.engine == "leaflet" then Ok(map["mapEngine" := JStr(p.engine)]) else NoChange
  }

  /** A style that is not a valid http(s) URL is kept as a relative path unless it contains "://". */
  function StyleEffect(p: Params, rt: Runtime): (e: Effect)
    ensures e.Ok?
  {
    if p.style == [] then NoChange
    else match SanitizeUrl(p.style, rt.parseUrl)
      case Ok(u) => Ok(map["mapStyleUrl" := JStr(u)])
      case Err(_) => if Contains(p.style, "://") then NoChange else Ok(map["mapStyleUrl" := JStr(p.style)])
  }

  /** Only the exact strings "true" and "false" set a flag. */
  function FlagEffect(k: string, v: string): (e: Effect)
    ensures e.Ok?
    ensures v != "true" && v != "false" ==> e == NoChange
  {
    if v == "true" || v == "false" then Ok(map[k := JBool(v == "true")]) else NoChange
  }

  function PhotonEffect(p: Params, rt: Runtime): Effect {
    if p.photon == [] then NoChange else Assign("photonUrl", SanitizeUrl(p.photon, rt.parseUrl))
  }

  function PhotonKeyEffect(p: Params): Effect {
    if p.photonKey == [] then NoChange else Ok(map["photonApiKey" := JStr(Trim(p.photonKey))])
  }

  /** Both coordinates must be given; they are stored as the text of the parsed numbers. */
  function CoordinatesEffect(p: Params, rt: Runtime): Effect {
    if p.lat == [] || p.lon == [] then NoChange
    else match ValidateCoordinates(rt.parseFloat(p.lat), rt.parseFloat(p.lon))
      case Ok((lat, lon)) => Ok(map["fixedLat" := JStr(rt.numberText(lat)), "fixedLon" := JStr(rt.numberText(lon))])
      case Err(e) => Err(e)
  }

  /** The parameters' effects in the order the source applies them. */
  function ParamEffects(p: Params, rt: Runtime): (effs: seq<Effect>)
    ensures |effs| == 10
  {
    [ServerEffect(p, rt), KeyEffect(p), NameEffect(p), EngineEffect(p), StyleEffect(p, rt),
     FlagEffect("geocodeEnabled", p.geocode), PhotonEffect(p, rt), PhotonKeyEffect(p),
     FlagEffect("keepAwakeEnabled", p.awake), CoordinatesEffect(p, rt)]
  }

  /** `s.includes(t)` */
  predicate Contains(s: string, t: string)
    decreases |s|
  {
    |t| <= |s| && (s[..|t|] == t || Contains(s[1..], t))
  }

  /**
   * The source's merge AS WRITTEN: it assigns into the configuration object
   * one parameter at a time, so a throw leaves the assignments made before it.
   * Gives the fields the object ends with and the error, if one was thrown.
   */
  function ApplyUntilFail(fields: map<string, Json>, effs: seq<Effect>): (r: (map<string, Json>, Option<ConfigError>))
    decreases |effs|
  {
    if effs == [] then (fields, None)
    else match effs[0]
      case Ok(u) => ApplyUntilFail(fields + u, effs[1..])
      case Err(e) => (fields, Some(e))
  }

  /** The merge as intended: every effect applied, or nothing at all when one of them fails. */
  function Merged(fields: map<string, Json>, effs: seq<Effect>): (r: Result<map<string, Json>, ConfigError>)
    decreases |effs|
  {
    if effs == [] then Ok(fields)
    else match effs[0]
      case Ok(u) => Merged(fields + u, effs[1..])
      case Err(e) => Err(e)
  }

  /** The intended merge fails exactly when some parameter fails, with the first error; otherwise it agrees with the written one. */
  lemma {:induction false} MergedAllOrNothing(fields: map<string, Json>, effs: seq<Effect>)
    ensures Merged(fields, effs).Err? <==> exists i :: 0 <= i < |effs| && effs[i].Err?
    ensures Merged(fields, effs).Err? <==> ApplyUntilFail(fields, effs).1.Some?
    ensures Merged(fields, effs).Err? ==> Merged(fields, effs).error == ApplyUntilFail(fields, effs).1.value
    ensures Merged(fields, effs).Ok? ==> Merged(fields, effs).value == ApplyUntilFail(fields, effs).0
    decreases |effs|
  {
    if effs != [] {
      if effs[0].Ok? {
        MergedAllOrNothing(fields + effs[0].value, effs[1..]);
        assert forall i :: 0 < i < |effs| ==> effs[i] == effs[1..][i - 1];
      }
    }
  }

  /** With no failing parameter, the merge assigns each parameter's fields in turn; a later one wins. */
  lemma {:induction false} MergedFields(fields: map<string, Json>, effs: seq<Effect>, k: string)
    requires forall i :: 0 <= i < |effs| ==> effs[i].Ok?
    requires forall i :: 0 <= i < |effs| ==> k !in effs[i].value
    ensures Merged(fields, effs).Ok?
    ensures k in Merged(fields, effs).value <==> k in fields
    ensures k in fields ==> Merged(fields, effs).value[k] == fields[k]
    decreases |effs|
  {
    if effs != [] {
      assert forall i :: 0 < i < |effs| ==> effs[i] == effs[1..][i - 1];
      MergedFields(fields + effs[0].value, effs[1..], k);
    }
  }

  /**
   * The written merge keeps a partial update when a later parameter throws:
   * a valid server followed by a too-short key leaves the new server in the
   * object although nothing is stored, while the intended merge changes nothing.
   */
  lemma PartialUpdateOnFailure()
    ensures var before := map["baseUrl" := JStr("https://a.example")];
      var effs := [Ok(map["baseUrl" := JStr("https://b.example")]), Err(KeyTooShort)];
      ApplyUntilFail(before, effs) == (map["baseUrl" := JStr("https://b.example")], Some(KeyTooShort)) &&
      Merged(before, effs) == Err(KeyTooShort)
  {
    var before := map["baseUrl" := JStr("https://a.example")];
    var effs: seq<Effect> := [Ok(map["baseUrl" := JStr("https://b.example")]), Err(KeyTooShort)];
    assert effs[1..] == [Err(KeyTooShort)];
    assert before + map["baseUrl" := JStr("https://b.example")] == map["baseUrl" := JStr("https://b.example")];
  }

  /**
   * The same for real parameters: whenever the server parameter is accepted
   * and the key parameter then throws, the written merge leaves the new
   * server in the object, while the intended merge fails as a whole.
   */
  lemma ServerKeptWhenKeyThrows(base: map<string, Json>, p: Params, rt: Runtime)
    requires ServerEffect(p, rt).Ok? && KeyEffect(p).Err?
    ensures ApplyUntilFail(base, ParamEffects(p, rt)) == (base + ServerEffect(p, rt).value, Some(KeyEffect(p).error))
    ensures Merged(base, ParamEffects(p, rt)) == Err(KeyEffect(p).error)
  {
    var effs := ParamEffects(p, rt);
    assert effs[1..][0] == KeyEffect(p);
  }

  // ------------------------------------------------------------------
  // The names parameter
  // ------------------------------------------------------------------

  /** `const [email, n] = pair.split(':')`: the first two fields, "" when missing. */
  function NamePair(pair: string): (r: (string, string))
    ensures ':' !in r.0 && ':' !in r.1
  {
    var fields := Split(pair, ':');
    (fields[0], if |fields| > 1 then fields[1] else [])
  }

  /** What one pair does to the dictionary: nothing, a throw, or one entry written. */
  datatype PairAction = Skip | Fail(error: ConfigError) | Write(email: string, name: string)

  /**
   * The body of the `forEach` callback for one pair: both fields must be given;
   * an over-long name throws; otherwise the trimmed name is written under the
   * trimmed email when both are non-empty.
   */
  function Action(pair: string): (a: PairAction)
    ensures var (email, n) := NamePair(pair);
      a.Fail? <==> email != [] && n != [] && Utf16Length(Trim(n)) > MAX_NAME_LENGTH
    ensures var (email, n) := NamePair(pair);
      a.Write? <==> email != [] && n != [] && Utf16Length(Trim(n)) <= MAX_NAME_LENGTH && Trim(email) != [] && Trim(n) != []
    ensures a.Write? ==> a.email == Trim(NamePair(pair).0) && a.name == Trim(NamePair(pair).1)
  {
    var (email, n) := NamePair(pair);
    if email != [] && n != [] then
      match ValidateName(n)
      case Err(e) => Fail(e)
      case Ok(trimmedName) =>
        if Trim(email) != [] && trimmedName != [] then Write(Trim(email), trimmedName) else Skip
    else Skip
  }

  predicate Writes(pair: string) {
    Action(pair).Write?
  }

  predicate Throws(pair: string) {
    Action(pair).Fail?
  }

  /** One action applied to the dictionary. */
  function Perform(names: map<string, Json>, a: PairAction): Result<map<string, Json>, ConfigError> {
    match a
    case Skip => Ok(names)
    case Fail(e) => Err(e)
    case Write(email, name) => Ok(names[email := JStr(name)])
  }

  /** The actions of a list of pairs, one per pair. */
  function Actions(pairs: seq<string>): (acts: seq<PairAction>)
    ensures |acts| == |pairs|
    ensures forall i :: 0 <= i < |pairs| ==> acts[i] == Action(pairs[i])
  {
    seq(|pairs|, i requires 0 <= i < |pairs| => Action(pairs[i]))
  }

  /** Actions in order; the first throw abandons the dictionary. */
  function Replay(names: map<string, Json>, acts: seq<PairAction>): Result<map<string, Json>, ConfigError>
    decreases |acts|
  {
    if acts == [] then Ok(names)
    else match Perform(names, acts[0])
      case Err(e) => Err(e)
      case Ok(next) => Replay(next, acts[1..])
  }

  /** The whole `forEach` over the pairs. */
  function ApplyPairs(names: map<string, Json>, pairs: seq<string>): Result<map<string, Json>, ConfigError> {
    Replay(names, Actions(pairs))
  }

  lemma {:induction false} ReplaySnoc(names: map<string, Json>, acts: seq<PairAction>, last: PairAction)
    ensures Replay(names, acts + [last]) ==
      match Replay(names, acts)
      case Err(e) => Err(e)
      case Ok(m) => Perform(m, last)
    decreases |acts|
  {
    if acts != [] {
      assert (acts + [last])[1..] == acts[1..] + [last];
      match Perform(names, acts[0])
      case Err(_) =>
      case Ok(next) => ReplaySnoc(next, acts[1..], last);
    } else {
      assert [last][1..] == [];
    }
  }

  lemma {:induction false} ReplayFails(names: map<string, Json>, acts: seq<PairAction>, i: nat)
    requires i < |acts| && acts[i].Fail?
    ensures Replay(names, acts).Err?
    decreases |acts|
  {
    if i > 0 {
      match Perform(names, acts[0])
      case Err(_) =>
      case Ok(next) =>
        assert acts[1..][i - 1] == acts[i];
        ReplayFails(next, acts[1..], i - 1);
    }
  }

  lemma {:induction false} ReplaySucceeds(names: map<string, Json>, acts: seq<PairAction>)
    requires forall i :: 0 <= i < |acts| ==> !acts[i].Fail?
    ensures Replay(names, acts).Ok?
    decreases |acts|
  {
    if acts != [] {
      assert forall i :: 0 < i < |acts| ==> acts[i] == acts[1..][i - 1];
      ReplaySucceeds(Perform(names, acts[0]).value, acts[1..]);
    }
  }

  lemma {:induction false} ReplayUntouched(names: map<string, Json>, acts: seq<PairAction>, e: string)
    requires Replay(names, acts).Ok?
    requires forall i :: 0 <= i < |acts| && acts[i].Write? ==> acts[i].email != e
    ensures e in Replay(names, acts).value <==> e in names
    ensures e in names ==> Replay(names, acts).value[e] == names[e]
    decreases |acts|
  {
    if acts != [] {
      assert forall i :: 0 < i < |acts| ==> acts[i] == acts[1..][i - 1];
      ReplayUntouched(Perform(names, acts[0]).value, acts[1..], e);
    }
  }

  /** Processing one more pair after the others. */
  lemma ApplyPairsSnoc(names: map<string, Json>, pairs: seq<string>, last: string)
    ensures ApplyPairs(names, pairs + [last]) ==
      match ApplyPairs(names, pairs)
      case Err(e) => Err(e)
      case Ok(m) => Perform(m, Action(last))
  {
    assert Actions(pairs + [last]) == Actions(pairs) + [Action(last)];
    ReplaySnoc(names, Actions(pairs), Action(last));
  }

  /** One pair with an over-long name aborts the whole names update. */
  lemma LongNameAborts(names: map<string, Json>, pairs: seq<string>, i: nat)
    requires i < |pairs| && Throws(pairs[i])
    ensures ApplyPairs(names, pairs).Err?
  {
    ReplayFails(names, Actions(pairs), i);
  }

  /** The update succeeds when no pair throws. */
  lemma NoLongNameSucceeds(names: map<string, Json>, pairs: seq<string>)
    requires forall i :: 0 <= i < |pairs| ==> !Throws(pairs[i])
    ensures ApplyPairs(names, pairs).Ok?
  {
    ReplaySucceeds(names, Actions(pairs));
  }

  /** The last pair that names an email decides its name. */
  lemma LastPairWins(names: map<string, Json>, pairs: seq<string>, last: string)
    requires ApplyPairs(names, pairs + [last]).Ok? && Writes(last)
    ensures var e := Trim(NamePair(last).0);
      e in ApplyPairs(names, pairs + [last]).value &&
      ApplyPairs(names, pairs + [last]).value[e] == JStr(Trim(NamePair(last).1))
  {
    ApplyPairsSnoc(names, pairs, last);
  }

  /** An email no pair writes to keeps its stored name, or stays absent. */
  lemma OtherNamesUntouched(names: map<string, Json>, pairs: seq<string>, e: string)
    requires ApplyPairs(names, pairs).Ok?
    requires forall i :: 0 <= i < |pairs| && Writes(pairs[i]) ==> Trim(NamePair(pairs[i]).0) != e
    ensures e in ApplyPairs(names, pairs).value <==> e in names
    ensures e in names ==> ApplyPairs(names, pairs).value[e] == names[e]
  {
    ReplayUntouched(names, Actions(pairs), e);
  }

  /** The names loop: split on ';' and take each pair in turn, as the `forEach` does. */
  method MergeNames(names: map<string, Json>, param: string) returns (r: Result<map<string, Json>, ConfigError>)
    ensures r == ApplyPairs(names, Split(param, ';'))
  {
    var pairs := Split(param, ';');
    ghost var acts := Actions(pairs);
    var acc := names;
    var i := 0;
    while i < |pairs|
      invariant 0 <= i <= |pairs|
      invariant ApplyPairs(names, pairs) == Replay(acc, acts[i..])
    {
      assert acts[i..][1..] == acts[i + 1..];
      assert acts[i] == Action(pairs[i]);
      var (email, n) := NamePair(pairs[i]);
      if email != [] && n != [] {
        var trimmedEmail := Trim(email);
        var trimmedName := ValidateName(n);
        if trimmedName.Err? {
          return Err(trimmedName.error);
        }
        if |trimmedEmail| > 0 && |trimmedName.value| > 0 {
          acc := acc[trimmedEmail := JStr(trimmedName.value)];
        }
      }
      i := i + 1;
    }
    return Ok(acc);
  }

  // ------------------------------------------------------------------
  // Stored configuration and its memo
  // ------------------------------------------------------------------

  /**
   * Progress of the written merge after k blocks: while nothing has thrown the
   * rest of the outcome is still to come, after a throw it is settled.
   */
  ghost predicate Done(outcome: (map<string, Json>, Option<ConfigError>), fields: map<string, Json>,
                       effs: seq<Effect>, ok: bool, k: nat)
    requires k <= |effs|
  {
    if ok then outcome == ApplyUntilFail(fields, effs[k..]) else outcome.0 == fields && outcome.1.Some?
  }

  /** The parsed configuration object `getConfig` hands out; callers share and mutate it. */
  class ConfigObject {
    var fields: map<string, Json>

    constructor (fs: map<string, Json>)
      ensures fields == fs
    {
      fields := fs;
    }

    /** Run one parameter's block: assign its fields, or report the throw. */
    method Apply(e: Effect) returns (ok: bool)
      modifies this
      ensures ok == e.Ok?
      ensures fields == if e.Ok? then old(fields) + e.value else old(fields)
    {
      if e.Err? {
        return false;
      }
      fields := fields + e.value;
      return true;
    }
  }

  /** What a decoded `config` URL parameter carries (the object-valued case). */
  datatype Bundle = Bundle(config: Option<map<string, Json>>, names: Option<map<string, Json>>)

  /** The configuration a merge starts from: `getConfig() || {}`. */
  function BaseConfig(memo: Option<map<string, Json>>, stored: Option<map<string, Json>>): map<string, Json> {
    if memo.Some? then memo.value else if stored.Some? then stored.value else map[]
  }

  /** The stored config after the bundle block: the bundle's config object when it carries one. */
  function BundledConfig(param: string, bundle: Option<Bundle>, stored: Option<map<string, Json>>): Option<map<string, Json>> {
    if param != [] && bundle.Some? && bundle.value.config.Some? then bundle.value.config else stored
  }

  /** The stored names after the bundle block: the bundle's names object when it carries one. */
  function BundledNames(param: string, bundle: Option<Bundle>, stored: Option<map<string, Json>>): Option<map<string, Json>> {
    if param != [] && bundle.Some? && bundle.value.names.Some? then bundle.value.names else stored
  }

  /** The bundle block writes to storage. */
  predicate BundleWrites(param: string, bundle: Option<Bundle>) {
    param != [] && bundle.Some? && (bundle.value.config.Some? || bundle.value.names.Some?)
  }

  /** The names block runs and no pair throws. */
  predicate NamesImported(param: string, stored: Option<map<string, Json>>) {
    param != [] && ApplyPairs(stored.GetOr(map[]), Split(param, ';')).Ok?
  }

  /** The stored names after the names block: the import when it succeeds, otherwise unchanged. */
  function NamesAfterImport(param: string, stored: Option<map<string, Json>>): Option<map<string, Json>> {
    if NamesImported(param, stored) then Some(ApplyPairs(stored.GetOr(map[]), Split(param, ';')).value) else stored
  }

  /** localStorage's two entries and the module-level `cachedConfig` memo. */
  class ClientStore {
    var storedConfig: Option<map<string, Json>>
    var storedNames: Option<map<string, Json>>
    var cached: ConfigObject?

    constructor (config: Option<map<string, Json>>, names: Option<map<string, Json>>)
      ensures storedConfig == config && storedNames == names && cached == null
    {
      storedConfig := config;
      storedNames := names;
      cached := null;
    }

    /** The memo's current fields, if there is a memo. */
    ghost function Memo(): Option<map<string, Json>>
      reads this, cached
    {
      if cached == null then None else Some(cached.fields)
    }

    /** `getConfig`: the memo while there is one, otherwise a fresh object read from storage. */
    method GetConfig() returns (c: ConfigObject?)
      modifies this`cached
      ensures old(cached) != null ==> c == old(cached)
      ensures old(cached) == null ==> (c == null <==> storedConfig.None?)
      ensures old(cached) == null && c != null ==> fresh(c) && c.fields == storedConfig.value
      ensures cached == c
    {
      if cached != null {
        return cached;
      }
      if storedConfig.Some? {
        cached := new ConfigObject(storedConfig.value);
      }
      return cached;
    }

    /** `invalidateConfig` */
    method InvalidateConfig()
      modifies this`cached
      ensures cached == null
    {
      cached := null;
    }

    /** The `config` bundle: its objects are stored as given; the memo is left alone. */
    method ImportBundle(param: string, bundle: Option<Bundle>) returns (updated: bool)
      modifies this`storedConfig, this`storedNames
      ensures storedConfig == BundledConfig(param, bundle, old(storedConfig))
      ensures storedNames == BundledNames(param, bundle, old(storedNames))
      ensures updated == BundleWrites(param, bundle)
      ensures param == [] || bundle.None? ==> storedConfig == old(storedConfig) && storedNames == old(storedNames)
    {
      updated := false;
      if param != [] && bundle.Some? {
        if bundle.value.config.Some? {
          storedConfig := bundle.value.config;
          updated := true;
        }
        if bundle.value.names.Some? {
          storedNames := bundle.value.names;
          updated := true;
        }
      }
    }

    /**
     * Block k of the individual-parameter merge: assign that parameter's
     * fields into c, or stop at its throw.
     */
    static method ApplyNth(c: ConfigObject, effs: seq<Effect>, k: nat, ghost outcome: (map<string, Json>, Option<ConfigError>))
        returns (ok: bool)
      requires k < |effs| && outcome == ApplyUntilFail(c.fields, effs[k..])
      modifies c
      ensures Done(outcome, c.fields, effs, ok, k + 1)
    {
      assert effs[k..][1..] == effs[k + 1..];
      ok := c.Apply(effs[k]);
    }

    /** Five consecutive blocks of the merge, from block k on, each run only while nothing has thrown. */
    static method ApplyFive(c: ConfigObject, effs: seq<Effect>, k: nat, ghost outcome: (map<string, Json>, Option<ConfigError>))
        returns (ok: bool)
      requires k + 5 <= |effs| && outcome == ApplyUntilFail(c.fields, effs[k..])
      modifies c
      ensures Done(outcome, c.fields, effs, ok, k + 5)
    {
      ok := ApplyNth(c, effs, k, outcome);
      if ok { ok := ApplyNth(c, effs, k + 1, outcome); }
      if ok { ok := ApplyNth(c, effs, k + 2, outcome); }
      if ok { ok := ApplyNth(c, effs, k + 3, outcome); }
      if ok { ok := ApplyNth(c, effs, k + 4, outcome); }
    }

    /** The ten blocks of the individual-parameter merge, in order, each assigning into c. */
    static method ApplyAllAsWritten(c: ConfigObject, effs: seq<Effect>) returns (ok: bool)
      requires |effs| == 10
      modifies c
      ensures c.fields == ApplyUntilFail(old(c.fields), effs).0
      ensures ok <==> ApplyUntilFail(old(c.fields), effs).1.None?
    {
      ghost var outcome := ApplyUntilFail(c.fields, effs);
      assert effs[0..] == effs;
      ok := ApplyFive(c, effs, 0, outcome);
      if ok { ok := ApplyFive(c, effs, 5, outcome); }
      assert effs[10..] == [];
    }

    /**
     * The individual-parameter block AS WRITTEN: it assigns straight into the
     * object `getConfig` returned, which is the shared memo whenever one exists.
     * On a throw storage is not written, yet the memo keeps the assignments made
     * before the throw.
     */
    method ApplyParamsAsWritten(p: Params, rt: Runtime) returns (updated: bool)
      modifies this, cached
      ensures storedNames == old(storedNames)
      ensures !AnyIndividual(p) ==> !updated && storedConfig == old(storedConfig) && Memo() == old(Memo())
      ensures AnyIndividual(p) ==>
        var (fields, error) := ApplyUntilFail(BaseConfig(old(Memo()), old(storedConfig)), ParamEffects(p, rt));
        if error.None? then
          updated && storedConfig == Some(fields) && cached == null
        else
          !updated && storedConfig == old(storedConfig) &&
          (if old(cached) == null && old(storedConfig).None? then Memo() == None else Memo() == Some(fields))
    {
      updated := false;
      if !AnyIndividual(p) {
        return;
      }
      var c := GetConfig();
      if c == null {
        c := new ConfigObject(map[]);
      }
      var ok := ApplyAllAsWritten(c, ParamEffects(p, rt));
      if ok {
        storedConfig := Some(c.fields);
        cached := null;
        updated := true;
      }
    }

    /**
     * The individual-parameter block as its comment intends: all parameters
     * validated first, then the merged object stored, or nothing changed.
     */
    method ApplyParams(p: Params, rt: Runtime) returns (updated: bool)
      modifies this
      ensures storedNames == old(storedNames)
      ensures !AnyIndividual(p) ==> !updated && storedConfig == old(storedConfig) && Memo() == old(Memo())
      ensures AnyIndividual(p) ==>
        match Merged(BaseConfig(old(Memo()), old(storedConfig)), ParamEffects(p, rt))
        case Ok(fields) => updated && storedConfig == Some(fields) && cached == null
        case Err(_) =>
          !updated && storedConfig == old(storedConfig) &&
          Memo() == (if old(cached) != null then old(Memo()) else old(storedConfig))
    {
      updated := false;
      if !AnyIndividual(p) {
        return;
      }
      var c := GetConfig();
      var base := if c == null then map[] else c.fields;
      var merged := Merged(base, ParamEffects(p, rt));
      if merged.Ok? {
        storedConfig := Some(merged.value);
        cached := null;
        updated := true;
      }
    }

    /** The `names` block: merge the pairs into the stored dictionary, or leave it when a name throws. */
    method ImportNames(param: string) returns (updated: bool)
      modifies this`storedNames
      ensures updated == NamesImported(param, old(storedNames))
      ensures storedNames == NamesAfterImport(param, old(storedNames))
      ensures param != [] ==>
        match ApplyPairs(old(storedNames).GetOr(map[]), Split(param, ';'))
        case Ok(m) => storedNames == Some(m)
        case Err(_) => storedNames == old(storedNames)
    {
      updated := false;
      if param != [] {
        var r := MergeNames(storedNames.GetOr(map[]), param);
        if r.Ok? {
          storedNames := Some(r.value);
          updated := true;
        }
      }
    }

    /**
     * `processUrlConfiguration` as written: the bundle, then the individual
     * parameters assigned into the memo, then the names. The bundle is stored
     * without dropping the memo, so a memo that exists wins over the bundle's
     * config as the base of the individual merge. `updated` triggers the URL clean-up.
     */
    method ProcessUrlConfiguration(p: Params, bundle: Option<Bundle>, rt: Runtime) returns (updated: bool)
      modifies this, cached
      ensures storedNames == NamesAfterImport(p.names, BundledNames(p.config, bundle, old(storedNames)))
      ensures var cfg := BundledConfig(p.config, bundle, old(storedConfig));
        var (fields, error) := ApplyUntilFail(BaseConfig(old(Memo()), cfg), ParamEffects(p, rt));
        if !AnyIndividual(p) then
          storedConfig == cfg && Memo() == old(Memo())
        else if error.None? then
          storedConfig == Some(fields) && cached == null
        else
          storedConfig == cfg && (if old(cached) == null && cfg.None? then Memo() == None else Memo() == Some(fields))
      ensures updated <==>
        BundleWrites(p.config, bundle) ||
        (AnyIndividual(p) &&
         ApplyUntilFail(BaseConfig(old(Memo()), BundledConfig(p.config, bundle, old(storedConfig))), ParamEffects(p, rt)).1.None?) ||
        NamesImported(p.names, BundledNames(p.config, bundle, old(storedNames)))
    {
      var u1 := ImportBundle(p.config, bundle);
      var u2 := ApplyParamsAsWritten(p, rt);
      var u3 := ImportNames(p.names);
      updated := u1 || u2 || u3;
    }

    /** `processUrlConfiguration` with the all-or-nothing individual merge its comment intends. */
    method ProcessUrlConfigurationCorrected(p: Params, bundle: Option<Bundle>, rt: Runtime) returns (updated: bool)
      modifies this
      ensures storedNames == NamesAfterImport(p.names, BundledNames(p.config, bundle, old(storedNames)))
      ensures var cfg := BundledConfig(p.config, bundle, old(storedConfig));
        if !AnyIndividual(p) then
          storedConfig == cfg && Memo() == old(Memo())
        else
          match Merged(BaseConfig(old(Memo()), cfg), ParamEffects(p, rt))
          case Ok(fields) => storedConfig == Some(fields) && cached == null
          case Err(_) => storedConfig == cfg && Memo() == (if old(cached) != null then old(Memo()) else cfg)
      ensures updated <==>
        BundleWrites(p.config, bundle) ||
        (AnyIndividual(p) &&
         Merged(BaseConfig(old(Memo()), BundledConfig(p.config, bundle, old(storedConfig))), ParamEffects(p, rt)).Ok?) ||
        NamesImported(p.names, BundledNames(p.config, bundle, old(storedNames)))
    {
      var u1 := ImportBundle(p.config, bundle);
      var u2 := ApplyParams(p, rt);
      var u3 := ImportNames(p.names);
      updated := u1 || u2 || u3;
    }
  }
}
