/**
 * The logic of the legacy single-file client (app.js) that has no module
 * counterpart: its refresh and expiry countdowns, the shared-link poll, the
 * name editor, the selection checkbox and the share-link request.
 */
module App {
  import opened Wrappers
  import opened Json
  import opened Text
  import opened Records
  import Config
  import Server

  // ------------------------------------------------------------------
  // Refresh countdown
  // ------------------------------------------------------------------

  /** One run of `updateCountdown`: decrement, and start over at 10 once it drops below 0. */
  function NextSecond(s: int): (r: int)
    ensures 0 <= s <= 11 ==> 0 <= r <= 10
    ensures r == 10 || r == s - 1
  {
    if s - 1 < 0 then 10 else s - 1
  }

  /** The countdown after k runs, each run applied to the previous display. */
  function Ticks(s: int, k: nat): int
    decreases k
  {
    if k == 0 then s else NextSecond(Ticks(s, k - 1))
  }

  /** Counting down from s reaches 0 after s runs, one second per run. */
  lemma {:induction false} TicksDown(s: int, k: nat)
    requires k <= s
    ensures Ticks(s, k) == s - k
    decreases k
  {
    if k > 0 {
      TicksDown(s, k - 1);
    }
  }

  /**
   * Unlike the module version, this countdown shows 0 before it wraps, so one cycle
   * from 10 takes eleven runs: 10, 9, ..., 0, 10.
   */
  lemma CountdownCycle()
    ensures forall k :: 0 <= k <= 10 ==> Ticks(10, k) == 10 - k
    ensures Ticks(10, 11) == 10
  {
    forall k | 0 <= k <= 10 ensures Ticks(10, k) == 10 - k {
      TicksDown(10, k);
    }
    TicksDown(10, 10);
  }

  // ------------------------------------------------------------------
  // Expiry countdown
  // ------------------------------------------------------------------

  /** The text of the shared-link expiry line. */
  datatype ExpiryDisplay = LinkExpired | ExpiresIn(hours: nat, minutes: nat, seconds: nat)

  /** The hours/minutes/seconds split of a positive millisecond count, with its bounds. */
  lemma SplitMillis(diff: nat)
    ensures var h, m, s := diff / 3600000, (diff % 3600000) / 60000, (diff % 60000) / 1000;
      m < 60 && s < 60 &&
      h * 3600000 + m * 60000 + s * 1000 <= diff < h * 3600000 + m * 60000 + s * 1000 + 1000
  {
    var h, a := diff / 3600000, diff % 3600000;
    var m, b := a / 60000, a % 60000;
    assert diff == h * 3600000 + a;
    assert a == m * 60000 + b;
    assert m < 60;
    assert diff == (h * 60 + m) * 60000 + b;
    assert diff % 60000 == b;
    var s, c := b / 1000, b % 1000;
    assert b == s * 1000 + c;
  }

  /** What `updateCountdown` shows for `diff = sharedExpiresAt - now` in milliseconds. */
  function Expiry(diff: int): (e: ExpiryDisplay)
    ensures e.LinkExpired? <==> diff <= 0
    ensures e.ExpiresIn? ==>
      e.minutes < 60 && e.seconds < 60 &&
      e.hours * 3600000 + e.minutes * 60000 + e.seconds * 1000 <= diff &&
      diff < e.hours * 3600000 + e.minutes * 60000 + e.seconds * 1000 + 1000
  {
    if diff <= 0 then LinkExpired
    else
      SplitMillis(diff);
      ExpiresIn(diff / 3600000, (diff % 3600000) / 60000, (diff % 60000) / 1000)
  }

  // ------------------------------------------------------------------
  // fetchSharedData
  // ------------------------------------------------------------------

  const SHARED_USER: string := "SHARED_USER"

  /** The poll's fetch: a rejected promise, or a response whose `json()` may reject (None). */
  datatype SharedReply = FetchFailed | Reply(status: int, body: Option<Json>)

  /** Host coercions: `x * 1000` on a non-number, and a non-string email added to the selection. */
  datatype Host = Host(toNumber: Json -> real, toText: Json -> string)

  /** The selection key of an email value. */
  function EmailKey(j: Json, host: Host): string {
    if j.JStr? then j.s else host.toText(j)
  }

  /**
   * The reply object after the poll's in-place updates: a falsy email becomes
   * 'SHARED_USER', `isShared` is set, then `address` is the result of address resolution
   * on the updated object. Everything else is the server's.
   */
  function SharedRecord(fs: map<string, Json>, resolve: Json -> Json): (r: map<string, Json>)
    ensures "email" in r && Truthy(r["email"])
    ensures "email" in fs && Truthy(fs["email"]) ==> r["email"] == fs["email"]
    ensures !("email" in fs && Truthy(fs["email"])) ==> r["email"] == JStr(SHARED_USER)
    ensures "isShared" in r && r["isShared"] == JBool(true)
    ensures "address" in r
    ensures forall k :: k in fs && k != "email" && k != "isShared" && k != "address" ==> k in r && r[k] == fs[k]
    ensures forall k :: k in r ==> k in fs || k == "email" || k == "isShared" || k == "address"
  {
    var withEmail := if "email" in fs && Truthy(fs["email"]) then fs else fs["email" := JStr(SHARED_USER)];
    var marked := withEmail["isShared" := JBool(true)];
    marked["address" := resolve(JObj(marked))]
  }

  /** `data.expires_at * 1000`: the link's deadline in milliseconds, from the token's `exp` in seconds. */
  function ExpiresAtMs(expiresAt: Json, host: Host): (ms: Json)
    ensures expiresAt.JNum? ==> ms == JNum(expiresAt.n * 1000.0)
  {
    if expiresAt.JNum? then JNum(expiresAt.n * 1000.0) else JNum(host.toNumber(expiresAt) * 1000.0)
  }

  // ------------------------------------------------------------------
  // Share-link request
  // ------------------------------------------------------------------

  const DEFAULT_DURATION: real := 3600.0
  const DEFAULT_STYLE: string := "./style.json"

  /**
   * The body of POST /api/share: the selected button's `data-duration` text or the number
   * 3600, `config.apiUserName || 'User'` and `config.mapStyleUrl || './style.json'`,
   * where a missing config reads as `{}`.
   */
  function ShareRequest(button: Option<string>, config: Option<map<string, Json>>): (body: map<string, Json>)
    ensures body.Keys == {"duration", "name", "styleUrl"}
    ensures button.None? ==> body["duration"] == JNum(DEFAULT_DURATION)
    ensures button.Some? ==> body["duration"] == JStr(button.value)
    ensures var c := config.GetOr(map[]);
      body["name"] == (if "apiUserName" in c && Truthy(c["apiUserName"]) then c["apiUserName"] else JStr(Server.DEFAULT_NAME))
    ensures var c := config.GetOr(map[]);
      body["styleUrl"] == (if "mapStyleUrl" in c && Truthy(c["mapStyleUrl"]) then c["mapStyleUrl"] else JStr(DEFAULT_STYLE))
  {
    var c := config.GetOr(map[]);
    var duration := if button.Some? then JStr(button.value) else JNum(DEFAULT_DURATION);
    var name := if "apiUserName" in c && Truthy(c["apiUserName"]) then c["apiUserName"] else JStr(Server.DEFAULT_NAME);
    var style := if "mapStyleUrl" in c && Truthy(c["mapStyleUrl"]) then c["mapStyleUrl"] else JStr(DEFAULT_STYLE);
    map["duration" := duration]["name" := name]["styleUrl" := style]
  }

  /** The string held in a field, "" when it is missing or not a string. */
  function TextField(c: map<string, Json>, k: string): string {
    if k in c && c[k].JStr? then c[k].s else []
  }

  /** How the share endpoint reads a request body whose fields are strings or whole numbers, without `email`. */
  function ServerReads(body: map<string, Json>): Server.ShareBody {
    var duration :=
      if "duration" in body && body["duration"].JNum? then Server.Seconds(body["duration"].n.Floor)
      else if "duration" in body && body["duration"].JStr? then Server.DurationText(body["duration"].s)
      else Server.NoDuration;
    Server.ShareBody(duration, TextField(body, "email"), TextField(body, "name"), TextField(body, "styleUrl"))
  }

  /**
   * The client's request without a selected duration, as the server issues it: the token
   * lives 3600 seconds, belongs to the owner, and carries the configured user name (or
   * 'User') and map style (or './style.json').
   */
  lemma DefaultShareLink(config: Option<map<string, Json>>, clock: Server.Clock)
    requires var c := config.GetOr(map[]);
      ("apiUserName" in c ==> c["apiUserName"].JStr?) && ("mapStyleUrl" in c ==> c["mapStyleUrl"].JStr?)
    ensures var c := config.GetOr(map[]);
      var claims := Server.IssuedClaims(ServerReads(ShareRequest(None, config)), clock);
      claims.Some? && claims.value.exp == claims.value.iat + 3600 &&
      claims.value.payload.email == OWNER &&
      claims.value.payload.name == (if TextField(c, "apiUserName") != [] then TextField(c, "apiUserName") else Server.DEFAULT_NAME) &&
      claims.value.payload.styleUrl == (if TextField(c, "mapStyleUrl") != [] then TextField(c, "mapStyleUrl") else DEFAULT_STYLE)
  {
    var c := config.GetOr(map[]);
    var name := if TextField(c, "apiUserName") != [] then TextField(c, "apiUserName") else Server.DEFAULT_NAME;
    var style := if TextField(c, "mapStyleUrl") != [] then TextField(c, "mapStyleUrl") else DEFAULT_STYLE;
    DefaultRequestRead(config);
    var body := Server.ShareBody(Server.Seconds(3600), [], name, style);
    assert Server.ExpiresIn(body.duration) == Some(3600);
    assert Server.IssuedClaims(body, clock) ==
      Some(Server.SignedClaims(Server.SharePayload(body, clock.createdMs), 3600, clock.signMs));
  }

  /** The server reads the default request as a 3600-second lifetime, no email, and the configured name and style. */
  lemma DefaultRequestRead(config: Option<map<string, Json>>)
    requires var c := config.GetOr(map[]);
      ("apiUserName" in c ==> c["apiUserName"].JStr?) && ("mapStyleUrl" in c ==> c["mapStyleUrl"].JStr?)
    ensures var c := config.GetOr(map[]);
      ServerReads(ShareRequest(None, config)) ==
        Server.ShareBody(Server.Seconds(3600), [],
          if TextField(c, "apiUserName") != [] then TextField(c, "apiUserName") else Server.DEFAULT_NAME,
          if TextField(c, "mapStyleUrl") != [] then TextField(c, "mapStyleUrl") else DEFAULT_STYLE)
  {
    var req := ShareRequest(None, config);
    assert req["duration"] == JNum(3600.0);
    assert (3600.0).Floor == 3600;
    assert "email" !in req;
  }

  // ------------------------------------------------------------------
  // Selection checkbox
  // ------------------------------------------------------------------

  /** `toggleMemberSelection(checkbox, email)`: the checkbox state decides, only that email changes. */
  method ToggleCheckbox(selected: EmailSet, checked: bool, email: string)
    modifies selected
    ensures checked ==> selected.elems == old(selected.elems) + {email}
    ensures !checked ==> selected.elems == old(selected.elems) - {email}
  {
    if checked {
      selected.Add(email);
    } else {
      selected.Delete(email);
    }
  }

  // ------------------------------------------------------------------
  // Name editor
  // ------------------------------------------------------------------

  /** The names dictionary after saving `newName` for a member: "" removes the entry. */
  function SavedNames(names: map<string, Json>, email: string, newName: string): (r: map<string, Json>)
    ensures newName == [] ==> email !in r
    ensures newName != [] ==> email in r && r[email] == JStr(newName)
    ensures forall e :: e != email ==> (e in r <==> e in names) && (e in names ==> r[e] == names[e])
  {
    if newName == [] then names - {email} else names[email := JStr(newName)]
  }

  /**
   * `saveModalName`, with the input field's text and `currentEditingEmail` as parameters.
   * For the owner the trimmed name goes into the configuration (the memo object is
   * modified, stored, then dropped); for anyone else into the names dictionary.
   */
  method SaveModalName(store: Config.ClientStore, editing: string, input: string)
    modifies store, store.cached
    ensures var newName := Trim(input);
      editing == OWNER ==>
        store.storedConfig == Some(Config.BaseConfig(old(store.Memo()), old(store.storedConfig))["apiUserName" := JStr(newName)]) &&
        store.storedNames == old(store.storedNames) && store.cached == null
    ensures var newName := Trim(input);
      editing != OWNER ==>
        store.storedNames == Some(SavedNames(old(store.storedNames).GetOr(map[]), editing, newName)) &&
        store.storedConfig == old(store.storedConfig) && store.cached == old(store.cached)
  {
    var newName := Trim(input);
    if editing == OWNER {
      SaveOwnerName(store, newName);
    } else {
      SaveMemberName(store, editing, newName);
    }
  }

  /** The owner branch: the name is assigned into `getConfig() || {}`, which is stored, then the memo is dropped. */
  method SaveOwnerName(store: Config.ClientStore, newName: string)
    modifies store, store.cached
    ensures store.storedConfig == Some(Config.BaseConfig(old(store.Memo()), old(store.storedConfig))["apiUserName" := JStr(newName)])
    ensures store.storedNames == old(store.storedNames) && store.cached == null
  {
    var c := store.GetConfig();
    var fields := if c == null then map[] else c.fields;
    fields := fields["apiUserName" := JStr(newName)];
    if c != null {
      c.fields := fields;
    }
    store.storedConfig := Some(fields);
    store.InvalidateConfig();
  }

  /** Any other member: the names dictionary gets the name, or loses the entry for an empty one. */
  method SaveMemberName(store: Config.ClientStore, editing: string, newName: string)
    modifies store`storedNames
    ensures store.storedNames == Some(SavedNames(old(store.storedNames).GetOr(map[]), editing, newName))
  {
    var names := store.storedNames.GetOr(map[]);
    store.storedNames := Some(SavedNames(names, editing, newName));
  }

  // ------------------------------------------------------------------
  // Global state of app.js touched by the poll and the countdown
  // ------------------------------------------------------------------

  class Dashboard {
    var isSharedMode: bool
    var secondsToRefresh: int
    var refreshInterval: Option<nat>
    var sharedLocations: seq<Json>
    var sharedStyleUrl: Json
    var sharedExpiresAt: Json
    var lastLocations: seq<Json>
    var selected: EmailSet
    /** Timer ids passed to `clearInterval`, oldest first. */
    var cleared: seq<nat>
    /** Messages shown with `alert`. */
    var alerts: seq<string>
    /** Set once the page navigates away (to the link without its token). */
    var navigatedAway: bool

    constructor (sharedMode: bool, selection: EmailSet)
      ensures isSharedMode == sharedMode && secondsToRefresh == 10 && refreshInterval == None
      ensures sharedLocations == [] && sharedStyleUrl == JNull && sharedExpiresAt == JNull && lastLocations == []
      ensures selected == selection && cleared == [] && alerts == [] && !navigatedAway
    {
      isSharedMode := sharedMode;
      secondsToRefresh := 10;
      refreshInterval := None;
      sharedLocations := [];
      sharedStyleUrl := JNull;
      sharedExpiresAt := JNull;
      lastLocations := [];
      selected := selection;
      cleared := [];
      alerts := [];
      navigatedAway := false;
    }

    /** `updateCountdown`, the refresh part; within [0, 10] it stays within [0, 10]. */
    method UpdateCountdown()
      modifies this`secondsToRefresh
      ensures secondsToRefresh == NextSecond(old(secondsToRefresh))
      ensures 0 <= old(secondsToRefresh) <= 10 ==> 0 <= secondsToRefresh <= 10
    {
      secondsToRefresh := secondsToRefresh - 1;
      if secondsToRefresh < 0 {
        secondsToRefresh := 10;
      }
    }

    /**
     * `fetchSharedData` with the response, address resolution and coercions as parameters.
     * A 410 ends the shared view (alert, stop polling, leave the page) or, in merge mode,
     * drops the shared locations; a JSON object reply becomes the only shared location.
     */
    method FetchSharedData(reply: SharedReply, resolve: Json -> Json, host: Host)
      modifies this, selected
      ensures secondsToRefresh == if old(isSharedMode) then 10 else old(secondsToRefresh)
      ensures isSharedMode == old(isSharedMode) && selected == old(selected) && refreshInterval == old(refreshInterval)
      ensures reply.Reply? && reply.status == 410 ==>
        (if isSharedMode
         then alerts == old(alerts) + ["This sharing link has expired."] && navigatedAway &&
              cleared == old(cleared) + (if refreshInterval.Some? then [refreshInterval.value] else []) &&
              sharedLocations == old(sharedLocations)
         else sharedLocations == [] && alerts == old(alerts) && navigatedAway == old(navigatedAway) &&
              cleared == old(cleared)) &&
        sharedStyleUrl == old(sharedStyleUrl) && sharedExpiresAt == old(sharedExpiresAt) &&
        lastLocations == old(lastLocations) && selected.elems == old(selected.elems)
      ensures reply.Reply? && reply.status != 410 && 200 <= reply.status <= 299 &&
              reply.body.Some? && reply.body.value.JObj? ==>
        var rec := SharedRecord(reply.body.value.fields, resolve);
        sharedLocations == [JObj(rec)] &&
        sharedStyleUrl == (if "styleUrl" in rec && Truthy(rec["styleUrl"]) then rec["styleUrl"] else old(sharedStyleUrl)) &&
        sharedExpiresAt == (if "expires_at" in rec && Truthy(rec["expires_at"]) then ExpiresAtMs(rec["expires_at"], host) else old(sharedExpiresAt)) &&
        (isSharedMode ==> lastLocations == [JObj(rec)] && selected.elems == old(selected.elems) + {EmailKey(rec["email"], host)}) &&
        (!isSharedMode ==> lastLocations == old(lastLocations) && selected.elems == old(selected.elems))
      ensures !(reply.Reply? && (reply.status == 410 || (200 <= reply.status <= 299 && reply.body.Some? && reply.body.value.JObj?))) ==>
        sharedLocations == old(sharedLocations) && sharedStyleUrl == old(sharedStyleUrl) &&
        sharedExpiresAt == old(sharedExpiresAt) && lastLocations == old(lastLocations) &&
        selected.elems == old(selected.elems)
      ensures !(reply.Reply? && reply.status == 410) ==>
        alerts == old(alerts) && cleared == old(cleared) && navigatedAway == old(navigatedAway)
    {
      if isSharedMode {
        secondsToRefresh := 10;
      }
      if reply.FetchFailed? {
        return;
      }
      if reply.status == 410 {
        LinkGone();
        return;
      }
      if !(200 <= reply.status <= 299) || reply.body.None? || !reply.body.value.JObj? {
        return;
      }
      ShowShared(SharedRecord(reply.body.value.fields, resolve), host);
    }

    /** The 410 branch of `fetchSharedData`: in shared mode, alert, stop the timer and leave; otherwise clear the shared list. */
    method LinkGone()
      modifies this`alerts, this`cleared, this`navigatedAway, this`sharedLocations
      ensures isSharedMode ==>
        (alerts == old(alerts) + ["This sharing link has expired."] && navigatedAway &&
         cleared == old(cleared) + (if refreshInterval.Some? then [refreshInterval.value] else []) &&
         sharedLocations == old(sharedLocations))
      ensures !isSharedMode ==>
        (sharedLocations == [] && alerts == old(alerts) && navigatedAway == old(navigatedAway) && cleared == old(cleared))
    {
      if isSharedMode {
        alerts := alerts + ["This sharing link has expired."];
        if refreshInterval.Some? {
          cleared := cleared + [refreshInterval.value];
        }
        navigatedAway := true;
      } else {
        sharedLocations := [];
      }
    }

    /** The success branch of `fetchSharedData`: store the record, adopt its style and expiry, and in shared mode show and select it. */
    method ShowShared(rec: map<string, Json>, host: Host)
      requires "email" in rec
      modifies this`sharedLocations, this`sharedStyleUrl, this`sharedExpiresAt, this`lastLocations, selected
      ensures sharedLocations == [JObj(rec)]
      ensures sharedStyleUrl == (if "styleUrl" in rec && Truthy(rec["styleUrl"]) then rec["styleUrl"] else old(sharedStyleUrl))
      ensures sharedExpiresAt == (if "expires_at" in rec && Truthy(rec["expires_at"]) then ExpiresAtMs(rec["expires_at"], host) else old(sharedExpiresAt))
      ensures isSharedMode ==> lastLocations == [JObj(rec)] && selected.elems == old(selected.elems) + {EmailKey(rec["email"], host)}
      ensures !isSharedMode ==> lastLocations == old(lastLocations) && selected.elems == old(selected.elems)
    {
      sharedLocations := [JObj(rec)];
      if "styleUrl" in rec && Truthy(rec["styleUrl"]) && rec["styleUrl"] != sharedStyleUrl {
        sharedStyleUrl := rec["styleUrl"];
      }
      if "expires_at" in rec && Truthy(rec["expires_at"]) {
        sharedExpiresAt := ExpiresAtMs(rec["expires_at"], host);
      }
      if isSharedMode {
        lastLocations := [JObj(rec)];
        selected.Add(EmailKey(rec["email"], host));
      }
    }
  }
}
