# Family Locator, modelled in Dafny

Family Locator is a browser dashboard that shows where family members are. It reads their positions from a Dawarich server. Its companion Express server issues signed share links and resolves them to one member's latest position.

This project models the logic of that system as Dafny definitions and proves properties about them. The modelled parts are:

- **Geocoding** (`geocoding.dfy`). This covers:
  - the coordinate cache key, with its 4-decimal rounding and JavaScript's "-0.0000" key;
  - the address cache, kept in insertion order and capped at 200 entries;
  - the de-duplicating request queue, capped at 50 entries;
  - the queue drain and one lookup's outcome;
  - `resolveAddress`, with its last-known-address map.
- **Server** (`server.dfy`). This covers:
  - the configuration guard;
  - `POST /api/share`: the payload defaults, the `expiresIn` expression and the JWT claims;
  - `GET /api/shared/location`: token checks, the owner/member branch, the upstream failures and the error-to-status mapping;
  - `GET /api/status`.
- **Client configuration** (`config.dfy`). This covers:
  - the validators: URL, API key, coordinates and name;
  - the memoised `getConfig`;
  - the three import paths of `processUrlConfiguration`: the bulk bundle, the ten individual parameters and the name pairs.
- **Utilities** (`utils.dfy`). This covers HTML escaping, relative time, the battery class and the member colours.
- **The api module** (`api.dfy`). This covers:
  - `fetchWithRetry`, with its exponential backoff;
  - the owner record;
  - the `ALL` selection expansion;
  - the polling and countdown timers.
- **The state module** (`state.dfy`). This covers every setter, `resetAllState` and `getState`'s snapshot.
- **The legacy single-file client** (`app.dfy`, `cards.dfy`). This covers:
  - the refresh and expiry countdowns;
  - the shared-link poll `fetchSharedData`;
  - the name editor, the selection checkbox and the share-link request;
  - `updateUI`'s keyed reconciliation of member cards.

`json.dfy`, `records.dfy`, `text.dfy` and `wrappers.dfy` are shared vocabulary:
- JSON values, with JavaScript truthiness and `||`;
- location records and the mutable `Set` of selected emails;
- `trim`, `split`, `join` and decimal digits;
- `Option` and `Result`.

External effects are parameters of the model. This covers `fetch` and its responses, the URL parser, `parseFloat`, the JWT signer and verifier, timers and the clock. Each proof holds for every such function.

Each module whose JavaScript original updates module-level bindings in place becomes a class whose fields are those bindings: geocoding, api, state, the config memo, and app.js's dashboard and card list.

## Model

| member | source | states |
|---|---|---|
| Geocoding.ToFixed4 | js/geocoding.js:19 | the sign is kept exactly for negative inputs, and the units are the absolute value times 10^4 rounded to the nearest integer |
| Geocoding.Fixed4Canonical | js/geocoding.js:17-20 | re-rounding a printed 4-decimal value gives the same text, except for "-0.0000" |
| Geocoding.NegativeZeroKey | js/geocoding.js:19 | a tiny negative coordinate prints "-0.0000", which is a different cache key from "0.0000" |
| Geocoding.KeyOfRounded | js/geocoding.js:17-20 | coordinates that round to the same 4 decimals share one cache key |
| Geocoding.AddressPartsShape | js/geocoding.js:156-178 | the parts are the non-empty ones of name, street part and locality, in that order; the country stands in only when all three are empty |
| Geocoding.AddressPartsNonEmpty | js/geocoding.js:156-178 | at most three parts, none of them empty |
| Geocoding.FormatAddressEmpty | js/geocoding.js:156-178 | the formatted address is empty exactly when every address field of the feature is empty |
| Geocoding.AddressCache.Set | js/geocoding.js:99 | `Map.set`: the new value is stored; an existing key keeps its insertion position and a new key goes last |
| Geocoding.AddressCache.Delete | js/geocoding.js:191-195 | `Map.delete`: the key leaves both the entries and the order, and the size drops by one exactly when it was present |
| Geocoding.SizeIsEntryCount | js/geocoding.js:191 | the cache size is the number of distinct keys |
| Geocoding.TrimRemovesOldest | js/geocoding.js:191-195 | over the cap, eviction removes the first-inserted key and only it |
| Geocoding.TrimSmall | js/geocoding.js:191-195 | at or under the cap, nothing is evicted |
| Geocoding.Stored | js/geocoding.js:179-189 | a feature stores its formatted address; an empty result stores "Unknown Location"; an HTTP or network failure stores nothing |
| Geocoding.AfterFetchSize | js/geocoding.js:179-195 | one lookup grows the cache by at most one and never takes it past the cap |
| Geocoding.AfterFetchResult | js/geocoding.js:179-195 | under the cap, a successful lookup leaves its value at the key and a failure removes the pending key |
| Geocoding.Queued | js/geocoding.js:85-87 | true exactly when some queued task has the same cache key |
| Geocoding.EnqueueKnown | js/geocoding.js:79-90 | a key that is cached, pending included, or already queued changes nothing |
| Geocoding.EnqueueNew | js/geocoding.js:92-100 | a new key is marked pending and appended, and a full queue drops its oldest task first |
| Geocoding.EnqueueKeepsQueueValid | js/geocoding.js:72-102 | the queue stays at most 50 long, its keys stay distinct and the cache stays well formed |
| Geocoding.DrainedSize | js/geocoding.js:108-136 | draining the queue never takes the cache past its cap |
| Geocoding.Classify | js/geocoding.js:51-61 | a cached real address is a hit; "Unknown Location" is a negative hit; pending or missing is unresolved |
| Geocoding.AddressResolver.constructor | js/geocoding.js:7-9 | empty cache, empty queue, no last-known addresses |
| Geocoding.AddressResolver.Enqueue | js/geocoding.js:72-102 | the new cache and queue are those `Enqueued` gives, and the resolver invariant is kept |
| Geocoding.AddressResolver.PerformFetch | js/geocoding.js:142-196 | the cache becomes `AfterFetch` of the outcome |
| Geocoding.AddressResolver.ProcessQueue | js/geocoding.js:108-119 | the queue is emptied in order, and the cache is that of performing each task's lookup in turn |
| Geocoding.AddressResolver.ResolveAddress | js/geocoding.js:26-66 | a server address is returned and seeds a new key; without geocoding or coordinates, nothing; a hit updates the last-known address; a negative hit clears it; otherwise the key is enqueued and the last-known address is returned |
| Server.CheckConfig | server/server.js:18-23 | a 503 reply exactly when the upstream URL or key is unset |
| Server.DigitPrefix | server/server.js:43 | the longest prefix of digits of the radix |
| Server.ParseInt | server/server.js:43-44 | NaN exactly when no digit of the radix follows the leading whitespace, the sign and a "0x" prefix; only a leading minus gives a negative number |
| Server.ParseIntIgnoresTail | server/server.js:43-44 | the characters after the digits are ignored, so "3600s" reads as 3600 |
| Server.ParseIntHex | server/server.js:43-44 | a "0x" prefix selects base 16: "0x1f" reads as 31 |
| Server.ParseIntOfDecimal | server/server.js:43 | `parseInt` reads back every decimal numeral it is given |
| Server.ExpiresIn | server/server.js:34-44 | a falsy duration gives 3600 seconds; a non-zero number is used as is; a string goes through `parseInt`, with NaN as no value |
| Server.SharePayload | server/server.js:36-41 | the email defaults to OWNER and the name to "User"; the style and the creation time are copied |
| Server.SignedClaims | server/server.js:43 | `iat` is the current second and `exp - iat` is the lifetime |
| Server.IssuedClaims | server/server.js:30-47 | claims exist exactly when the lifetime parses; they carry the payload stamped with the first clock reading, and `iat` is the second of the signing reading |
| Server.Share | server/server.js:30-47 | unconfigured gives 503; an unparsable lifetime gives 500; otherwise 200 with the signed token, and `expires_at` is the lifetime after the reply's own clock reading |
| Server.ShareDefaults | server/server.js:33-43 | an empty request gives an OWNER link named "User" that lasts 3600 seconds |
| Server.FetchJson | server/server.js:81-82 | only a 2xx response with a JSON body yields data; anything else throws |
| Server.EndpointFor | server/server.js:69-104 | the owner email reads the latest point, and any other email reads the family locations |
| Server.OwnerPoint | server/server.js:84-88 | an array gives its first element; null throws; there is no point exactly when neither the array nor `points` has a first element |
| Server.OwnerNotFound | server/server.js:84-129 | for the owner, a points body is answered 404 exactly when it yields no first point or a falsy one |
| Server.OwnerWithoutPointIs404 | server/server.js:84-129 | `[]`, `{points: []}` and `{}` give the owner 404 |
| Server.OwnerRecord | server/server.js:90-100 | the record has the OWNER email, the claim's name and a null address, and no other fields besides the four point fields |
| Server.OwnerRecordCoordinates | server/server.js:94-95 | latitude and longitude come from `latitude \|\| lat` and `longitude \|\| lon` |
| Server.OwnerRecordTelemetry | server/server.js:96-97 | battery and timestamp come from `battery \|\| batt` and `timestamp \|\| tst` |
| Server.FindFrom | server/server.js:106-108 | the first member whose email matches, none, or the TypeError that a null member before the match throws |
| Server.MemberRecord | server/server.js:110-115 | the member's fields are copied and the name is replaced by the claim's name |
| Server.Resolve | server/server.js:69-116 | an upstream failure throws; a found record is an object |
| Server.Compose | server/server.js:118-126 | the style URL and expiry are added when truthy, and every other field is kept |
| Server.SharedLocation | server/server.js:54-139 | the guard, missing-token, expired and invalid replies are each fixed by their condition |
| Server.LocationStatuses | server/server.js:54-139 | every reply is JSON with a status in {200, 401, 404, 410, 500, 503}, and a present token never gives 401 |
| Server.GuardComesFirst | server/server.js:18-23 | both share routes answer 503 when unconfigured, whatever the request |
| Server.MissingTokenSkipsVerifier | server/server.js:57-59 | a missing token is refused before the verifier or upstream is consulted |
| Server.UpstreamFailureIs500 | server/server.js:132-138 | an upstream failure becomes a 500 |
| Server.UnknownMemberIs404 | server/server.js:128-130 | a member absent from the list gives 404 |
| Server.FindNone | server/server.js:107-108 | a list with no matching member yields none |
| Server.FindFirst | server/server.js:107-108 | the search stops at the first matching member |
| Server.LocationSuccess | server/server.js:118-127 | a resolved record is answered with 200 and the composed record |
| Server.ResolveMember | server/server.js:107-115 | a matching member resolves to its record, renamed |
| Server.MemberReply | server/server.js:102-127 | the reply for a member link is 200 with the member's fields, its name, style and expiry |
| Server.ResolveOwner | server/server.js:86-100 | a truthy latest point resolves to the owner record |
| Server.OwnerReply | server/server.js:69-127 | the reply for an owner link is 200 with the owner record, style and expiry |
| Server.IssueReply | server/server.js:40-46 | a configured share with a valid lifetime answers 200 with the token and expiry; when the reply's clock reading is not before the signing one, the expiry is at least the exp claim and later by under one second plus the gap between the readings |
| Server.IssueThenResolve | server/server.js:30-139 | a token the server issued resolves to the shared record with that token's expiry |
| Server.StatusReply | server/server.js:142-149 | status "ok", the configured flag, the version, and no other fields |
| Config.ValidateApiKey | js/config.js:59-81 | every error case in its order, the trimmed key on success, and success exactly when the length in UTF-16 code units and the characters are allowed |
| Config.AstralKeyInvalidChars | js/config.js:66-78 | a key of 10 to 128 characters above U+FFFF passes both length checks, since each counts twice, and is refused for its characters |
| Config.ApiKeyIdempotent | js/config.js:59-81 | a validated key validates to itself |
| Config.ValidateName | js/config.js:102-113 | an empty name is accepted as empty; otherwise the trimmed name when it is at most 100 UTF-16 code units long, else too long |
| Config.AstralNameTooLong | js/config.js:107-110 | more than 50 characters above U+FFFF are refused as too long |
| Config.NameIdempotent | js/config.js:102-113 | a validated name validates to itself |
| Config.ValidateCoordinates | js/config.js:83-100 | success exactly when both parse and are in range, with the errors in source order |
| Config.StripTrailingSlash | js/config.js:50 | one trailing slash is removed, and nothing else changes |
| Config.SlashStripped | js/config.js:50 | appending a slash and stripping it round-trips |
| Config.SanitizeUrl | js/config.js:27-57 | a missing URL, a refused protocol and a non-http host each fail; success gives the parsed href without its trailing slash |
| Config.Assign | js/config.js:160-170 | a validated value becomes a one-field assignment, and a failed validation a throw |
| Config.FlagEffect | js/config.js:187-201 | only "true" or "false" assigns a flag; other text changes nothing |
| Config.ParamEffects | js/config.js:155-217 | the ten individual parameters, each as the assignment it makes or the error it throws |
| Config.MergedAllOrNothing | js/config.js:155-217 | the validated merge fails exactly when some parameter throws, with the first error; otherwise it equals the sequential assignment |
| Config.MergedFields | js/config.js:155-217 | fields no parameter writes keep their old values |
| Config.PartialUpdateOnFailure | js/config.js:156-216 | a concrete server-then-bad-key input after which the memo holds the new server while storage is unchanged |
| Config.ServerKeptWhenKeyThrows | js/config.js:160-166 | when the server is valid and the key throws, the in-place merge keeps the server, while the validated merge fails as a whole |
| Config.Action | js/config.js:224-233 | a pair with both halves throws exactly when its trimmed name is over 100 UTF-16 code units; it writes exactly when both halves are also non-empty after trimming, and it writes the trimmed name under the trimmed email |
| Config.LongNameAborts | js/config.js:222-240 | one over-long name makes the whole import fail |
| Config.NoLongNameSucceeds | js/config.js:222-240 | without over-long names the import succeeds |
| Config.LastPairWins | js/config.js:222-234 | a later pair for the same email overrides an earlier one |
| Config.OtherNamesUntouched | js/config.js:222-234 | emails that no pair names keep their stored names |
| Config.MergeNames | js/config.js:222-234 | the loop over the `;`-separated pairs computes the same import as replaying each pair's action in order |
| Config.ConfigObject.Apply | js/config.js:160-207 | a valid parameter's fields are assigned into the object, and a throw leaves it unchanged |
| Config.ClientStore.GetConfig | js/config.js:12-17 | the memo is returned when set; otherwise a fresh parse of storage, remembered as the memo |
| Config.ClientStore.InvalidateConfig | js/config.js:19-21 | the memo is dropped |
| Config.ClientStore.ImportBundle | js/config.js:125-139 | a decoded bundle stores its config and names when present, and a missing or undecodable one changes nothing |
| Config.ClientStore.ApplyAllAsWritten | js/config.js:156-216 | the ten blocks assign into the object until the first throw |
| Config.ClientStore.ApplyParamsAsWritten | js/config.js:156-216 | the code as written: on a throw storage is kept, but the memo holds the assignments made before the throw |
| Config.ClientStore.ApplyParams | js/config.js:155-217 | the validated merge is stored and the memo dropped, or on a throw nothing changes |
| Config.ClientStore.ImportNames | js/config.js:219-240 | the name import is stored when it succeeds, and a failure changes nothing |
| Config.ClientStore.ProcessUrlConfiguration | js/config.js:119-247 | the code as written: the names end as the name import over the bundle's names; the config ends as the bundle's, or as the in-place merge over the memo (else the bundle's config) when no parameter throws, and a throw leaves the memo holding the assignments made before it; `updated` says whether any block stored something |
| Config.ClientStore.ProcessUrlConfigurationCorrected | js/config.js:119-247 | the same three blocks with the all-or-nothing merge: a throw leaves the stored config and the memo as the bundle block left them |
| Utils.EscapeChar | js/utils.js:36-44 | the five special characters become entities, and every other character is kept |
| Utils.EscapeHtml | js/utils.js:51-54 | a missing value gives the empty string |
| Utils.EscapeNoMarkup | js/utils.js:36-54 | escaped text contains no `<`, `>`, `"` or `'` |
| Utils.EscapeAmpersands | js/utils.js:36-54 | every `&` in escaped text starts one of the five entities |
| Utils.EscapePlain | js/utils.js:51-54 | text without special characters is unchanged |
| Utils.EscapeRoundTrip | js/utils.js:36-54 | decoding the five entities gives back the original text |
| Utils.RelativeBucket | js/utils.js:100-112 | just now, minutes, hours or days, with floor bounds for each unit |
| Utils.BatteryClass | js/utils.js:126-130 | at most 20 is low, at most 50 is mid, and anything else or missing is high |
| Utils.BatteryMonotone | js/utils.js:126-130 | a higher level never gets a lower class |
| Utils.ColorByIndex | js/utils.js:141-144 | a negative index gets the first colour; others cycle through the ten |
| Utils.ColorsPeriodic | js/utils.js:141-144 | colours repeat every ten members |
| Utils.FindIndex | js/utils.js:152-156 | `findIndex`: the first position with the email, or -1 when there is none |
| Utils.MemberColor | js/utils.js:152-156 | a missing email or list gets the first colour |
| Utils.MemberColorOfListed | js/utils.js:152-156 | a listed member gets the colour of its first position |
| Utils.MemberColorOfUnlisted | js/utils.js:152-156 | an unlisted email gets the first colour |
| Api.Backoff | js/api.js:31-50 | the delay before retry j is 2^j seconds |
| Api.BackoffDoubles | js/api.js:31-50 | the first wait is one second and each later wait doubles the one before |
| Api.FetchWithRetry | js/api.js:24-53 | it stops at the first ok response or at the attempt limit; the number of calls, the delays, and the returned or thrown result |
| Api.ClientErrorRetried | js/api.js:29-50 | a 4xx answer is retried, unlike what the comment there says |
| Api.RetryExhausted | js/api.js:24-53 | when every remaining attempt fails, the last attempt's error is thrown |
| Api.RetryFirstSuccess | js/api.js:24-53 | the first ok response is returned |
| Api.RetryReturnsOk | js/api.js:29-40 | a returned response is always ok |
| Api.FixedPosition | js/api.js:82-85 | a fixed position is used exactly when both fixed coordinates are truthy |
| Api.ClientOwnerRecord | js/api.js:72-85 | the OWNER email and a null address, and only the listed fields |
| Api.Upstream | js/api.js:72-81 | the fields copied from the point, and no others |
| Api.OwnerRawCoordinates | js/api.js:75-76 | `lat` and `lon` always hold the point's own coordinates |
| Api.OwnerUpstreamCoordinates | js/api.js:74-77 | without a fixed position, latitude and longitude are the point's |
| Api.OwnerFixedCoordinates | js/api.js:82-85 | with a fixed position, latitude and longitude are overridden by it |
| Api.OwnerTelemetry | js/api.js:78-79 | battery and timestamp are the point's |
| Api.OwnerLocation | js/api.js:59-96 | null without a user name or on any failure; otherwise the owner record of the returned point |
| Api.Live | js/api.js:185-194 | the timers still set, the refresh timer first |
| Api.CountdownCycle | js/api.js:176-182 | from 10 the counter shows 10 down to 1 and is back at 10 after ten ticks |
| Api.Tracker.constructor | js/api.js:10-18 | no timers, a counter at 10, and no locations |
| Api.Tracker.Tick | js/api.js:176-182 | one decrement, wrapping to 10 at 0, and it stays in 1..10 |
| Api.Tracker.StopTracking | js/api.js:185-194 | both timers are cleared, in order, and unset |
| Api.Tracker.StartTracking | js/api.js:166-183 | the old timers are stopped, one immediate fetch is made, and the two new timers are set |
| Api.Tracker.FetchOwnerLocation | js/api.js:59-96 | the owner location becomes `OwnerLocation`, using no fetch without a user name and at most three otherwise |
| Api.Tracker.ExpandAll | js/api.js:125-128 | a selection holding ALL becomes exactly the set of listed emails; otherwise it is unchanged |
| State.Toggled | js/state.js:20-26 | the email's membership flips and every other email's membership is kept |
| State.ToggleTwice | js/state.js:20-26 | toggling twice restores the selection |
| State.ToggleCommutes | js/state.js:20-26 | toggles of two emails commute |
| State.AppState.constructor | js/state.js:14-130 | every binding starts at its declared initial value |
| State.AppState.SetSelectedMembers | js/state.js:16-18 | a Set is adopted as the same object; a list becomes a fresh Set of its items; nothing becomes an empty Set |
| State.AppState.ToggleMemberSelection | js/state.js:20-26 | the shared Set is toggled in place |
| State.AppState.ClearSelectedMembers | js/state.js:28-30 | the shared Set is emptied in place |
| State.AppState.SetLastLocations | js/state.js:39-41 | the list, or empty for a missing one |
| State.AppState.SetOwnerLocation | js/state.js:43-45 | the owner location is replaced |
| State.AppState.SetSharedMode | js/state.js:56-61 | shared mode is on, with the token, locations and style |
| State.AppState.SetSharedStyleUrl | js/state.js:63-65 | the shared style is replaced |
| State.AppState.ClearSharedMode | js/state.js:67-72 | shared mode is off and its data cleared |
| State.AppState.SetMap | js/state.js:85-87 | the map instance is replaced |
| State.AppState.SetMapMarkers | js/state.js:89-91 | the markers, or empty for missing ones |
| State.AppState.SetOwnerMarker | js/state.js:93-95 | the owner marker is replaced |
| State.AppState.SetUserMarker | js/state.js:97-99 | the user marker is replaced |
| State.AppState.SetUserPosition | js/state.js:101-103 | the user position is replaced |
| State.AppState.SetCurrentMapEngine | js/state.js:105-107 | the current engine is replaced |
| State.AppState.SetCurrentEditingEmail | js/state.js:115-117 | the edited email is replaced |
| State.AppState.SetLocationWatchId | js/state.js:126-128 | the watch id is replaced |
| State.AppState.SetLocationTimeout | js/state.js:130-132 | the location timeout is replaced |
| State.AppState.ResetAllState | js/state.js:138-166 | every binding returns to its initial value, and the selection is emptied in place, so it remains the same Set object |
| State.AppState.GetState | js/state.js:172-191 | a snapshot of every binding, with a fresh copy of the selection |
| State.AppState.ToggleAfterSnapshot | js/state.js:172-191 | a later toggle changes the live selection but not the snapshot's copy |
| App.CountdownCycle | app.js:1143-1145 | this countdown shows 10 down to 0 and is back at 10 on the eleventh run |
| App.Dashboard.UpdateCountdown | app.js:1143-1145 | one decrement, wrapping to 10 below 0, and it stays in 0..10 |
| App.Expiry | app.js:1159-1169 | "expired" exactly when no time is left; otherwise whole hours, minutes below 60 and seconds below 60 that sum to the remaining time, rounded down to a second |
| App.SharedRecord | app.js:846-855 | a truthy email is kept or replaced by SHARED_USER; the record is marked shared and given an address; the other fields are copied |
| App.ExpiresAtMs | app.js:866-868 | seconds become milliseconds |
| App.Dashboard.constructor | app.js:77-165 | the countdown at 10, no timer, and no shared data |
| App.Dashboard.FetchSharedData | app.js:825-876 | every outcome of the poll: the countdown reset, a 410 that ends shared mode, a success that shows the record, and a failure that changes nothing |
| App.Dashboard.LinkGone | app.js:832-842 | in shared mode the expiry alert, clearing the timer and leaving the page; otherwise only the shared data is cleared |
| App.Dashboard.ShowShared | app.js:852-876 | the shared record and its style and expiry are stored; in shared mode it becomes the location list and joins the selection |
| App.ToggleCheckbox | app.js:1533-1538 | checking adds the email and unchecking removes it |
| App.SavedNames | app.js:2342-2362 | an empty name deletes the entry, any other name stores it, and other emails' names are kept |
| App.SaveModalName | app.js:2342-2362 | the trimmed name is saved for the edited email, or for OWNER in the config |
| App.SaveOwnerName | app.js:2345-2352 | the config object gets the name and is stored, and the memo is dropped |
| App.SaveMemberName | app.js:2354-2361 | the names dictionary gets the name, or loses the entry for an empty one |
| App.ShareRequest | app.js:2523-2535 | the body has exactly the duration, name and style, defaulting from the config |
| App.DefaultShareLink | app.js:2523-2535 | the request the client sends without a chosen duration gets a 3600-second owner link carrying the configured name and style, or "User" and "./style.json" |
| Cards.Wanted | app.js:1301-1326 | the owner slot first, when present, then one slot per member, in order |
| Cards.Index | app.js:1290-1296 | each labelled card is reachable by its email, and the entry for an email is a card with that email |
| Cards.IndexOfDistinct | app.js:1290-1296 | with distinct cards, each labelled card is the one indexed under its email |
| Cards.PlaceFacts | app.js:1301-1326 | the first slot per email reuses the existing card; the others get fresh ids; the cards are distinct, and the unclaimed ones are the leftovers |
| Cards.LeftoverUnclaimed | app.js:1334-1336 | no leftover card is among the placed cards |
| Cards.DropDistinct | app.js:1329-1331 | removing cards keeps the list distinct |
| Cards.AppendStep | app.js:1329-1331 | appending a card moves it to the end and removes it from its old place |
| Cards.RenderedOrder | app.js:1329-1331 | after reconciliation the last cards carry the wanted emails in order |
| Cards.RenderedReuse | app.js:1290-1312 | an email already shown keeps its card, at its first slot |
| Cards.RenderedExactly | app.js:1289-1336 | from a keyed list, the cards are exactly the planned ones, and a card whose email is no longer wanted is gone |
| Cards.RenderedValid | app.js:1289-1336 | reconciliation keeps the cards distinct and below the next id |
| Cards.MemberList.Claim | app.js:1303-1325 | a card existing for the email is taken out of the index; otherwise a fresh card with the next id is created |
| Cards.MemberList.IndexCards | app.js:1290-1296 | the loop builds the map that `Index` defines |
| Cards.MemberList.ClaimMembers | app.js:1301-1326 | the loop over the slots computes the plan that `Place` defines |
| Cards.MemberList.AppendAll | app.js:1329-1331 | appending in order gives the old children without the new ones, followed by the new order |
| Cards.MemberList.RemoveAll | app.js:1334-1336 | the leftover cards are removed and the rest keep their order |
| Cards.MemberList.ClaimAll | app.js:1290-1326 | indexing then claiming the owner slot and each member's gives exactly the plan `Place` defines |
| Cards.MemberList.Reconcile | app.js:1329-1336 | the children become the old ones without the claimed and leftover cards, followed by the claimed cards in order |
| Cards.MemberList.UpdateUI | app.js:1289-1336 | the children become `Rendered` of the old children, and the list invariant is kept |
| Text.Utf16Length | js/config.js:67-108 | `length` counts code units: between one and two per character, exactly one each when none lies above U+FFFF and two each when all do |
| Text.TrimIdempotent | js/config.js:64 | trimming twice equals trimming once |
| Text.TrimSlice | js/config.js:64 | the trim is a slice of the input, and everything cut off on either side is whitespace |
| Text.SplitJoin | js/config.js:222-224 | splitting on `;` and joining back gives the same text |
| Text.NatToStringRoundTrip | server/server.js:43 | a decimal numeral reads back as its value |
| Json.Or | server/server.js:94-97 | JavaScript `a \|\| b`: a when truthy, else b |
| Json.WithProp | js/api.js:72-81 | a property is written when defined; undefined leaves it out; other fields are kept |
| Records.Latitude | js/geocoding.js:29 | `latitude \|\| lat` on numbers |
| Records.Longitude | js/geocoding.js:30 | `longitude \|\| lon` on numbers |
| Records.EmailOrOwner | js/geocoding.js:46 | the email, or OWNER when it is empty |
| Records.Emails | js/api.js:127 | the emails of the list, in order |

## Left out

- I/O is replaced by parameters: `fetch`, `localStorage` through its decoded values, `setInterval`/`clearInterval` through handles, `Date.now`, `alert` and navigation through recorded fields. The model proves its properties for every value of those parameters.
- Floating point. Coordinates are exact reals. `toFixed(4)` rounds halves away from zero on the exact value, not on the binary double. `parseFloat` and `Number` are parameters, and NaN is not modelled.
- Locale-dependent text (`toLocaleString`, `formatTime`, `formatDateTime`) and `calculateDistance` use floating point and locale data, and are not part of this model.
- The asynchronous geocoding drain is modelled as one synchronous loop. These are not modelled:
  - the `geocodeProcessing` re-entrancy guard;
  - the 200 ms delay;
  - the re-resolution of addresses after the drain, and the `updateUI` call that follows it (geocoding.js:121-135).
- Geocoding.AddressResolver.Enqueue does not start `processGeocodeQueue`. The drain is the separate ProcessQueue.
- Map and DOM rendering are not modelled: Leaflet/MapLibre markers and the contents of each member card (`updateMemberCardContent`). Cards model only the identity, order and email of each card.
- Cards.MemberList.RemoveAll removes the leftovers as a set, by identity. The source walks the leftover map in insertion order; the resulting list is the same.
- Cards: a member record without an email is modelled as the empty-string key. The source keys such a card by "undefined", indexes it on the next render and removes it as a leftover once no member claims it. The model never indexes a "" card, so each stale email-less card stays at the front of the list.
- The jsonwebtoken cryptography and the random fallback secret are not modelled. Signing and verification are parameters.
- Config.ClientStore.ImportBundle: the model carries only object values for a bundle's `config` and `names`. In the source a truthy non-object value (a number, a string, `true`) is also stored and sets `updated`.
- Server.ExpiresIn: a JSON duration is an integer number of seconds, a string or absent. Three things are not modelled.
  - A fractional number such as 1.5 is not modelled. `parseInt` truncates it through its string form, so 0.5 gives a 0-second link.
  - A number whose magnitude is 1e21 or more is not modelled. `String()` prints it in exponent form, and `parseInt` then reads only the leading digit, so 1e21 gives a 1-second link. The model passes `Seconds(n)` through unchanged.
  - Boolean, array and object durations are not modelled. `true` reads as NaN, so `jwt.sign` throws and the reply is 500. `[60]` prints as "60" and gives 60 seconds.
- `parseInt` is modelled on its string argument: optional sign, `0x` prefixes and leading digits. The number-to-string step that `parseInt` applies to a non-string argument is not modelled, apart from non-negative integers below 1e21, which print as plain decimal numerals (`Server.ParseIntOfDecimal`).
- The `String()` coercion of non-string inputs in `escapeHtml` and `validateName` is not modelled: inputs are strings or missing.
- App.Dashboard.FetchSharedData treats a 2xx body that is not a JSON object as changing nothing. In the source, property writes on such a value are silently lost or throw.
- App.Dashboard.FetchSharedData: the merge-mode refresh after a successful poll (app.js:878-900) is not modelled; it is rendering. Address resolution is the parameter `resolve`.
- State.AppState.SetSharedMode is not modelled with explicit `null` arguments; the defaults handle only `undefined`.
- The rest of the api module's `fetchData` (the countdown reset, address resolution and the merge with shared locations) and `shareLocation` are not part of this model. `ALL` expansion and the owner fetch are.
- `getState`'s records are values, so its shallow copy of `lastLocations` is modelled as a value copy.
- The second copy of the geocoding queue in app.js is not modelled. It duplicates js/geocoding.js.
- The files outside the core are not part of this model: js/map.js, js/ui.js, js/main.js, sw.js, update-version.js, the benchmark and the verification scripts.

## Findings

| source | as written | input that shows it | evidently intended | confidence | as-written member | corrected member |
|---|---|---|---|---|---|---|
| js/config.js:156-216 | the individual-parameter block assigns each field into the object returned by `getConfig()`, which is the memo itself; a later validation throw skips the `localStorage` write but leaves the memo holding the earlier assignments | a memo with baseUrl `https://a.example`, then the URL `?server=https://b.example&key=short` | validate all parameters before changing anything (the comment at config.js:215), so a throw leaves memo and storage as they were | not executed | Config.PartialUpdateOnFailure | Config.MergedAllOrNothing |
