/**
 * The client's central state container (js/state.js): module-level bindings
 * reassigned by setters, a selection `Set` that is mutated in place, a reset to
 * the initial values and a snapshot with copied collections.
 *
 * Map, marker and timer objects belong to host libraries; they appear here as
 * opaque identities (`ObjectId`), compared but never looked into.
 */
module State {
  import opened Wrappers
  import opened Records

  /** A Leaflet/MapLibre object, a geolocation watch id or a timer id. */
  type ObjectId = nat

  /** The browser's last reported position (`userPosition`), the `{lat, lng}` object js/map.js stores. */
  datatype Position = Position(lat: real, lng: real)

  // ------------------------------------------------------------------
  // Selection values
  // ------------------------------------------------------------------

  /** The selection after toggling one email. */
  function Toggled(s: set<string>, email: string): (r: set<string>)
    ensures email in r <==> email !in s
    ensures forall e :: e != email ==> (e in r <==> e in s)
  {
    if email in s then s - {email} else s + {email}
  }

  /** Toggling the same email twice restores the selection. */
  lemma ToggleTwice(s: set<string>, email: string)
    ensures Toggled(Toggled(s, email), email) == s
  {
  }

  /** Toggles of different emails commute. */
  lemma ToggleCommutes(s: set<string>, a: string, b: string)
    ensures Toggled(Toggled(s, a), b) == Toggled(Toggled(s, b), a)
  {
  }

  /** The argument of `setSelectedMembers`: a `Set` object, an array of emails, or null/undefined. */
  datatype Emails = ASet(obj: EmailSet) | AList(items: seq<string>) | NoEmails

  /** The members of `new Set(items)`. */
  function SetOf(items: seq<string>): (r: set<string>)
    ensures forall e :: e in r <==> e in items
  {
    set e | e in items
  }

  /** What `getState` returns: the collections are copies, the host objects are shared. */
  datatype Snapshot = Snapshot(
    selectedMemberEmails: EmailSet,
    lastLocations: seq<Member>,
    ownerLocation: Option<Member>,
    isSharedMode: bool,
    shareToken: Option<string>,
    sharedLocations: seq<Member>,
    sharedStyleUrl: Option<string>,
    mapInstance: Option<ObjectId>,
    mapMarkers: seq<ObjectId>,
    ownerMarker: Option<ObjectId>,
    userMarker: Option<ObjectId>,
    userPosition: Option<Position>,
    currentMapEngine: Option<string>,
    currentEditingEmail: Option<string>,
    locationWatchId: Option<ObjectId>,
    locationTimeout: Option<ObjectId>)

  /** The module's `export let` bindings; None stands for null. */
  class AppState {
    var selectedMemberEmails: EmailSet
    var lastLocations: seq<Member>
    var ownerLocation: Option<Member>
    var isSharedMode: bool
    var shareToken: Option<string>
    var sharedLocations: seq<Member>
    var sharedStyleUrl: Option<string>
    var mapInstance: Option<ObjectId>
    var mapMarkers: seq<ObjectId>
    var ownerMarker: Option<ObjectId>
    var userMarker: Option<ObjectId>
    var userPosition: Option<Position>
    var currentMapEngine: Option<string>
    var currentEditingEmail: Option<string>
    var locationWatchId: Option<ObjectId>
    var locationTimeout: Option<ObjectId>

    /** Every binding except the selection object itself has its initial value, and the selection is empty. */
    ghost predicate Initial()
      reads this, selectedMemberEmails
    {
      selectedMemberEmails.elems == {} && InitialBindings()
    }

    /** Every binding other than the selection has its initial value. */
    ghost predicate InitialBindings()
      reads this
    {
      lastLocations == [] && ownerLocation == None &&
      !isSharedMode && shareToken == None && sharedLocations == [] && sharedStyleUrl == None &&
      mapInstance == None && mapMarkers == [] && ownerMarker == None && userMarker == None &&
      userPosition == None && currentMapEngine == None &&
      currentEditingEmail == None && locationWatchId == None && locationTimeout == None
    }

    /** The values the module starts with. */
    constructor ()
      ensures Initial() && fresh(selectedMemberEmails)
    {
      selectedMemberEmails := new EmailSet({});
      lastLocations := [];
      ownerLocation := None;
      isSharedMode := false;
      shareToken := None;
      sharedLocations := [];
      sharedStyleUrl := None;
      mapInstance := None;
      mapMarkers := [];
      ownerMarker := None;
      userMarker := None;
      userPosition := None;
      currentMapEngine := None;
      currentEditingEmail := None;
      locationWatchId := None;
      locationTimeout := None;
    }

    /** `setSelectedMembers`: a given Set is adopted as-is (aliased); anything else is copied into a new one. */
    method SetSelectedMembers(emails: Emails)
      modifies this`selectedMemberEmails
      ensures emails.ASet? ==> selectedMemberEmails == emails.obj
      ensures emails.AList? ==> fresh(selectedMemberEmails) && selectedMemberEmails.elems == SetOf(emails.items)
      ensures emails.NoEmails? ==> fresh(selectedMemberEmails) && selectedMemberEmails.elems == {}
    {
      match emails
      case ASet(obj) => selectedMemberEmails := obj;
      case AList(items) => selectedMemberEmails := new EmailSet(SetOf(items));
      case NoEmails => selectedMemberEmails := new EmailSet({});
    }

    /** `toggleMemberSelection`: only that email's membership flips. */
    method ToggleMemberSelection(email: string)
      modifies selectedMemberEmails
      ensures selectedMemberEmails.elems == Toggled(old(selectedMemberEmails.elems), email)
    {
      if selectedMemberEmails.Has(email) {
        selectedMemberEmails.Delete(email);
      } else {
        selectedMemberEmails.Add(email);
      }
    }

    /** `clearSelectedMembers`: the same Set object, emptied. */
    method ClearSelectedMembers()
      modifies selectedMemberEmails
      ensures selectedMemberEmails.elems == {}
    {
      selectedMemberEmails.Clear();
    }

    /** `setLastLocations(locations)`: null or undefined give []. */
    method SetLastLocations(locations: Option<seq<Member>>)
      modifies this`lastLocations
      ensures locations.None? ==> lastLocations == []
      ensures locations.Some? ==> lastLocations == locations.value
    {
      lastLocations := locations.GetOr([]);
    }

    method SetOwnerLocation(location: Option<Member>)
      modifies this`ownerLocation
      ensures ownerLocation == location
    {
      ownerLocation := location;
    }

    /** `setSharedMode(token, locations, styleUrl)`, with the defaults [] and null applied by the caller. */
    method SetSharedMode(token: Option<string>, locations: seq<Member>, styleUrl: Option<string>)
      modifies this`isSharedMode, this`shareToken, this`sharedLocations, this`sharedStyleUrl
      ensures isSharedMode && shareToken == token && sharedLocations == locations && sharedStyleUrl == styleUrl
    {
      isSharedMode := true;
      shareToken := token;
      sharedLocations := locations;
      sharedStyleUrl := styleUrl;
    }

    method SetSharedStyleUrl(url: Option<string>)
      modifies this`sharedStyleUrl
      ensures sharedStyleUrl == url
    {
      sharedStyleUrl := url;
    }

    /** `clearSharedMode`: the four shared-mode bindings go back to their initial values. */
    method ClearSharedMode()
      modifies this`isSharedMode, this`shareToken, this`sharedLocations, this`sharedStyleUrl
      ensures !isSharedMode && shareToken == None && sharedLocations == [] && sharedStyleUrl == None
    {
      isSharedMode := false;
      shareToken := None;
      sharedLocations := [];
      sharedStyleUrl := None;
    }

    method SetMap(instance: Option<ObjectId>)
      modifies this`mapInstance
      ensures mapInstance == instance
    {
      mapInstance := instance;
    }

    /** `setMapMarkers(markers)`: null or undefined give []. */
    method SetMapMarkers(markers: Option<seq<ObjectId>>)
      modifies this`mapMarkers
      ensures markers.None? ==> mapMarkers == []
      ensures markers.Some? ==> mapMarkers == markers.value
    {
      mapMarkers := markers.GetOr([]);
    }

    method SetOwnerMarker(marker: Option<ObjectId>)
      modifies this`ownerMarker
      ensures ownerMarker == marker
    {
      ownerMarker := marker;
    }

    method SetUserMarker(marker: Option<ObjectId>)
      modifies this`userMarker
      ensures userMarker == marker
    {
      userMarker := marker;
    }

    method SetUserPosition(position: Option<Position>)
      modifies this`userPosition
      ensures userPosition == position
    {
      userPosition := position;
    }

    method SetCurrentMapEngine(engine: Option<string>)
      modifies this`currentMapEngine
      ensures currentMapEngine == engine
    {
      currentMapEngine := engine;
    }

    method SetCurrentEditingEmail(email: Option<string>)
      modifies this`currentEditingEmail
      ensures currentEditingEmail == email
    {
      currentEditingEmail := email;
    }

    method SetLocationWatchId(id: Option<ObjectId>)
      modifies this`locationWatchId
      ensures locationWatchId == id
    {
      locationWatchId := id;
    }

    method SetLocationTimeout(timeout: Option<ObjectId>)
      modifies this`locationTimeout
      ensures locationTimeout == timeout
    {
      locationTimeout := timeout;
    }

    /**
     * `resetAllState`: every binding is back to its initial value, and the selection is the
     * same Set object as before, emptied in place, so other holders of it see the change.
     */
    method ResetAllState()
      modifies this, selectedMemberEmails
      ensures selectedMemberEmails == old(selectedMemberEmails)
      ensures Initial()
    {
      ResetDataBindings();
      ResetMapBindings();
      ResetDeviceBindings();
      selectedMemberEmails.Clear();
    }

    /** The data and shared-mode assignments of `resetAllState`. */
    method ResetDataBindings()
      modifies this`lastLocations, this`ownerLocation, this`isSharedMode, this`shareToken,
        this`sharedLocations, this`sharedStyleUrl
      ensures lastLocations == [] && ownerLocation == None
      ensures !isSharedMode && shareToken == None && sharedLocations == [] && sharedStyleUrl == None
    {
      lastLocations, ownerLocation := [], None;
      isSharedMode, shareToken, sharedLocations, sharedStyleUrl := false, None, [], None;
    }

    /** The map assignments of `resetAllState`. */
    method ResetMapBindings()
      modifies this`mapInstance, this`mapMarkers, this`ownerMarker, this`userMarker, this`currentMapEngine
      ensures mapInstance == None && mapMarkers == [] && ownerMarker == None && userMarker == None
      ensures currentMapEngine == None
    {
      mapInstance, mapMarkers, ownerMarker, userMarker, currentMapEngine := None, [], None, None, None;
    }

    /** The geolocation and modal assignments of `resetAllState`. */
    method ResetDeviceBindings()
      modifies this`userPosition, this`currentEditingEmail, this`locationWatchId, this`locationTimeout
      ensures userPosition == None && currentEditingEmail == None
      ensures locationWatchId == None && locationTimeout == None
    {
      userPosition, currentEditingEmail, locationWatchId, locationTimeout := None, None, None, None;
    }

    /**
     * `getState`: a new Set with the selection's members (so the snapshot's selection is not
     * the live object); sequences and records are values, hence copies.
     */
    method GetState() returns (s: Snapshot)
      ensures fresh(s.selectedMemberEmails) && s.selectedMemberEmails != selectedMemberEmails
      ensures s.selectedMemberEmails.elems == selectedMemberEmails.elems
      ensures s == Snapshot(s.selectedMemberEmails, lastLocations, ownerLocation, isSharedMode, shareToken,
                            sharedLocations, sharedStyleUrl, mapInstance, mapMarkers, ownerMarker, userMarker,
                            userPosition, currentMapEngine, currentEditingEmail, locationWatchId, locationTimeout)
    {
      var copy := new EmailSet(selectedMemberEmails.elems);
      s := Snapshot(copy, lastLocations, ownerLocation, isSharedMode, shareToken,
                    sharedLocations, sharedStyleUrl, mapInstance, mapMarkers, ownerMarker, userMarker,
                    userPosition, currentMapEngine, currentEditingEmail, locationWatchId, locationTimeout);
    }

    /** A snapshot's selection stays as it was however the live selection is toggled afterwards. */
    method ToggleAfterSnapshot(email: string) returns (s: Snapshot)
      modifies selectedMemberEmails
      ensures fresh(s.selectedMemberEmails)
      ensures s.selectedMemberEmails.elems == old(selectedMemberEmails.elems)
      ensures selectedMemberEmails.elems == Toggled(old(selectedMemberEmails.elems), email)
    {
      s := GetState();
      ToggleMemberSelection(email);
    }
  }
}
