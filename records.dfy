/**
 * The location record the browser client passes between its modules, and the
 * mutable `Set` of selected member emails that several modules share.
 *
 * JavaScript tests these fields for truthiness, so an absent string is written
 * "" and an absent number 0 (both are falsy there, like `undefined` and `null`).
 */
module Records {

  /** Fallback email used when a record has none (`member.email || 'OWNER'`). */
  const OWNER: string := "OWNER"

  /**
   * A family member's (or the owner's) latest location as the client holds it.
   * Upstream records spell coordinates either `latitude`/`longitude` or `lat`/`lon`.
   */
  datatype Member = Member(
    email: string,
    name: string,
    latitude: real,
    longitude: real,
    lat: real,
    lon: real,
    battery: int,
    timestamp: int,
    address: string)

  /** `member.latitude || member.lat` */
  function Latitude(m: Member): (r: real)
    ensures r != 0.0 <==> m.latitude != 0.0 || m.lat != 0.0
    ensures m.latitude != 0.0 ==> r == m.latitude
    ensures m.latitude == 0.0 ==> r == m.lat
  {
    if m.latitude != 0.0 then m.latitude else m.lat
  }

  /** `member.longitude || member.lon` */
  function Longitude(m: Member): (r: real)
    ensures r != 0.0 <==> m.longitude != 0.0 || m.lon != 0.0
    ensures m.longitude != 0.0 ==> r == m.longitude
    ensures m.longitude == 0.0 ==> r == m.lon
  {
    if m.longitude != 0.0 then m.longitude else m.lon
  }

  /** `member.email || 'OWNER'` */
  function EmailOrOwner(m: Member): (e: string)
    ensures e != []
    ensures m.email != [] ==> e == m.email
    ensures m.email == [] ==> e == OWNER
  {
    if m.email != [] then m.email else OWNER
  }

  /** The emails of a list of records, in order (`locations.map(l => l.email)`). */
  function Emails(locations: seq<Member>): (es: seq<string>)
    ensures |es| == |locations|
    ensures forall i :: 0 <= i < |es| ==> es[i] == locations[i].email
  {
    if locations == [] then [] else [locations[0].email] + Emails(locations[1..])
  }

  /** A JavaScript `Set` of emails; several modules hold the same object and mutate it in place. */
  class EmailSet {
    var elems: set<string>

    constructor (initial: set<string>)
      ensures elems == initial
    {
      elems := initial;
    }

    /** `set.has(email)` */
    function Has(email: string): (b: bool)
      reads this
      ensures b <==> email in elems
    {
      email in elems
    }

    /** `set.add(email)` */
    method Add(email: string)
      modifies this
      ensures elems == old(elems) + {email}
    {
      elems := elems + {email};
    }

    /** `set.delete(email)` */
    method Delete(email: string)
      modifies this
      ensures elems == old(elems) - {email}
    {
      elems := elems - {email};
    }

    /** `set.clear()`: the object stays the same, only its contents go. */
    method Clear()
      modifies this
      ensures elems == {}
    {
      elems := {};
    }
  }
}
