/**
 * The keyed reconciliation of the member list in app.js `updateUI`: existing
 * cards are indexed by their `data-member-email`, reused for the owner and for
 * each member in data order, appended in that order, and the cards nobody
 * claimed are removed. Card contents are not modelled, only which DOM node
 * sits where.
 */
module Cards {
  import opened Records

  /** A DOM card: its node identity, its `data-member-email` ("" when absent) and whether it was made as the owner card. */
  datatype Card = Card(id: nat, email: string, ownerCard: bool)

  /** A slot of the new order: the email it is keyed by and whether it is the owner's. */
  datatype Slot = Slot(email: string, owner: bool)

  /** The owner slot when there is an owner location, then one slot per member in data order. */
  function Wanted(ownerPresent: bool, members: seq<Member>): (w: seq<Slot>)
    ensures |w| == (if ownerPresent then 1 else 0) + |members|
    ensures ownerPresent ==> w[0] == Slot(OWNER, true)
    ensures forall i :: 0 <= i < |members| ==> w[(if ownerPresent then 1 else 0) + i] == Slot(members[i].email, false)
  {
    (if ownerPresent then [Slot(OWNER, true)] else []) + MemberSlots(members)
  }

  function MemberSlots(members: seq<Member>): (w: seq<Slot>)
    ensures |w| == |members|
    ensures forall i :: 0 <= i < |members| ==> w[i] == Slot(members[i].email, false)
  {
    if members == [] then [] else [Slot(members[0].email, false)] + MemberSlots(members[1..])
  }

  function SetOf(s: seq<Card>): set<Card> {
    set c | c in s
  }

  function SlotEmails(w: seq<Slot>): set<string> {
    set i | 0 <= i < |w| :: w[i].email
  }

  /** The elements of s that are not in d, in their order. */
  function Drop(s: seq<Card>, d: set<Card>): seq<Card> {
    if s == [] then [] else (if s[0] in d then [] else [s[0]]) + Drop(s[1..], d)
  }

  lemma {:induction false} DropMember(s: seq<Card>, d: set<Card>)
    ensures forall c :: c in Drop(s, d) <==> c in s && c !in d
    decreases |s|
  {
    if s != [] {
      DropMember(s[1..], d);
      assert forall c :: c in s <==> c == s[0] || c in s[1..];
    }
  }

  predicate Distinct(s: seq<Card>) {
    forall i, j :: 0 <= i < j < |s| ==> s[i] != s[j]
  }

  // ------------------------------------------------------------------
  // Step 1: index the existing cards
  // ------------------------------------------------------------------

  /** `existingNodes` after the indexing loop: for each non-empty email, the last card carrying it. */
  function Index(children: seq<Card>): (m: map<string, Card>)
    ensures forall e :: e in m ==> e != [] && m[e].email == e && m[e] in children
    ensures forall i :: 0 <= i < |children| && children[i].email != [] ==> children[i].email in m
    decreases |children|
  {
    if children == [] then map[]
    else
      var init := children[..|children| - 1];
      var m := Index(init);
      var c := children[|children| - 1];
      assert forall x :: x in init ==> x in children;
      if c.email != [] then m[c.email := c] else m
  }

  /** When no two cards share an email, every labelled card is the one indexed under its email. */
  lemma {:induction false} IndexOfDistinct(children: seq<Card>, i: nat)
    requires i < |children| && children[i].email != []
    requires forall a, b :: 0 <= a < b < |children| && children[a].email != [] ==> children[a].email != children[b].email
    ensures children[i].email in Index(children) && Index(children)[children[i].email] == children[i]
    decreases |children|
  {
    var n := |children|;
    var init, c := children[..n - 1], children[n - 1];
    if i < n - 1 {
      assert init[i] == children[i];
      forall a, b | 0 <= a < b < |init| && init[a].email != [] ensures init[a].email != init[b].email {
        assert init[a] == children[a] && init[b] == children[b];
      }
      IndexOfDistinct(init, i);
      assert c.email != children[i].email;
    }
  }

  // ------------------------------------------------------------------
  // Step 2: claim a card per slot
  // ------------------------------------------------------------------

  /** Cards claimed, the index entries left over, and the next fresh node identity. */
  datatype Plan = Plan(cards: seq<Card>, leftover: map<string, Card>, next: nat)

  /** Each index entry is keyed by its own email and older than `next`. */
  ghost predicate Keyed(ex: map<string, Card>, next: nat) {
    forall e :: e in ex ==> ex[e].email == e && ex[e].id < next
  }

  /** One slot: reuse the indexed card or create one, and remove the email from the index either way. */
  function Take(ex: map<string, Card>, s: Slot, next: nat): Plan {
    if s.email in ex then Plan([ex[s.email]], ex - {s.email}, next)
    else Plan([Card(next, s.email, s.owner)], ex - {s.email}, next + 1)
  }

  /** The first slot with this email is at position i. */
  ghost predicate FirstAt(w: seq<Slot>, i: nat)
    requires i < |w|
  {
    forall j :: 0 <= j < i ==> w[j].email != w[i].email
  }

  /**
   * What claiming the slots w in order from index ex yields: the cards carry the slots'
   * emails; the first slot of an indexed email gets the existing card, every other slot a
   * new node; no card is claimed twice; exactly the unwanted emails' cards are left over.
   */
  ghost predicate Planned(ex: map<string, Card>, w: seq<Slot>, next: nat, p: Plan) {
    |p.cards| == |w| && next <= p.next &&
    (forall i :: 0 <= i < |w| ==> p.cards[i].email == w[i].email) &&
    (forall i :: 0 <= i < |w| && FirstAt(w, i) && w[i].email in ex ==> p.cards[i] == ex[w[i].email]) &&
    (forall i :: 0 <= i < |w| && !(FirstAt(w, i) && w[i].email in ex) ==>
      next <= p.cards[i].id < p.next && p.cards[i].ownerCard == w[i].owner) &&
    Distinct(p.cards) &&
    p.leftover.Keys == ex.Keys - SlotEmails(w) &&
    (forall e :: e in p.leftover ==> p.leftover[e] == ex[e])
  }

  /** Claiming all slots in order, one Take each. */
  function Place(ex: map<string, Card>, w: seq<Slot>, next: nat): Plan
    decreases |w|
  {
    if w == [] then Plan([], ex, next)
    else
      var t := Take(ex, w[0], next);
      var rest := Place(t.leftover, w[1..], t.next);
      Plan(t.cards + rest.cards, rest.leftover, rest.next)
  }

  /** Place does what Planned describes, for an index whose entries are keyed and older than next. */
  lemma {:induction false} PlaceFacts(ex: map<string, Card>, w: seq<Slot>, next: nat)
    requires Keyed(ex, next)
    ensures Planned(ex, w, next, Place(ex, w, next))
    decreases |w|
  {
    if w != [] {
      var t := Take(ex, w[0], next);
      PlaceFacts(t.leftover, w[1..], t.next);
      PlaceStep(ex, w, next, t, Place(t.leftover, w[1..], t.next), Place(ex, w, next));
    }
  }

  /** The shape of one induction step of Place: the first slot taken, the rest planned. */
  ghost predicate Step(ex: map<string, Card>, w: seq<Slot>, next: nat, t: Plan, rest: Plan, p: Plan) {
    Keyed(ex, next) && w != [] &&
    t == Take(ex, w[0], next) &&
    Planned(t.leftover, w[1..], t.next, rest) &&
    p == Plan(t.cards + rest.cards, rest.leftover, rest.next)
  }

  /** The induction step of Place's contract, one property at a time. */
  lemma PlaceStep(ex: map<string, Card>, w: seq<Slot>, next: nat, t: Plan, rest: Plan, p: Plan)
    requires Step(ex, w, next, t, rest, p)
    ensures Planned(ex, w, next, p)
  {
    StepShifts(ex, w, next, t, rest, p);
    StepReused(ex, w, next, t, rest, p);
    StepFresh(ex, w, next, t, rest, p);
    StepDistinct(ex, w, next, t, rest, p);
    StepLeftover(ex, w, next, t, rest, p);
  }

  lemma StepShifts(ex: map<string, Card>, w: seq<Slot>, next: nat, t: Plan, rest: Plan, p: Plan)
    requires Step(ex, w, next, t, rest, p)
    ensures |p.cards| == |w| && next <= p.next && p.cards[0] == t.cards[0]
    ensures forall i :: 1 <= i < |w| ==> p.cards[i] == rest.cards[i - 1] && w[i] == w[1..][i - 1]
    ensures forall i :: 0 <= i < |w| ==> p.cards[i].email == w[i].email
  {
  }

  lemma StepReused(ex: map<string, Card>, w: seq<Slot>, next: nat, t: Plan, rest: Plan, p: Plan)
    requires Step(ex, w, next, t, rest, p)
    ensures forall i :: 0 <= i < |w| && FirstAt(w, i) && w[i].email in ex ==> p.cards[i] == ex[w[i].email]
  {
    StepShifts(ex, w, next, t, rest, p);
    forall i | 1 <= i < |w| && FirstAt(w, i) && w[i].email in ex ensures p.cards[i] == ex[w[i].email] {
      assert w[i].email != w[0].email;
      assert FirstAt(w[1..], i - 1) by {
        forall j | 0 <= j < i - 1 ensures w[1..][j].email != w[1..][i - 1].email {
          assert w[1..][j] == w[j + 1];
        }
      }
    }
  }

  lemma StepFresh(ex: map<string, Card>, w: seq<Slot>, next: nat, t: Plan, rest: Plan, p: Plan)
    requires Step(ex, w, next, t, rest, p)
    ensures forall i :: 0 <= i < |w| && !(FirstAt(w, i) && w[i].email in ex) ==>
      next <= p.cards[i].id < p.next && p.cards[i].ownerCard == w[i].owner
  {
    StepShifts(ex, w, next, t, rest, p);
    forall i | 1 <= i < |w| && !(FirstAt(w, i) && w[i].email in ex)
      ensures next <= p.cards[i].id < p.next && p.cards[i].ownerCard == w[i].owner
    {
      if FirstAt(w[1..], i - 1) && w[1..][i - 1].email in t.leftover {
        assert FirstAt(w, i) by {
          forall j | 0 <= j < i ensures w[j].email != w[i].email {
            if j > 0 { assert w[1..][j - 1] == w[j]; }
          }
        }
        assert false;
      }
    }
  }

  // No two claimed cards coincide: the first one is either an index entry for w[0]'s email,
  // which no later indexed card carries, or a node newer than all of them.
  lemma StepDistinct(ex: map<string, Card>, w: seq<Slot>, next: nat, t: Plan, rest: Plan, p: Plan)
    requires Step(ex, w, next, t, rest, p)
    ensures Distinct(p.cards)
  {
    StepShifts(ex, w, next, t, rest, p);
    var e0 := w[0].email;
    var c0 := t.cards[0];
    forall i | 1 <= i < |w| ensures c0 != p.cards[i] {
      var r := rest.cards[i - 1];
      if e0 in ex {
        if FirstAt(w[1..], i - 1) && w[1..][i - 1].email in t.leftover {
          assert r == t.leftover[w[1..][i - 1].email];
          assert r.email != e0;
        } else {
          assert r.id >= next;
        }
      } else {
        assert c0.id == next && t.next == next + 1;
        if FirstAt(w[1..], i - 1) && w[1..][i - 1].email in t.leftover {
          assert r.id < next;
        }
      }
    }
    forall a, b | 0 <= a < b < |p.cards| ensures p.cards[a] != p.cards[b] {
      if a > 0 { assert p.cards[a] == rest.cards[a - 1] && p.cards[b] == rest.cards[b - 1]; }
    }
  }

  lemma StepLeftover(ex: map<string, Card>, w: seq<Slot>, next: nat, t: Plan, rest: Plan, p: Plan)
    requires Step(ex, w, next, t, rest, p)
    ensures p.leftover.Keys == ex.Keys - SlotEmails(w)
    ensures forall e :: e in p.leftover ==> p.leftover[e] == ex[e]
  {
    var e0 := w[0].email;
    assert SlotEmails(w) == {e0} + SlotEmails(w[1..]) by {
      forall e | e in SlotEmails(w) ensures e in {e0} + SlotEmails(w[1..]) {
        var i :| 0 <= i < |w| && w[i].email == e;
        if i > 0 { assert w[1..][i - 1] == w[i]; }
      }
      forall e | e in SlotEmails(w[1..]) ensures e in SlotEmails(w) {
        var i :| 0 <= i < |w[1..]| && w[1..][i].email == e;
        assert w[i + 1] == w[1..][i];
      }
    }
  }

  /** A claimed card is never also left over. */
  lemma LeftoverUnclaimed(ex: map<string, Card>, w: seq<Slot>, next: nat)
    requires Keyed(ex, next)
    ensures var p := Place(ex, w, next);
      forall c :: c in p.leftover.Values ==> c !in p.cards
  {
    var p := Place(ex, w, next);
    PlaceFacts(ex, w, next);
    forall c | c in p.leftover.Values ensures c !in p.cards {
      var e :| e in p.leftover && p.leftover[e] == c;
      assert c.email == e && e !in SlotEmails(w);
      forall i | 0 <= i < |p.cards| ensures p.cards[i] != c {
        assert w[i].email in SlotEmails(w);
      }
    }
  }

  // ------------------------------------------------------------------
  // Steps 3 and 4: reorder, then remove leftovers
  // ------------------------------------------------------------------

  /** `container.appendChild(card)`: the node leaves its old place (if any) and goes last. */
  function AppendChild(children: seq<Card>, card: Card): (r: seq<Card>)
    ensures r == Drop(children, {card}) + [card]
  {
    Drop(children, {card}) + [card]
  }

  lemma {:induction false} DropConcat(a: seq<Card>, b: seq<Card>, d: set<Card>)
    ensures Drop(a + b, d) == Drop(a, d) + Drop(b, d)
    decreases |a|
  {
    if a == [] {
      assert a + b == b;
    } else {
      assert (a + b)[0] == a[0];
      assert (a + b)[1..] == a[1..] + b;
      DropConcat(a[1..], b, d);
      var h := if a[0] in d then [] else [a[0]];
      assert Drop(a + b, d) == h + (Drop(a[1..], d) + Drop(b, d));
      assert h + (Drop(a[1..], d) + Drop(b, d)) == (h + Drop(a[1..], d)) + Drop(b, d);
    }
  }

  lemma {:induction false} DropDrop(a: seq<Card>, d: set<Card>, e: set<Card>)
    ensures Drop(Drop(a, d), e) == Drop(a, d + e)
    decreases |a|
  {
    if a != [] {
      DropDrop(a[1..], d, e);
      if a[0] in d {
        assert Drop(a, d) == Drop(a[1..], d);
        assert Drop(a, d + e) == Drop(a[1..], d + e);
      } else {
        var t := Drop(a[1..], d);
        assert Drop(a, d) == [a[0]] + t;
        assert ([a[0]] + t)[0] == a[0] && ([a[0]] + t)[1..] == t;
      }
    }
  }

  lemma {:induction false} DropNone(a: seq<Card>, d: set<Card>)
    requires forall c :: c in a ==> c !in d
    ensures Drop(a, d) == a
    decreases |a|
  {
    if a != [] {
      DropNone(a[1..], d);
    }
  }

  lemma {:induction false} DropAll(a: seq<Card>, d: set<Card>)
    requires forall c :: c in a ==> c in d
    ensures Drop(a, d) == []
    decreases |a|
  {
    if a != [] {
      DropAll(a[1..], d);
    }
  }

  lemma {:induction false} DropDistinct(a: seq<Card>, d: set<Card>)
    requires Distinct(a)
    ensures Distinct(Drop(a, d))
    decreases |a|
  {
    if a != [] {
      DropDistinct(a[1..], d);
      DropMember(a[1..], d);
      var r := Drop(a, d);
      var tail := Drop(a[1..], d);
      if a[0] !in d {
        assert a[0] !in a[1..];
        forall i, j | 0 <= i < j < |r| ensures r[i] != r[j] {
          if i == 0 { assert r[j] == tail[j - 1] && r[j] in a[1..]; } else { assert r[i] == tail[i - 1] && r[j] == tail[j - 1]; }
        }
      }
    }
  }

  /** Appending one more card not yet placed keeps the list as "the others, then the placed ones". */
  lemma AppendStep(c0: seq<Card>, placed: seq<Card>, card: Card)
    requires card !in placed
    ensures AppendChild(Drop(c0, SetOf(placed)) + placed, card) == Drop(c0, SetOf(placed + [card])) + (placed + [card])
  {
    DropConcat(Drop(c0, SetOf(placed)), placed, {card});
    DropDrop(c0, SetOf(placed), {card});
    DropNone(placed, {card});
    assert SetOf(placed + [card]) == SetOf(placed) + {card};
  }

  /** The list after `updateUI`: the unclaimed, unindexed cards stay in front, then the claimed ones in slot order. */
  function Rendered(children: seq<Card>, w: seq<Slot>, next: nat): seq<Card> {
    var p := Place(Index(children), w, next);
    Drop(children, SetOf(p.cards) + p.leftover.Values) + p.cards
  }

  /** The claimed cards carry the slots' emails, one per slot. */
  lemma PlanEmails(ex: map<string, Card>, w: seq<Slot>, next: nat)
    requires Keyed(ex, next)
    ensures var p := Place(ex, w, next);
      |p.cards| == |w| && forall i :: 0 <= i < |w| ==> p.cards[i].email == w[i].email
  {
    PlaceFacts(ex, w, next);
  }

  /** The first slot of an indexed email gets the indexed card. */
  lemma PlanReuse(ex: map<string, Card>, w: seq<Slot>, next: nat, i: nat)
    requires Keyed(ex, next) && i < |w| && FirstAt(w, i) && w[i].email in ex
    ensures var p := Place(ex, w, next);
      |p.cards| == |w| && p.cards[i] == ex[w[i].email]
  {
    PlaceFacts(ex, w, next);
  }

  /** The rendered list ends with one card per slot, in slot order and keyed by the slot's email. */
  lemma RenderedOrder(children: seq<Card>, w: seq<Slot>, next: nat)
    requires Keyed(Index(children), next)
    ensures var r := Rendered(children, w, next);
      |r| >= |w| && forall i :: 0 <= i < |w| ==> r[|r| - |w| + i].email == w[i].email
  {
    var p := Place(Index(children), w, next);
    PlanEmails(Index(children), w, next);
    var kept := Drop(children, SetOf(p.cards) + p.leftover.Values);
    assert Rendered(children, w, next) == kept + p.cards;
    EndsWithSlots(kept, p.cards, w);
  }

  lemma EndsWithSlots(kept: seq<Card>, cards: seq<Card>, w: seq<Slot>)
    requires |cards| == |w| && forall i :: 0 <= i < |w| ==> cards[i].email == w[i].email
    ensures var r := kept + cards;
      |r| >= |w| && forall i :: 0 <= i < |w| ==> r[|r| - |w| + i].email == w[i].email
  {
    forall i | 0 <= i < |w| ensures (kept + cards)[|kept| + i].email == w[i].email {
      assert (kept + cards)[|kept| + i] == cards[i];
    }
  }

  /** A card whose email is wanted is reused, in the first slot with that email. */
  lemma RenderedReuse(children: seq<Card>, w: seq<Slot>, next: nat, i: nat)
    requires Keyed(Index(children), next)
    requires i < |w| && FirstAt(w, i) && w[i].email in Index(children)
    ensures var r := Rendered(children, w, next);
      |r| >= |w| && r[|r| - |w| + i] == Index(children)[w[i].email] && Index(children)[w[i].email] in children
  {
    var p := Place(Index(children), w, next);
    PlanReuse(Index(children), w, next, i);
    var kept := Drop(children, SetOf(p.cards) + p.leftover.Values);
    assert Rendered(children, w, next) == kept + p.cards;
    assert (kept + p.cards)[|kept| + i] == p.cards[i];
  }

  /** The cards have distinct, non-empty emails: the normal shape of the list. */
  predicate Labelled(children: seq<Card>) {
    (forall i :: 0 <= i < |children| ==> children[i].email != []) &&
    (forall a, b :: 0 <= a < b < |children| ==> children[a].email != children[b].email)
  }

  /**
   * From a labelled list the result is exactly the new order: the owner card when there is
   * an owner location, then the members' cards in data order; a card whose email no slot
   * wants is gone.
   */
  lemma RenderedExactly(children: seq<Card>, w: seq<Slot>, next: nat)
    requires Keyed(Index(children), next) && Labelled(children)
    ensures Rendered(children, w, next) == Place(Index(children), w, next).cards
    ensures forall c :: c in children && c.email !in SlotEmails(w) ==> c !in Rendered(children, w, next)
  {
    var p := Place(Index(children), w, next);
    PlaceFacts(Index(children), w, next);
    var gone := SetOf(p.cards) + p.leftover.Values;
    DropMember(children, gone);
    forall c | c in children ensures c in gone {
      var k :| 0 <= k < |children| && children[k] == c;
      ClaimedOrLeftover(children, w, next, k);
    }
    DropAll(children, gone);
    forall i | 0 <= i < |p.cards| ensures p.cards[i].email in SlotEmails(w) {
      assert w[i].email in SlotEmails(w);
    }
  }

  /** In a labelled list every card is either claimed for a slot or left over. */
  lemma ClaimedOrLeftover(children: seq<Card>, w: seq<Slot>, next: nat, k: nat)
    requires Keyed(Index(children), next) && Labelled(children) && k < |children|
    ensures var p := Place(Index(children), w, next);
      children[k] in p.cards || children[k] in p.leftover.Values
  {
    var ex := Index(children);
    var p := Place(ex, w, next);
    PlaceFacts(ex, w, next);
    var c := children[k];
    IndexOfDistinct(children, k);
    if c.email in SlotEmails(w) {
      var i :| 0 <= i < |w| && w[i].email == c.email;
      var f := FirstSlot(w, i);
      assert p.cards[f] == c;
    } else {
      assert c.email in p.leftover;
    }
  }

  /** The first slot carrying the same email as slot i. */
  lemma {:induction false} FirstSlot(w: seq<Slot>, i: nat) returns (f: nat)
    requires i < |w|
    ensures f <= i && w[f].email == w[i].email && FirstAt(w, f)
    decreases i
  {
    if FirstAt(w, i) {
      f := i;
    } else {
      var j :| 0 <= j < i && w[j].email == w[i].email;
      f := FirstSlot(w, j);
    }
  }

  // ------------------------------------------------------------------
  // The container
  // ------------------------------------------------------------------

  /** The `membersList` container; `nextId` is newer than every node it has ever held. */
  class MemberList {
    var children: seq<Card>
    var nextId: nat

    ghost predicate Valid()
      reads this
    {
      Distinct(children) && forall c :: c in children ==> c.id < nextId
    }

    constructor ()
      ensures Valid() && children == []
    {
      children := [];
      nextId := 0;
    }

    /** `existingNodes.get(email)` or a new card, then `existingNodes.delete(email)`. */
    method Claim(existing: map<string, Card>, s: Slot) returns (card: Card, rest: map<string, Card>)
      modifies this`nextId
      ensures Plan([card], rest, nextId) == Take(existing, s, old(nextId))
    {
      if s.email in existing {
        card := existing[s.email];
      } else {
        card := Card(nextId, s.email, s.owner);
        nextId := nextId + 1;
      }
      rest := existing - {s.email};
    }

    /** The indexing loop: `existingNodes` maps each card's email to the last card carrying it. */
    method IndexCards() returns (existing: map<string, Card>)
      ensures existing == Index(children)
    {
      existing := map[];
      var i := 0;
      while i < |children|
        invariant 0 <= i <= |children|
        invariant existing == Index(children[..i])
      {
        assert children[..i + 1][..i] == children[..i];
        var child := children[i];
        if child.email != [] {
          existing := existing[child.email := child];
        }
        i := i + 1;
      }
      assert children[..i] == children;
    }

    /** The loop over `data.locations`: one claim per member, in data order. */
    method ClaimMembers(existing: map<string, Card>, members: seq<Member>) returns (cards: seq<Card>, rest: map<string, Card>)
      modifies this`nextId
      ensures var p := Place(existing, MemberSlots(members), old(nextId));
        cards == p.cards && rest == p.leftover && nextId == p.next
    {
      ghost var w := MemberSlots(members);
      ghost var p0 := Place(existing, w, nextId);
      cards, rest := [], existing;
      var k := 0;
      while k < |members|
        invariant 0 <= k <= |members|
        invariant var p := Place(rest, w[k..], nextId);
          cards + p.cards == p0.cards && p.leftover == p0.leftover && p.next == p0.next
      {
        assert w[k..][0] == Slot(members[k].email, false);
        assert w[k..][1..] == w[k + 1..];
        var card;
        card, rest := Claim(rest, Slot(members[k].email, false));
        cards := cards + [card];
        k := k + 1;
      }
    }

    /** The reorder loop: each claimed card is appended in turn. */
    method AppendAll(newOrder: seq<Card>)
      modifies this`children
      requires Distinct(newOrder)
      ensures children == Drop(old(children), SetOf(newOrder)) + newOrder
    {
      ghost var c0 := children;
      DropNone(c0, {});
      assert SetOf(newOrder[..0]) == {};
      var j := 0;
      while j < |newOrder|
        invariant 0 <= j <= |newOrder|
        invariant children == Drop(c0, SetOf(newOrder[..j])) + newOrder[..j]
      {
        var card := newOrder[j];
        assert newOrder[..j + 1] == newOrder[..j] + [card];
        AppendStep(c0, newOrder[..j], card);
        children := AppendChild(children, card);
        j := j + 1;
      }
      assert newOrder[..j] == newOrder;
    }

    /** The removal loop: each card left in the index leaves the container. */
    method RemoveAll(leftovers: set<Card>)
      modifies this`children
      ensures children == Drop(old(children), leftovers)
    {
      ghost var c0 := children;
      var todo := leftovers;
      ghost var removed: set<Card> := {};
      DropNone(c0, {});
      while todo != {}
        invariant todo + removed == leftovers
        invariant children == Drop(c0, removed)
        decreases |todo|
      {
        var card :| card in todo;
        DropDrop(c0, removed, {card});
        children := Drop(children, {card});
        todo := todo - {card};
        removed := removed + {card};
      }
    }

    /** Steps 1 and 2 of `updateUI`: index the current cards, then claim the owner slot and each member's. */
    method ClaimAll(ownerPresent: bool, members: seq<Member>) returns (newOrder: seq<Card>, existing: map<string, Card>)
      modifies this`nextId
      ensures var p := Place(Index(children), Wanted(ownerPresent, members), old(nextId));
        newOrder == p.cards && existing == p.leftover && nextId == p.next
    {
      ghost var w := Wanted(ownerPresent, members);
      ghost var p0 := Place(Index(children), w, nextId);
      existing := IndexCards();
      newOrder := [];
      if ownerPresent {
        var card;
        card, existing := Claim(existing, Slot(OWNER, true));
        newOrder := [card];
        assert w == [Slot(OWNER, true)] + MemberSlots(members);
        assert w[1..] == MemberSlots(members);
      } else {
        assert w == MemberSlots(members);
      }
      var memberCards;
      memberCards, existing := ClaimMembers(existing, members);
      newOrder := newOrder + memberCards;
    }

    /** Steps 3 and 4 of `updateUI`: append the claimed cards in order, then remove the leftovers. */
    method Reconcile(newOrder: seq<Card>, existing: map<string, Card>)
      modifies this`children
      requires Distinct(newOrder)
      requires forall c :: c in existing.Values ==> c !in newOrder
      ensures children == Drop(old(children), SetOf(newOrder) + existing.Values) + newOrder
    {
      ghost var c0 := children;
      AppendAll(newOrder);
      RemoveAll(existing.Values);
      DropConcat(Drop(c0, SetOf(newOrder)), newOrder, existing.Values);
      DropDrop(c0, SetOf(newOrder), existing.Values);
      DropNone(newOrder, existing.Values);
    }

    /** The reconciliation part of `updateUI(data)`, with `data.locations` as `members`. */
    method UpdateUI(ownerPresent: bool, members: seq<Member>)
      modifies this
      requires Valid()
      ensures Valid()
      ensures children == Rendered(old(children), Wanted(ownerPresent, members), old(nextId))
    {
      ghost var c0, n0 := children, nextId;
      ghost var w := Wanted(ownerPresent, members);
      RenderedValid(c0, w, n0);
      PlaceFacts(Index(c0), w, n0);
      LeftoverUnclaimed(Index(c0), w, n0);
      var newOrder, existing := ClaimAll(ownerPresent, members);
      Reconcile(newOrder, existing);
    }
  }

  /** The rendered list has no node twice, and every node in it is older than the new `nextId`. */
  lemma RenderedValid(c0: seq<Card>, w: seq<Slot>, n0: nat)
    requires Distinct(c0) && forall c :: c in c0 ==> c.id < n0
    ensures Keyed(Index(c0), n0)
    ensures var p := Place(Index(c0), w, n0); var r := Rendered(c0, w, n0);
      Distinct(r) && forall c :: c in r ==> c.id < p.next
  {
    var ex := Index(c0);
    var p := Place(ex, w, n0);
    PlaceFacts(ex, w, n0);
    var kept := Drop(c0, SetOf(p.cards) + p.leftover.Values);
    DropDistinct(c0, SetOf(p.cards) + p.leftover.Values);
    DropMember(c0, SetOf(p.cards) + p.leftover.Values);
    forall c | c in p.cards ensures c.id < p.next {
      var i :| 0 <= i < |p.cards| && p.cards[i] == c;
    }
    var r := kept + p.cards;
    forall a, b | 0 <= a < b < |r| ensures r[a] != r[b] {
      if b >= |kept| && a < |kept| {
        assert r[a] in kept && r[b] in p.cards;
      } else if a >= |kept| {
        assert r[a] == p.cards[a - |kept|] && r[b] == p.cards[b - |kept|];
      }
    }
  }
}
