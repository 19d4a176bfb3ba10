/**
 Queueing for slots that are taken (`packages/db/waitlist.ts`). A place's position in the
 list is when it joined, and a sweep reads them in that order. Sweeps do not run at the same
 time as each other here. Times are milliseconds.
 */
module Waitlist {
  const WAITLIST_OFFER_MINUTES := 15
  const TURNAROUND_MINUTES := 10
  const MINUTE_MS := 60_000
  /** How far to either side of a slot a read looks for others: one day. */
  const LOOK_MS := 24 * 60 * 60_000

  datatype Slot = Slot(observatory: nat, start: int, minutes: int)

  datatype Status = Waiting | Offered(expires: int) | Claimed | Lapsed | Ended

  datatype Place = Place(user: nat, slot: Slot, status: Status)

  /** A confirmed booking holds its slot; a reserved one until its hold lapses. */
  datatype Hold = Confirmed | Reserved(until: int) | Released
  datatype Booking = Booking(user: nat, slot: Slot, hold: Hold)

  predicate Active(p: Place) { p.status.Waiting? || p.status.Offered? }

  // ------------------------------------------------------------------
  // Spans
  // ------------------------------------------------------------------

  /** A session and its turnaround. */
  function End(s: Slot): int { s.start + (s.minutes + TURNAROUND_MINUTES) * MINUTE_MS }

  predicate Overlaps(a: Slot, b: Slot) { a.start < End(b) && b.start < End(a) }

  predicate WithinADay(s: Slot) { (s.minutes + TURNAROUND_MINUTES) * MINUTE_MS <= LOOK_MS }

  /** What a read around a slot fetches, before looking at the spans. */
  predicate Fetched(wanted: Slot, row: Slot) {
    row.observatory == wanted.observatory && wanted.start - LOOK_MS < row.start < End(wanted) + LOOK_MS
  }

  predicate Found(wanted: Slot, row: Slot) { Fetched(wanted, row) && Overlaps(wanted, row) }

  /** The read misses no overlapping row whose own span is within a day. */
  lemma FetchMissesNothing(wanted: Slot, row: Slot)
    requires WithinADay(row) && row.observatory == wanted.observatory
    ensures Found(wanted, row) <==> Overlaps(wanted, row)
  {
  }

  /** No read of its observatory goes wrong about this row. */
  ghost predicate AlwaysFound(row: Slot) {
    forall wanted: Slot :: wanted.observatory == row.observatory ==> (Found(wanted, row) <==> Overlaps(wanted, row))
  }

  /** Exactly the rows within a day are found whenever they overlap. A longer one is missed by
      a slot that begins a day after it. */
  lemma FetchExactly(row: Slot)
    ensures AlwaysFound(row) <==> WithinADay(row)
  {
    if WithinADay(row) {
      forall wanted: Slot | wanted.observatory == row.observatory ensures Found(wanted, row) <==> Overlaps(wanted, row) {
        FetchMissesNothing(wanted, row);
      }
    } else {
      var wanted := Slot(row.observatory, row.start + LOOK_MS, 60);
      assert Overlaps(wanted, row) && !Found(wanted, row);
    }
  }

  predicate Holds(b: Booking, now: int) { b.hold.Confirmed? || (b.hold.Reserved? && b.hold.until > now) }

  predicate HeldBy(b: Booking, s: Slot, now: int) { Holds(b, now) && Found(s, b.slot) }

  predicate Held(bookings: seq<Booking>, s: Slot, now: int) {
    exists i :: 0 <= i < |bookings| && HeldBy(bookings[i], s, now)
  }

  predicate HeldByUser(bookings: seq<Booking>, s: Slot, user: nat, now: int) {
    exists i :: 0 <= i < |bookings| && bookings[i].user == user && HeldBy(bookings[i], s, now)
  }

  /** An open offer. */
  predicate Live(p: Place, now: int) { p.status.Offered? && p.status.expires > now }

  /** Somebody else's open offer overlaps the slot. */
  predicate OfferAround(places: seq<Place>, s: Slot, user: nat, now: int) {
    exists i :: 0 <= i < |places| && Live(places[i], now) && places[i].user != user && Found(s, places[i].slot)
  }

  predicate SameSlot(a: Slot, b: Slot) { a.observatory == b.observatory && a.start == b.start }

  predicate OfferOn(places: seq<Place>, s: Slot) {
    exists i :: 0 <= i < |places| && places[i].status.Offered? && SameSlot(places[i].slot, s)
  }

  /** Why a place may not be offered now. */
  predicate NotNow(places: seq<Place>, bookings: seq<Booking>, p: Place, now: int) {
    OfferOn(places, p.slot) || Held(bookings, p.slot, now) || OfferAround(places, p.slot, p.user, now)
  }

  // ------------------------------------------------------------------
  // What holds of the list
  // ------------------------------------------------------------------

  ghost predicate OneOfferPerSlot(places: seq<Place>) {
    forall i, j :: 0 <= i < j < |places| && places[i].status.Offered? && places[j].status.Offered? ==>
      !SameSlot(places[i].slot, places[j].slot)
  }

  /** Two people never hold open offers for overlapping slots. */
  ghost predicate OffersApart(places: seq<Place>, now: int) {
    forall i, j :: 0 <= i < j < |places| && Live(places[i], now) && Live(places[j], now)
                   && places[i].user != places[j].user && places[i].slot.observatory == places[j].slot.observatory
                   && WithinADay(places[i].slot) && WithinADay(places[j].slot) ==>
      !Overlaps(places[i].slot, places[j].slot)
  }

  /** Nobody who joined a slot's line earlier is still waiting behind an offer. */
  ghost predicate NobodyPassedOver(places: seq<Place>, i: int) {
    && 0 <= i < |places| && !places[i].status.Waiting?
    && forall j :: 0 <= j < i && SameSlot(places[j].slot, places[i].slot) ==> !places[j].status.Waiting?
  }

  /** Of two offers for a slot, the earlier went to whoever had joined earlier. */
  ghost predicate InJoinOrder(places: seq<Place>, offers: seq<nat>) {
    && (forall k :: 0 <= k < |offers| ==> NobodyPassedOver(places, offers[k]))
    && (forall k, l :: 0 <= k < l < |offers| && SameSlot(places[offers[k]].slot, places[offers[l]].slot) ==>
          offers[k] < offers[l])
  }

  ghost predicate ListOk(places: seq<Place>, offers: seq<nat>, now: int) {
    OneOfferPerSlot(places) && OffersApart(places, now) && InJoinOrder(places, offers)
  }

  /** Places move on: none goes back to waiting, none becomes an offer. */
  ghost predicate MovedOn(before: seq<Place>, after: seq<Place>) {
    && |after| >= |before|
    && (forall i :: 0 <= i < |before| ==>
          && after[i].user == before[i].user && after[i].slot == before[i].slot
          && (after[i].status.Waiting? ==> before[i].status.Waiting?)
          && (after[i].status.Offered? ==> after[i].status == before[i].status))
    && (forall i :: |before| <= i < |after| ==> after[i].status.Waiting?)
  }

  lemma MovedOnKeeps(before: seq<Place>, after: seq<Place>, offers: seq<nat>, clock: int, now: int)
    requires ListOk(before, offers, clock) && MovedOn(before, after) && clock <= now
    ensures ListOk(after, offers, now)
  {
    forall k | 0 <= k < |offers| ensures NobodyPassedOver(after, offers[k]) {
      assert NobodyPassedOver(before, offers[k]);
    }
  }

  function WithStatus(places: seq<Place>, i: nat, status: Status): seq<Place>
    requires i < |places|
  {
    places[i := places[i].(status := status)]
  }

  /** The first place waiting for a slot is offered it. */
  lemma OfferKeeps(places: seq<Place>, bookings: seq<Booking>, offers: seq<nat>, i: nat, now: int, expires: int)
    requires ListOk(places, offers, now) && i < |places| && places[i].status.Waiting?
    requires forall j :: 0 <= j < i && SameSlot(places[j].slot, places[i].slot) ==> !places[j].status.Waiting?
    requires !NotNow(places, bookings, places[i], now)
    ensures ListOk(WithStatus(places, i, Offered(expires)), offers + [i], now)
  {
    var after := WithStatus(places, i, Offered(expires));
    forall k | 0 <= k < |offers|
      ensures NobodyPassedOver(after, offers[k])
      ensures SameSlot(places[offers[k]].slot, places[i].slot) ==> offers[k] < i
    {
      assert NobodyPassedOver(places, offers[k]);
    }
    forall j | 0 <= j < |places| && j != i && Live(places[j], now) && places[j].user != places[i].user
               && places[j].slot.observatory == places[i].slot.observatory && WithinADay(places[j].slot)
      ensures !Overlaps(places[i].slot, places[j].slot)
    {
      FetchMissesNothing(places[i].slot, places[j].slot);
    }
  }

  // ------------------------------------------------------------------
  // The waitlist
  // ------------------------------------------------------------------

  function Begun(p: Place, now: int): Place {
    if Active(p) && p.slot.start <= now then p.(status := Ended) else p
  }

  function Settled(p: Place, bookings: seq<Booking>, now: int): Place {
    if !Active(p) then p
    else if HeldByUser(bookings, p.slot, p.user, now) then p.(status := Claimed)
    else if p.status.Offered? && p.status.expires <= now then p.(status := Lapsed)
    else p
  }

  /** A place that was active has ended exactly when its slot has begun; is claimed exactly when
      it has not, and its user holds a booking there; has lapsed exactly when neither is so and
      its offer has run out; and is as it was otherwise, as is one that was not active. */
  predicate SettledAs(before: Place, after: Place, bookings: seq<Booking>, now: int) {
    var (begun, held) := (before.slot.start <= now, HeldByUser(bookings, before.slot, before.user, now));
    && after.user == before.user && after.slot == before.slot
    && (Active(before) ==>
          && (after.status.Ended? <==> begun)
          && (after.status.Claimed? <==> !begun && held)
          && (after.status.Lapsed? <==> !begun && !held && before.status.Offered? && before.status.expires <= now))
    && (!Active(before) || Active(after) ==> after.status == before.status)
  }

  lemma SettlesAs(p: Place, bookings: seq<Booking>, now: int)
    ensures SettledAs(p, Settled(Begun(p, now), bookings, now), bookings, now)
  {
  }

  datatype Event =
    | SweepAt(now: int)
    | JoinFor(user: nat, slot: Slot)
    | LeaveAt(place: nat)
    | BookingOf(made: Booking)
    | ReleaseOf(booking: nat)

  class Waitlist {
    var places: seq<Place>
    var bookings: seq<Booking>
    /** The places offered a slot, in the order the offers went out. */
    ghost var offers: seq<nat>
    ghost var clock: int

    ghost predicate Valid()
      reads this
    {
      ListOk(places, offers, clock)
    }

    constructor (now: int)
      ensures Valid() && places == [] && bookings == [] && offers == [] && clock == now
    {
      places, bookings, offers, clock := [], [], [], now;
    }

    /** Places whose slot has started end; then holders claim and stale offers lapse. */
    method Settle(now: int)
      requires Valid() && now >= clock
      modifies this`places, this`clock
      ensures Valid() && clock == now && |places| == |old(places)|
      ensures forall i :: 0 <= i < |places| ==> SettledAs(old(places)[i], places[i], bookings, now)
      ensures forall i :: 0 <= i < |places| ==> places[i] == Settled(Begun(old(places)[i], now), bookings, now)
    {
      var list := places;
      for i := 0 to |list|
        invariant |list| == |places|
        invariant forall j :: 0 <= j < i ==> list[j] == Begun(places[j], now)
        invariant forall j :: i <= j < |list| ==> list[j] == places[j]
      {
        list := list[i := Begun(list[i], now)];
      }
      for i := 0 to |list|
        invariant |list| == |places|
        invariant forall j :: 0 <= j < i ==> list[j] == Settled(Begun(places[j], now), bookings, now)
        invariant forall j :: i <= j < |list| ==> list[j] == Begun(places[j], now)
      {
        list := list[i := Settled(list[i], bookings, now)];
      }
      MovedOnKeeps(places, list, offers, clock, now);
      forall i | 0 <= i < |places| ensures SettledAs(places[i], list[i], bookings, now) {
        SettlesAs(places[i], bookings, now);
      }
      places, clock := list, now;
    }

    /** Every slot with people waiting goes to the first in line, unless it is offered or
        held already or somebody else's offer overlaps it: afterwards that is why anybody
        still waits. */
    method OfferFreed(now: int) returns (offered: nat)
      requires Valid() && clock == now
      modifies this`places, this`offers
      ensures Valid() && |places| == |old(places)|
      ensures old(offers) <= offers && |offers| == |old(offers)| + offered
      ensures forall i :: 0 <= i < |places| ==> Unchanged(old(places)[i], places[i]) || OfferedAt(old(places)[i], places[i], now)
      ensures forall i :: 0 <= i < |places| && places[i].status.Waiting? && places[i].slot.start > now ==>
                Answered(places, bookings, Key(places[i]), |places|, now)
    {
      var list := places;
      ghost var log: seq<nat> := offers;
      var seen: set<(nat, int)> := {};
      offered := 0;
      for i := 0 to |places|
        invariant offers <= log && |log| == |offers| + offered && ListOk(list, log, now)
        invariant Looked(places, list, bookings, seen, i, now)
        modifies {}
      {
        var p := list[i];
        if p.status.Waiting? && p.slot.start > now && Key(p) !in seen {
          if NotNow(list, bookings, p, now) {
            PassedBy(places, list, bookings, seen, i, now);
          } else {
            OfferKeeps(list, bookings, log, i, now, OfferExpiry(now));
            OfferMade(places, list, bookings, seen, i, now);
            list := WithStatus(list, i, Offered(OfferExpiry(now)));
            log := log + [i];
            offered := offered + 1;
          }
          seen := seen + {Key(p)};
        }
      }
      places, offers := list, log;
    }

    /** A whole sweep: settle, then offer. */
    method Sweep(now: int) returns (offered: nat)
      requires Valid() && now >= clock
      modifies this`places, this`offers, this`clock
      ensures Valid() && clock == now && |places| == |old(places)|
      ensures old(offers) <= offers && |offers| == |old(offers)| + offered
      ensures forall i :: 0 <= i < |places| ==>
                var settled := Settled(Begun(old(places)[i], now), bookings, now);
                Unchanged(settled, places[i]) || OfferedAt(settled, places[i], now)
      ensures forall i :: 0 <= i < |places| && places[i].status.Waiting? ==>
                places[i].slot.start > now && Answered(places, bookings, Key(places[i]), |places|, now)
    {
      Settle(now);
      offered := OfferFreed(now);
    }

    method Join(user: nat, slot: Slot)
      requires Valid()
      modifies this`places
      ensures Valid() && places == old(places) + [Place(user, slot, Waiting)]
    {
      MovedOnKeeps(places, places + [Place(user, slot, Waiting)], offers, clock, clock);
      places := places + [Place(user, slot, Waiting)];
    }

    /** Leaving ends an active place. */
    method Leave(i: nat)
      requires Valid()
      modifies this`places
      ensures Valid() && |places| == |old(places)|
      ensures places == if i < |old(places)| && Active(old(places)[i]) then WithStatus(old(places), i, Ended) else old(places)
    {
      if i < |places| && Active(places[i]) {
        MovedOnKeeps(places, WithStatus(places, i, Ended), offers, clock, clock);
        places := WithStatus(places, i, Ended);
      }
    }

    /** Sweeps, joins, leaves and bookings in any order, at times that do not go back. */
    method Run(started: int, events: seq<Event>)
      requires Valid() && clock == started
      modifies this
      ensures Valid() && OneOfferPerSlot(places) && OffersApart(places, clock) && InJoinOrder(places, offers)
      ensures old(offers) <= offers
    {
      var latest := started;
      for i := 0 to |events|
        invariant Valid() && clock == latest && old(offers) <= offers
      {
        match events[i] {
          case SweepAt(now) =>
            if now >= latest {
              latest := now;
              var _ := Sweep(now);
            }
          case JoinFor(user, slot) => Join(user, slot);
          case LeaveAt(place) => Leave(place);
          case BookingOf(booking) => bookings := bookings + [booking];
          case ReleaseOf(k) =>
            if k < |bookings| {
              bookings := bookings[k := bookings[k].(hold := Released)];
            }
        }
      }
    }
  }

  function OfferExpiry(now: int): int { now + WAITLIST_OFFER_MINUTES * MINUTE_MS }

  predicate Unchanged(before: Place, after: Place) { after == before }

  /** Offered, for a quarter of an hour. */
  predicate OfferedAt(before: Place, after: Place, now: int) {
    before.status.Waiting? && after == before.(status := Offered(now + 900_000))
  }

  function Key(p: Place): (nat, int) { (p.slot.observatory, p.slot.start) }

  /** A slot that has been looked at: some place in its line tells why it is not offered now. */
  ghost predicate Answered(places: seq<Place>, bookings: seq<Booking>, key: (nat, int), upTo: nat, now: int) {
    exists j :: 0 <= j < upTo && j < |places| && Key(places[j]) == key && NotNow(places, bookings, places[j], now)
  }

  /** Where the pass over the waiting places has got to. */
  ghost predicate Looked(places: seq<Place>, list: seq<Place>, bookings: seq<Booking>, seen: set<(nat, int)>, i: int, now: int) {
    && 0 <= i <= |list| == |places|
    && (forall j :: 0 <= j < |list| ==> Unchanged(places[j], list[j]) || OfferedAt(places[j], list[j], now))
    && (forall j :: i <= j < |list| ==> list[j] == places[j])
    && (forall j :: 0 <= j < i && list[j].status.Waiting? && list[j].slot.start > now ==> Key(list[j]) in seen)
    && (forall key :: key in seen ==> Answered(list, bookings, key, |list|, now))
  }

  lemma PassedBy(places: seq<Place>, list: seq<Place>, bookings: seq<Booking>, seen: set<(nat, int)>, i: nat, now: int)
    requires Looked(places, list, bookings, seen, i, now) && i < |list| && NotNow(list, bookings, list[i], now)
    ensures Looked(places, list, bookings, seen + {Key(list[i])}, i + 1, now)
  {
  }

  lemma OfferMade(places: seq<Place>, list: seq<Place>, bookings: seq<Booking>, seen: set<(nat, int)>, i: nat, now: int)
    requires Looked(places, list, bookings, seen, i, now) && i < |list| && list[i].status.Waiting?
    ensures Looked(places, WithStatus(list, i, Offered(OfferExpiry(now))), bookings, seen + {Key(list[i])}, i + 1, now)
  {
    var after := WithStatus(list, i, Offered(OfferExpiry(now)));
    assert after[i].status.Offered? && SameSlot(after[i].slot, list[i].slot);
    assert NotNow(after, bookings, after[i], now) && Key(after[i]) == Key(list[i]);
    forall key | key in seen ensures Answered(after, bookings, key, |after|, now) {
      StaysAnswered(list, bookings, key, i, now);
    }
  }

  /** An offer takes no reason away. */
  lemma StaysAnswered(places: seq<Place>, bookings: seq<Booking>, key: (nat, int), i: nat, now: int)
    requires i < |places| && places[i].status.Waiting? && Answered(places, bookings, key, |places|, now)
    ensures var after := WithStatus(places, i, Offered(OfferExpiry(now))); Answered(after, bookings, key, |after|, now)
  {
    var after := WithStatus(places, i, Offered(OfferExpiry(now)));
    var j :| 0 <= j < |places| && Key(places[j]) == key && NotNow(places, bookings, places[j], now);
    var p := places[j];
    if OfferOn(places, p.slot) {
      var k :| 0 <= k < |places| && places[k].status.Offered? && SameSlot(places[k].slot, p.slot);
      assert after[k] == places[k];
    } else if OfferAround(places, p.slot, p.user, now) {
      var k :| 0 <= k < |places| && Live(places[k], now) && places[k].user != p.user && Found(p.slot, places[k].slot);
      assert after[k] == places[k];
    }
    assert NotNow(after, bookings, after[j], now) && Key(after[j]) == key;
  }
}
