/**
 Refunds of entitled bookings (`packages/db/refunds.ts`,
 `packages/db/card-prizes.ts`), beside the free reschedules that make chains of bookings.

 A refund first reads (the entitlement, then the chain back to the booking that was paid
 for) and only then claims the entitlement, conditionally, and writes; anything may commit
 in between. So a refund is a look, a walk of one booking a step, and a claim, and any number
 of them may be under way. The claim and the writes after it are one step: they hold the
 entitlement's row until they commit. Bookings, captures, entitlements and reschedules are
 the other steps, with what the schema makes unique as their guards. Times are milliseconds.
 */
module Refunds {
  import opened Common
  import opened Ledger
  import J = Journal

  const MAX_RESCHEDULE_CHAIN := 12
  const RESTORED_VOUCHER_MIN_DAYS := 30
  const FLOOR_MS := RESTORED_VOUCHER_MIN_DAYS * 86_400_000

  // ------------------------------------------------------------------
  // The rows
  // ------------------------------------------------------------------

  /** `from` is the booking whose entitlement a free reschedule was made from; `voucher` and
      `prize` are what is redeemed on it now. */
  datatype Booking = Booking(user: nat, from: Option<nat>, payment: Option<nat>, voucher: Option<nat>,
                             prize: Option<nat>, minutes: int, redeemed: int, refunded: bool)

  datatype Outcome = Open | Refunded | Rescheduled(to: nat)
  datatype PayStatus = Pending | Captured | Failed | PaidBack
  datatype Payment = Payment(user: nat, sandbox: bool, status: PayStatus)
  datatype Voucher = Voucher(active: bool, expires: Option<int>)
  datatype Prize = Prize(freeSlot: bool, redeemed: bool, expires: int)

  datatype Refusal = NoOpenEntitlement | NothingToRefund | ProviderRefundUnavailable

  /** What the walk back along a chain finds, and on which booking. */
  datatype Funding =
    | Nothing
    | PaidBy(root: nat, payment: nat)
    | VoucherOn(root: nat, voucher: nat)
    | FreeSlotOn(root: nat)
    | MinutesOn(root: nat)

  /** How far a refund has read: refused, on its way back along the chain, or ready to claim. */
  datatype Plan =
    | Refuse(why: Refusal)
    | Walking(booking: nat, current: nat, steps: nat)
    | Claim(booking: nat, funding: Funding, expires: Option<int>)

  /** The rows; what has been given back and which entitlements were resolved, in order; the
      payments that have been captured; and, for every booking, its chain's root, its place in
      the chain and the chain's tip. */
  datatype World = World(
    bookings: map<nat, Booking>,
    entitlements: map<nat, Outcome>,
    payments: map<nat, Payment>,
    vouchers: map<nat, Voucher>,
    prizes: map<nat, Prize>,
    books: Books,
    given: seq<nat>,
    resolved: seq<nat>,
    captured: set<nat>,
    chains: Chains)

  datatype Chains = Chains(root: map<nat, nat>, depth: map<nat, nat>, tip: map<nat, nat>)

  // ------------------------------------------------------------------
  // Reading
  // ------------------------------------------------------------------

  /** What one booking was paid with, in the order the walk asks. */
  function FundingAt(w: World, b: nat): Funding {
    if b !in w.bookings then Nothing
    else
      var booking := w.bookings[b];
      if booking.payment.Some? then PaidBy(b, booking.payment.value)
      else if booking.voucher.Some? then VoucherOn(b, booking.voucher.value)
      else if booking.prize.Some? && booking.prize.value in w.prizes && w.prizes[booking.prize.value].freeSlot
      then FreeSlotOn(b)
      else if booking.minutes > 0 then MinutesOn(b)
      else Nothing
  }

  function Parent(w: World, b: nat): Option<nat> {
    if b in w.bookings then w.bookings[b].from else None
  }

  function Walk(w: World, b: nat, steps: nat): Funding
    decreases steps
  {
    if steps == 0 then Nothing
    else if FundingAt(w, b) != Nothing then FundingAt(w, b)
    else if Parent(w, b).None? then Nothing
    else Walk(w, Parent(w, b).value, steps - 1)
  }

  predicate HasOpen(w: World, b: nat) { b in w.entitlements && w.entitlements[b] == Open }

  function PlanFor(w: World, b: nat, found: Funding): Plan {
    match found
    case Nothing => Refuse(NothingToRefund)
    case PaidBy(_, id) =>
      if id !in w.payments || w.payments[id].status != Captured then Refuse(NothingToRefund)
      else if !w.payments[id].sandbox then Refuse(ProviderRefundUnavailable)
      else Claim(b, found, None)
    case VoucherOn(_, id) => Claim(b, found, if id in w.vouchers then w.vouchers[id].expires else None)
    case FreeSlotOn(_) => Claim(b, found, None)
    case MinutesOn(_) => Claim(b, found, None)
  }

  function PlanOf(w: World, b: nat): Plan {
    if !HasOpen(w, b) then Refuse(NoOpenEntitlement) else PlanFor(w, b, Walk(w, b, MAX_RESCHEDULE_CHAIN))
  }

  /** The first read, of the entitlement. */
  function Looked(w: World, b: nat): Plan {
    if HasOpen(w, b) then Walking(b, b, 0) else Refuse(NoOpenEntitlement)
  }

  /** One more read, of one booking and what paid for it. */
  function WalkedOn(w: World, plan: Plan): Plan {
    if !plan.Walking? then plan
    else if plan.steps >= MAX_RESCHEDULE_CHAIN then Refuse(NothingToRefund)
    else if FundingAt(w, plan.current) != Nothing then PlanFor(w, plan.booking, FundingAt(w, plan.current))
    else if Parent(w, plan.current).None? then Refuse(NothingToRefund)
    else Walking(plan.booking, Parent(w, plan.current).value, plan.steps + 1)
  }

  function WalkedFor(w: World, plan: Plan, n: nat): Plan
    decreases n
  {
    if n == 0 then plan else WalkedFor(w, WalkedOn(w, plan), n - 1)
  }

  /** Read by read, with nothing happening in between, comes to the walk at once. */
  lemma {:induction false} WalkUninterrupted(w: World, plan: Plan, n: nat)
    requires plan.Walking? && plan.steps <= MAX_RESCHEDULE_CHAIN && n == MAX_RESCHEDULE_CHAIN + 1 - plan.steps
    ensures WalkedFor(w, plan, n) == PlanFor(w, plan.booking, Walk(w, plan.current, MAX_RESCHEDULE_CHAIN - plan.steps))
    decreases n
  {
    var next := WalkedOn(w, plan);
    if next.Walking? {
      WalkUninterrupted(w, next, n - 1);
    } else {
      StandsStill(w, next, n - 1);
    }
  }

  lemma {:induction false} StandsStill(w: World, plan: Plan, n: nat)
    requires !plan.Walking?
    ensures WalkedFor(w, plan, n) == plan
    decreases n
  {
    if n > 0 {
      StandsStill(w, plan, n - 1);
    }
  }

  // ------------------------------------------------------------------
  // Writing
  // ------------------------------------------------------------------

  /** At least thirty days from now, and never sooner than it was. */
  function Floored(expires: Option<int>, now: int): (r: int)
    ensures r >= now + FLOOR_MS
    ensures expires.Some? ==> r >= expires.value
    ensures r == now + FLOOR_MS || expires == Some(r)
  {
    if expires.Some? && expires.value > now + FLOOR_MS then expires.value else now + FLOOR_MS
  }

  /** A prize still spent on the booking comes back; for a refund, with at least thirty days. */
  function PrizeReleased(w: World, b: nat, refunded: bool, now: int): World {
    if b !in w.bookings || w.bookings[b].prize.None? then w
    else
      var id := w.bookings[b].prize.value;
      if id !in w.prizes || !w.prizes[id].redeemed then w
      else
        var p := w.prizes[id];
        w.(prizes := w.prizes[id := p.(redeemed := false, expires := if refunded then Floored(Some(p.expires), now) else p.expires)],
           bookings := w.bookings[b := w.bookings[b].(prize := None)])
  }

  /** The claim: the entitlement leaves OPEN, and the booking is refunded. */
  function ClaimedFor(w: World, b: nat, root: nat): World
    requires b in w.bookings
  {
    w.(entitlements := w.entitlements[b := Refunded], bookings := w.bookings[b := w.bookings[b].(refunded := true)],
       given := w.given + [root], resolved := w.resolved + [b])
  }

  function PaidOn(w: World, root: nat): Option<J.Paid> {
    if root in w.bookings then Some(J.Paid(root, w.bookings[root].user, w.bookings[root].redeemed)) else None
  }

  /** A voucher is no longer redeemed, and lasts thirty days at least. */
  function VoucherBackTo(w: World, root: nat, id: nat, expires: Option<int>, now: int): World
    requires root in w.bookings
  {
    w.(vouchers := w.vouchers[id := Voucher(true, Some(Floored(expires, now)))],
       bookings := w.bookings[root := w.bookings[root].(voucher := None)])
  }

  function GivenBack(k: Scheme, w: World, plan: Plan, now: int, running: bool): World
    requires plan.Claim?
  {
    match plan.funding
    case Nothing => w
    case PaidBy(root, id) =>
      if id !in w.payments then w else PrizeReleased(PaidBackTo(k, w, root, id), root, true, now)
    case VoucherOn(root, id) =>
      if root !in w.bookings then w else VoucherBackTo(w, root, id, plan.expires, now)
    case FreeSlotOn(root) => PrizeReleased(w, root, true, now)
    case MinutesOn(root) =>
      if root !in w.bookings then w else MinutesBackTo(k, w, root, running)
  }

  /** A claim that finds the entitlement no longer open writes nothing. */
  function RefundedBy(k: Scheme, w: World, plan: Plan, now: int, running: bool): (Option<Refusal>, World)
    requires !plan.Walking?
  {
    if plan.Refuse? then (Some(plan.why), w)
    else if !HasOpen(w, plan.booking) || plan.booking !in w.bookings || plan.funding.Nothing? then (Some(NoOpenEntitlement), w)
    else (None, GivenBack(k, ClaimedFor(w, plan.booking, plan.funding.root), plan, now, running))
  }

  // ------------------------------------------------------------------
  // Chains
  // ------------------------------------------------------------------

  /** A free reschedule carries nothing that paid for it. */
  predicate Unfunded(b: Booking) {
    b.payment.None? && b.voucher.None? && b.prize.None? && b.minutes <= 0
  }

  function RootOf(w: World, b: nat): nat { if b in w.chains.root then w.chains.root[b] else b }
  function DepthOf(w: World, b: nat): nat { if b in w.chains.depth then w.chains.depth[b] else 0 }
  function TipOf(w: World, root: nat): nat { if root in w.chains.tip then w.chains.tip[root] else root }
  function OutcomeOf(w: World, b: nat): Option<Outcome> {
    if b in w.entitlements then Some(w.entitlements[b]) else None
  }

  ghost predicate LinkOk(w: World, b: nat)
    requires b in w.bookings
  {
    var from := w.bookings[b].from;
    && RootOf(w, b) in w.bookings
    && (TipOf(w, RootOf(w, b)) != b ==> OutcomeOf(w, b).Some? && OutcomeOf(w, b).value.Rescheduled?)
    && (if from.None? then RootOf(w, b) == b && DepthOf(w, b) == 0
        else && from.value in w.bookings && RootOf(w, b) == RootOf(w, from.value)
             && DepthOf(w, b) == DepthOf(w, from.value) + 1
             && Unfunded(w.bookings[b]))
  }

  /** Chains are lines: only a chain's tip can be open or refunded. */
  ghost predicate ChainsOk(w: World) {
    && (forall b {:trigger LinkOk(w, b)} :: b in w.bookings ==> LinkOk(w, b))
    && (forall b :: b in w.entitlements ==> b in w.bookings)
    && (forall b :: b in w.chains.root || b in w.chains.depth || b in w.chains.tip ==> b in w.bookings)
  }

  ghost predicate Distinct(s: seq<nat>) {
    forall i, j :: 0 <= i < j < |s| ==> s[i] != s[j]
  }

  /** A chain that has been given back ends in its refund. */
  ghost predicate GivenOk(w: World, root: nat) {
    root in w.bookings && OutcomeOf(w, TipOf(w, root)) == Some(Refunded)
  }

  ghost predicate ResolvedOk(w: World, b: nat) {
    b in w.entitlements && w.entitlements[b] != Open
  }

  ghost predicate LogOk(w: World) {
    && Distinct(w.given) && Distinct(w.resolved)
    && (forall i :: 0 <= i < |w.given| ==> GivenOk(w, w.given[i]))
    && (forall i :: 0 <= i < |w.resolved| ==> ResolvedOk(w, w.resolved[i]))
  }

  /** The walk finds what the root was paid with, exactly when the root is one of the last
      `steps` bookings of the chain. */
  lemma {:induction false} WalkFindsRoot(w: World, b: nat, steps: nat)
    requires ChainsOk(w) && b in w.bookings
    ensures Walk(w, b, steps) == if DepthOf(w, b) < steps then FundingAt(w, RootOf(w, b)) else Nothing
    decreases steps
  {
    assert LinkOk(w, b);
    if steps > 0 && w.bookings[b].from.Some? {
      WalkFindsRoot(w, w.bookings[b].from.value, steps - 1);
    }
  }

  /** A chain of more than twelve bookings has nothing to refund, whatever paid for it. */
  lemma RefundOfChain(w: World, b: nat)
    requires ChainsOk(w) && HasOpen(w, b)
    ensures DepthOf(w, b) >= MAX_RESCHEDULE_CHAIN ==> PlanOf(w, b) == Refuse(NothingToRefund)
    ensures DepthOf(w, b) < MAX_RESCHEDULE_CHAIN ==> PlanOf(w, b) == PlanFor(w, b, FundingAt(w, RootOf(w, b)))
  {
    WalkFindsRoot(w, b, MAX_RESCHEDULE_CHAIN);
  }

  // ---- What leaves the chains alone ----

  ghost predicate SameLinks(w: World, u: World) {
    && (forall b :: b in w.bookings <==> b in u.bookings)
    && (forall b :: b in w.bookings ==>
          u.bookings[b].from == w.bookings[b].from && u.bookings[b].payment == w.bookings[b].payment
          && u.bookings[b].minutes == w.bookings[b].minutes && (Unfunded(w.bookings[b]) ==> Unfunded(u.bookings[b])))
    && u.entitlements == w.entitlements && u.chains == w.chains && u.given == w.given && u.resolved == w.resolved
  }

  lemma SameLinksKeep(w: World, u: World)
    requires ChainsOk(w) && LogOk(w) && SameLinks(w, u)
    ensures ChainsOk(u) && LogOk(u)
  {
    forall b {:trigger LinkOk(u, b)} | b in u.bookings ensures LinkOk(u, b) {
      assert LinkOk(w, b);
    }
  }

  lemma PrizeReleasedSameLinks(w: World, b: nat, refunded: bool, now: int)
    ensures SameLinks(w, PrizeReleased(w, b, refunded, now))
  {
  }

  lemma VoucherBackSameLinks(w: World, root: nat, id: nat, expires: Option<int>, now: int)
    requires root in w.bookings
    ensures SameLinks(w, VoucherBackTo(w, root, id, expires, now))
  {
  }

  lemma PaidBackSameLinks(k: Scheme, w: World, root: nat, id: nat, now: int)
    requires id in w.payments
    ensures SameLinks(w, PrizeReleased(PaidBackTo(k, w, root, id), root, true, now))
  {
    PrizeReleasedSameLinks(PaidBackTo(k, w, root, id), root, true, now);
  }

  lemma GivenBackSameLinks(k: Scheme, w: World, plan: Plan, now: int, running: bool)
    requires plan.Claim?
    ensures SameLinks(w, GivenBack(k, w, plan, now, running))
  {
    match plan.funding
    case Nothing =>
    case PaidBy(root, id) =>
      if id in w.payments {
        PaidBackSameLinks(k, w, root, id, now);
      }
    case VoucherOn(root, id) =>
      if root in w.bookings {
        VoucherBackSameLinks(w, root, id, plan.expires, now);
      }
    case FreeSlotOn(root) => PrizeReleasedSameLinks(w, root, true, now);
    case MinutesOn(root) =>
  }

  /** The tip of a chain, still open, is refunded: a chain not given back before. */
  lemma ClaimKeeps(w: World, b: nat)
    requires ChainsOk(w) && LogOk(w) && HasOpen(w, b)
    ensures b in w.bookings && RootOf(w, b) !in w.given
    ensures var u := ClaimedFor(w, b, RootOf(w, b)); ChainsOk(u) && LogOk(u)
  {
    assert LinkOk(w, b);
    var u := ClaimedFor(w, b, RootOf(w, b));
    forall x {:trigger LinkOk(u, x)} | x in u.bookings ensures LinkOk(u, x) {
      assert LinkOk(w, x);
    }
    forall i | 0 <= i < |w.given| ensures GivenOk(u, w.given[i]) && w.given[i] != RootOf(w, b) {
      assert GivenOk(w, w.given[i]);
    }
    forall i | 0 <= i < |w.resolved| ensures ResolvedOk(u, w.resolved[i]) && w.resolved[i] != b {
      assert ResolvedOk(w, w.resolved[i]);
    }
  }

  // ------------------------------------------------------------------
  // The other steps
  // ------------------------------------------------------------------

  predicate CanReserve(k: Scheme, w: World, id: nat, b: Booking, pay: Payment) {
    && id !in w.bookings && b.from.None? && !b.refunded
    && (b.payment.Some? ==> b.payment.value !in w.payments && pay.status == Pending)
    && (b.voucher.Some? ==> b.voucher.value in w.vouchers && w.vouchers[b.voucher.value].active)
    && (b.prize.Some? ==> b.prize.value in w.prizes && !w.prizes[b.prize.value].redeemed)
    && (b.redeemed > 0 ==> PostOnce(k, w.books, SpendOf(id, b)).0 == Posted)
  }

  function SpendOf(id: nat, b: Booking): Post {
    PointsPost(b.user, Redeemed, BookingRef(id), -b.redeemed, 0, true)
  }

  function MinutesSpendOf(id: nat, b: Booking): Post {
    MinutesPost(b.user, -b.minutes, BookingSpend(id), false)
  }

  /** A booking row is made with what it is paid with, and points are spent on it or not. */
  function Reserved(k: Scheme, w: World, id: nat, b: Booking, pay: Payment): World {
    if !CanReserve(k, w, id, b, pay) then w
    else
      w.(bookings := w.bookings[id := b],
         payments := if b.payment.Some? then w.payments[b.payment.value := pay] else w.payments,
         vouchers := if b.voucher.Some? then w.vouchers[b.voucher.value := w.vouchers[b.voucher.value].(active := false)]
                     else w.vouchers,
         prizes := if b.prize.Some? then w.prizes[b.prize.value := w.prizes[b.prize.value].(redeemed := true)] else w.prizes,
         books := if b.redeemed > 0 then PostOnce(k, w.books, SpendOf(id, b)).1 else w.books,
         chains := Chains(w.chains.root[id := id], w.chains.depth[id := 0], w.chains.tip[id := id]))
  }

  /** A booking, which falls through with its reservation or with its minutes. */
  function Booked(k: Scheme, w: World, id: nat, b: Booking, pay: Payment): World {
    var r := Reserved(k, w, id, b, pay);
    if !CanReserve(k, w, id, b, pay) then w
    else if b.minutes <= 0 then r
    else if PostOnce(k, r.books, MinutesSpendOf(id, b)).0 != Posted then w
    else r.(books := PostOnce(k, r.books, MinutesSpendOf(id, b)).1)
  }

  function EarnOf(payment: nat, user: nat, points: nat): Post {
    PointsPost(user, PurchaseEarned, PaymentRef(payment), points, points, false)
  }

  /** A payment settles and earns points. */
  function CapturedBy(k: Scheme, w: World, payment: nat, points: nat): World {
    if payment !in w.payments || w.payments[payment].status != Pending then w
    else
      w.(payments := w.payments[payment := w.payments[payment].(status := Captured)],
         captured := w.captured + {payment},
         books := if points == 0 then w.books else PostOnce(k, w.books, EarnOf(payment, w.payments[payment].user, points)).1)
  }

  function Entitled(w: World, b: nat): World {
    if b !in w.bookings || b in w.entitlements then w else w.(entitlements := w.entitlements[b := Open])
  }

  /** A free reschedule: a new booking, made from the entitlement it resolves. */
  function RescheduledTo(w: World, b: nat, to: nat): World {
    if !HasOpen(w, b) || b !in w.bookings || to in w.bookings then w
    else
      w.(bookings := w.bookings[to := Booking(w.bookings[b].user, Some(b), None, None, None, 0, 0, false)],
         entitlements := w.entitlements[b := Rescheduled(to)],
         resolved := w.resolved + [b],
         chains := Chains(w.chains.root[to := RootOf(w, b)], w.chains.depth[to := DepthOf(w, b) + 1],
                          w.chains.tip[RootOf(w, b) := to]))
  }

  lemma RescheduleKeeps(w: World, b: nat, to: nat)
    requires ChainsOk(w) && LogOk(w)
    ensures ChainsOk(RescheduledTo(w, b, to)) && LogOk(RescheduledTo(w, b, to))
  {
    var u := RescheduledTo(w, b, to);
    if HasOpen(w, b) && to !in w.bookings {
      assert LinkOk(w, b);
      forall x {:trigger LinkOk(u, x)} | x in u.bookings ensures LinkOk(u, x) {
        if x != to {
          assert LinkOk(w, x);
        }
      }
      RescheduleKeepsLog(w, b, to);
    }
  }

  lemma RescheduleKeepsLog(w: World, b: nat, to: nat)
    requires ChainsOk(w) && LogOk(w) && HasOpen(w, b) && to !in w.bookings
    ensures LogOk(RescheduledTo(w, b, to))
  {
    var u := RescheduledTo(w, b, to);
    assert LinkOk(w, b);
    forall i | 0 <= i < |w.given| ensures GivenOk(u, w.given[i]) {
      assert GivenOk(w, w.given[i]);
    }
    forall i | 0 <= i < |w.resolved| ensures ResolvedOk(u, w.resolved[i]) && w.resolved[i] != b {
      assert ResolvedOk(w, w.resolved[i]);
    }
  }

  lemma ReservedKeeps(k: Scheme, w: World, id: nat, b: Booking, pay: Payment)
    requires ChainsOk(w) && LogOk(w)
    ensures ChainsOk(Reserved(k, w, id, b, pay)) && LogOk(Reserved(k, w, id, b, pay))
  {
    var u := Reserved(k, w, id, b, pay);
    if CanReserve(k, w, id, b, pay) {
      forall x {:trigger LinkOk(u, x)} | x in u.bookings ensures LinkOk(u, x) {
        if x != id {
          assert LinkOk(w, x);
        }
      }
      forall i | 0 <= i < |w.given| ensures GivenOk(u, w.given[i]) {
        assert GivenOk(w, w.given[i]);
      }
    }
  }

  lemma EntitledKeeps(w: World, b: nat)
    requires ChainsOk(w) && LogOk(w)
    ensures ChainsOk(Entitled(w, b)) && LogOk(Entitled(w, b))
  {
    var u := Entitled(w, b);
    forall x {:trigger LinkOk(u, x)} | x in u.bookings ensures LinkOk(u, x) {
      assert LinkOk(w, x);
    }
    forall i | 0 <= i < |w.given| ensures GivenOk(u, w.given[i]) {
      assert GivenOk(w, w.given[i]);
    }
  }

  // ------------------------------------------------------------------
  // Points that a payment and its booking moved
  // ------------------------------------------------------------------

  function EarnedKey(w: World, id: nat): Key
    requires id in w.payments
  {
    Loyal(w.payments[id].user, PurchaseEarned, PaymentRef(id))
  }

  function ReversedKey(w: World, id: nat): Key
    requires id in w.payments
  {
    Loyal(w.payments[id].user, PurchaseReversed, PaymentRef(id))
  }

  /** A paid booking: while its payment stands nothing of it is reversed, and once it is
      paid back both pairs of entries come to nothing and the chain counts as given back. */
  ghost predicate PayOk(w: World, b: nat)
    requires b in w.bookings && w.bookings[b].payment.Some?
  {
    var id := w.bookings[b].payment.value;
    && id in w.payments
    && J.SpendPaired(w.books.entries, PaidOn(w, b).value)
    && (w.payments[id].status == Pending ==> !HasKey(w.books.entries, EarnedKey(w, id)))
    && (if w.payments[id].status == PaidBack then
          && b in w.given
          && J.EarnCancels(w.books.entries, w.payments[id].user, id)
          && J.SpendCancels(w.books.entries, PaidOn(w, b).value)
        else !HasKey(w.books.entries, ReversedKey(w, id)))
  }

  predicate KnownKey(w: World, key: Key) {
    && (key.Loyal? && key.source.PaymentRef? ==> key.source.id in w.payments)
    && (key.Loyal? && key.source.BookingRef? ==> key.source.id in w.bookings)
    && (key.BookingSpend? || key.BookingRelease? ==> key.booking in w.bookings)
  }

  ghost predicate MoneyOk(w: World) {
    && (forall b {:trigger PayOk(w, b)} :: b in w.bookings && w.bookings[b].payment.Some? ==> PayOk(w, b))
    && (forall b, c :: b in w.bookings && c in w.bookings && b != c && w.bookings[b].payment.Some? ==>
          w.bookings[b].payment != w.bookings[c].payment)
    && (forall i :: 0 <= i < |w.books.entries| ==> KnownKey(w, w.books.entries[i].key))
  }

  predicate SameUnder(e: seq<Entry>, f: seq<Entry>, key: Key) {
    J.Worth(f, key) == J.Worth(e, key) && HasKey(f, key) == HasKey(e, key)
  }

  /** Nothing under the keys of a booking and its payment. */
  predicate SamePoints(w: World, e: seq<Entry>, f: seq<Entry>, b: nat)
    requires b in w.bookings && w.bookings[b].payment.Some? && w.bookings[b].payment.value in w.payments
  {
    var id, user := w.bookings[b].payment.value, w.bookings[b].user;
    && SameUnder(e, f, EarnedKey(w, id)) && SameUnder(e, f, ReversedKey(w, id))
    && SameUnder(e, f, Loyal(user, Redeemed, BookingRef(b)))
    && SameUnder(e, f, Loyal(user, RedemptionReleased, BookingRef(b)))
  }

  /** A booking whose rows and points a step leaves alone is as it was. */
  lemma PayKept(w: World, u: World, b: nat)
    requires b in w.bookings && w.bookings[b].payment.Some? && PayOk(w, b)
    requires b in u.bookings && u.bookings[b].payment == w.bookings[b].payment
    requires u.bookings[b].user == w.bookings[b].user && u.bookings[b].redeemed == w.bookings[b].redeemed
    requires var id := w.bookings[b].payment.value; id in u.payments && u.payments[id] == w.payments[id]
    requires SamePoints(w, w.books.entries, u.books.entries, b)
    requires b in w.given ==> b in u.given
    ensures PayOk(u, b)
  {
  }

  lemma PostElsewhere(k: Scheme, w: World, p: Post, b: nat)
    requires b in w.bookings && w.bookings[b].payment.Some? && w.bookings[b].payment.value in w.payments
    requires p.Name().Loyal? ==> p.Name().source != PaymentRef(w.bookings[b].payment.value) && p.Name().source != BookingRef(b)
    ensures SamePoints(w, w.books.entries, PostOnce(k, w.books, p).1.entries, b)
  {
    var id, user := w.bookings[b].payment.value, w.bookings[b].user;
    J.PostedUnder(k, w.books, p, EarnedKey(w, id));
    J.PostedUnder(k, w.books, p, ReversedKey(w, id));
    J.PostedUnder(k, w.books, p, Loyal(user, Redeemed, BookingRef(b)));
    J.PostedUnder(k, w.books, p, Loyal(user, RedemptionReleased, BookingRef(b)));
  }

  lemma RefundElsewhere(k: Scheme, w: World, payer: nat, id: nat, paid: Option<J.Paid>, b: nat)
    requires b in w.bookings && w.bookings[b].payment.Some? && w.bookings[b].payment.value in w.payments
    requires id != w.bookings[b].payment.value && (paid.Some? ==> paid.value.booking != b)
    ensures SamePoints(w, w.books.entries, J.RefundReversed(k, w.books, payer, id, paid).entries, b)
  {
    var own, user := w.bookings[b].payment.value, w.bookings[b].user;
    J.RefundReversedElsewhere(k, w.books, payer, id, paid, EarnedKey(w, own));
    J.RefundReversedElsewhere(k, w.books, payer, id, paid, ReversedKey(w, own));
    J.RefundReversedElsewhere(k, w.books, payer, id, paid, Loyal(user, Redeemed, BookingRef(b)));
    J.RefundReversedElsewhere(k, w.books, payer, id, paid, Loyal(user, RedemptionReleased, BookingRef(b)));
  }

  function PaidBackTo(k: Scheme, w: World, root: nat, id: nat): World
    requires id in w.payments
  {
    w.(payments := w.payments[id := w.payments[id].(status := PaidBack)],
       books := J.RefundReversed(k, w.books, w.payments[id].user, id, PaidOn(w, root)))
  }

  lemma RootPaidBack(k: Scheme, w: World, root: nat, id: nat)
    requires root in w.bookings && w.bookings[root].payment == Some(id) && PayOk(w, root) && root in w.given
    requires w.payments[id].status != PaidBack
    ensures PayOk(PaidBackTo(k, w, root, id), root)
  {
    var payer, paid := w.payments[id].user, PaidOn(w, root);
    J.RefundCancels(k, w.books, payer, id, paid);
    J.RefundReversedElsewhere(k, w.books, payer, id, paid, Loyal(paid.value.user, Redeemed, BookingRef(root)));
  }

  lemma OtherNotPaidBack(k: Scheme, w: World, root: nat, id: nat, b: nat)
    requires id in w.payments && b in w.bookings && w.bookings[b].payment.Some? && PayOk(w, b)
    requires b != root && w.bookings[b].payment != Some(id)
    ensures PayOk(PaidBackTo(k, w, root, id), b)
  {
    RefundElsewhere(k, w, w.payments[id].user, id, PaidOn(w, root), b);
    PayKept(w, PaidBackTo(k, w, root, id), b);
  }

  /** Money back: the paid booking's pairs come to nothing, and every other booking is as
      it was. */
  lemma MoneyBack(k: Scheme, w: World, root: nat, id: nat)
    requires MoneyOk(w) && root in w.bookings && w.bookings[root].payment == Some(id) && id in w.payments && root in w.given
    requires w.payments[id].status != PaidBack
    ensures MoneyOk(PaidBackTo(k, w, root, id))
  {
    var u := PaidBackTo(k, w, root, id);
    forall b {:trigger PayOk(u, b)} | b in u.bookings && u.bookings[b].payment.Some?
      ensures PayOk(u, b)
    {
      assert PayOk(w, b);
      if b == root {
        RootPaidBack(k, w, root, id);
      } else {
        OtherNotPaidBack(k, w, root, id, b);
      }
    }
    ReversedKnown(k, w, u, w.payments[id].user, id, PaidOn(w, root));
  }

  lemma ReversedKnown(k: Scheme, w: World, u: World, payer: nat, id: nat, paid: Option<J.Paid>)
    requires forall i :: 0 <= i < |w.books.entries| ==> KnownKey(w, w.books.entries[i].key)
    requires u.bookings == w.bookings && id in w.payments && (forall x :: x in w.payments ==> x in u.payments)
    requires u.books == J.RefundReversed(k, w.books, payer, id, paid) && (paid.Some? ==> paid.value.booking in w.bookings)
    ensures forall i :: 0 <= i < |u.books.entries| ==> KnownKey(u, u.books.entries[i].key)
  {
  }

  /** Vouchers, prizes and flags are not part of the points. */
  lemma MoneyUntouched(w: World, u: World)
    requires MoneyOk(w) && u.books == w.books && u.payments == w.payments
    requires forall b :: b in w.bookings <==> b in u.bookings
    requires forall b :: b in w.bookings ==>
               && u.bookings[b].payment == w.bookings[b].payment && u.bookings[b].user == w.bookings[b].user
               && u.bookings[b].redeemed == w.bookings[b].redeemed
    requires forall b :: b in w.given ==> b in u.given
    ensures MoneyOk(u)
  {
    forall b {:trigger PayOk(u, b)} | b in u.bookings && u.bookings[b].payment.Some?
      ensures PayOk(u, b)
    {
      assert PayOk(w, b);
      PayKept(w, u, b);
    }
  }

  /** A post under a key that is no booking's and no payment's. */
  lemma OtherPostKeeps(k: Scheme, w: World, p: Post)
    requires MoneyOk(w) && (p.Name().Loyal? ==> p.Name().source.OtherRef?) && KnownKey(w, p.Name())
    ensures MoneyOk(w.(books := PostOnce(k, w.books, p).1))
  {
    var u := w.(books := PostOnce(k, w.books, p).1);
    forall b {:trigger PayOk(u, b)} | b in u.bookings && u.bookings[b].payment.Some?
      ensures PayOk(u, b)
    {
      assert PayOk(w, b);
      PostElsewhere(k, w, p, b);
      PayKept(w, u, b);
    }
  }

  lemma PostKnown(k: Scheme, w: World, u: World, p: Post)
    requires forall i :: 0 <= i < |w.books.entries| ==> KnownKey(w, w.books.entries[i].key)
    requires (forall x :: x in w.bookings ==> x in u.bookings) && (forall x :: x in w.payments ==> x in u.payments)
    requires u.books == w.books || (u.books == PostOnce(k, w.books, p).1 && KnownKey(u, p.Name()))
    ensures forall i :: 0 <= i < |u.books.entries| ==> KnownKey(u, u.books.entries[i].key)
  {
  }

  lemma CapturePays(k: Scheme, w: World, b: nat, points: nat)
    requires b in w.bookings && w.bookings[b].payment.Some? && PayOk(w, b)
    requires w.payments[w.bookings[b].payment.value].status == Pending
    ensures PayOk(CapturedBy(k, w, w.bookings[b].payment.value, points), b)
  {
    var id, user := w.bookings[b].payment.value, w.bookings[b].user;
    var p := EarnOf(id, w.payments[id].user, points);
    J.PostedUnder(k, w.books, p, ReversedKey(w, id));
    J.PostedUnder(k, w.books, p, Loyal(user, Redeemed, BookingRef(b)));
    J.PostedUnder(k, w.books, p, Loyal(user, RedemptionReleased, BookingRef(b)));
  }

  lemma CaptureKeeps(k: Scheme, w: World, id: nat, points: nat)
    requires MoneyOk(w)
    ensures MoneyOk(CapturedBy(k, w, id, points))
  {
    var u := CapturedBy(k, w, id, points);
    if id in w.payments && w.payments[id].status == Pending {
      var p := EarnOf(id, w.payments[id].user, points);
      PostKnown(k, w, u, p);
      forall b {:trigger PayOk(u, b)} | b in u.bookings && u.bookings[b].payment.Some?
        ensures PayOk(u, b)
      {
        assert PayOk(w, b);
        if w.bookings[b].payment.value == id {
          CapturePays(k, w, b, points);
        } else {
          PostElsewhere(k, w, p, b);
          PayKept(w, u, b);
        }
      }
    }
  }

  /** Nothing is recorded under a key of a booking or payment there has not been. */
  lemma StillUnknown(k: Scheme, w: World, p: Post, key: Key)
    requires MoneyOk(w) && !KnownKey(w, key) && p.Name() != key
    ensures !HasKey(w.books.entries, key) && !HasKey(PostOnce(k, w.books, p).1.entries, key)
    ensures J.Worth(w.books.entries, key) == (0, 0) && J.Worth(PostOnce(k, w.books, p).1.entries, key) == (0, 0)
  {
    J.PostedUnder(k, w.books, p, key);
  }

  lemma NewPointsPaired(k: Scheme, w: World, id: nat, b: Booking, pay: Payment)
    requires MoneyOk(w) && CanReserve(k, w, id, b, pay)
    ensures J.SpendPaired(Reserved(k, w, id, b, pay).books.entries, J.Paid(id, b.user, b.redeemed))
  {
    var p := SpendOf(id, b);
    StillUnknown(k, w, p, Loyal(b.user, RedemptionReleased, BookingRef(id)));
    J.PostedUnder(k, w.books, p, p.Name());
    assert b.redeemed <= 0 ==> !HasKey(w.books.entries, p.Name());
  }

  lemma NewBookingPays(k: Scheme, w: World, id: nat, b: Booking, pay: Payment)
    requires MoneyOk(w) && CanReserve(k, w, id, b, pay) && b.payment.Some?
    ensures PayOk(Reserved(k, w, id, b, pay), id)
  {
    var (p, own) := (SpendOf(id, b), b.payment.value);
    StillUnknown(k, w, p, Loyal(pay.user, PurchaseEarned, PaymentRef(own)));
    StillUnknown(k, w, p, Loyal(pay.user, PurchaseReversed, PaymentRef(own)));
    NewPointsPaired(k, w, id, b, pay);
  }

  lemma OldBookingPays(k: Scheme, w: World, id: nat, b: Booking, pay: Payment, x: nat)
    requires CanReserve(k, w, id, b, pay) && x in w.bookings && w.bookings[x].payment.Some? && PayOk(w, x)
    ensures PayOk(Reserved(k, w, id, b, pay), x) && w.bookings[x].payment != b.payment
  {
    PostElsewhere(k, w, SpendOf(id, b), x);
    PayKept(w, Reserved(k, w, id, b, pay), x);
  }

  lemma ReservedKeepsMoney(k: Scheme, w: World, id: nat, b: Booking, pay: Payment)
    requires MoneyOk(w)
    ensures MoneyOk(Reserved(k, w, id, b, pay))
  {
    var u := Reserved(k, w, id, b, pay);
    if CanReserve(k, w, id, b, pay) {
      PostKnown(k, w, u, SpendOf(id, b));
      forall x {:trigger PayOk(u, x)} | x in u.bookings && u.bookings[x].payment.Some?
        ensures PayOk(u, x) && (x != id ==> u.bookings[x].payment != b.payment)
      {
        if x == id {
          NewBookingPays(k, w, id, b, pay);
        } else {
          assert PayOk(w, x);
          OldBookingPays(k, w, id, b, pay, x);
        }
      }
      forall x, y | x in u.bookings && y in u.bookings && x != y && u.bookings[x].payment.Some?
        ensures u.bookings[x].payment != u.bookings[y].payment
      {
        if u.bookings[y].payment.Some? {
          assert PayOk(u, x) && PayOk(u, y);
        }
      }
    }
  }

  // ------------------------------------------------------------------
  // Minutes that a booking was paid with
  // ------------------------------------------------------------------

  /** They are on the ledger as spent, and a release is of exactly those. */
  predicate MinutesPaired(entries: seq<Entry>, b: nat, minutes: int) {
    && J.Worth(entries, BookingSpend(b)) == (-minutes, 0)
    && (HasKey(entries, BookingRelease(b)) ==> J.Cancels(entries, BookingSpend(b), BookingRelease(b)))
  }

  ghost predicate MinutesOk(w: World) {
    forall b :: b in w.bookings && w.bookings[b].minutes > 0 ==>
      MinutesPaired(w.books.entries, b, w.bookings[b].minutes)
  }

  predicate SameMinutes(e: seq<Entry>, f: seq<Entry>, b: nat) {
    SameUnder(e, f, BookingSpend(b)) && SameUnder(e, f, BookingRelease(b))
  }

  lemma PostSameMinutes(k: Scheme, books: Books, p: Post, b: nat)
    requires p.Name() != BookingSpend(b) && p.Name() != BookingRelease(b)
    ensures SameMinutes(books.entries, PostOnce(k, books, p).1.entries, b)
  {
    J.PostedUnder(k, books, p, BookingSpend(b));
    J.PostedUnder(k, books, p, BookingRelease(b));
  }

  /** Where no minutes move, the pairs are as they were. */
  lemma MinutesKept(w: World, u: World)
    requires MinutesOk(w)
    requires forall b :: b in u.bookings && u.bookings[b].minutes > 0 ==>
               && b in w.bookings && u.bookings[b].minutes == w.bookings[b].minutes
               && SameMinutes(w.books.entries, u.books.entries, b)
    ensures MinutesOk(u)
  {
  }

  lemma PointsKeepMinutes(k: Scheme, w: World, p: Post)
    requires MinutesOk(w) && !p.Name().BookingSpend? && !p.Name().BookingRelease?
    ensures MinutesOk(w.(books := PostOnce(k, w.books, p).1))
  {
    forall b | b in w.bookings ensures SameMinutes(w.books.entries, PostOnce(k, w.books, p).1.entries, b) {
      PostSameMinutes(k, w.books, p, b);
    }
    MinutesKept(w, w.(books := PostOnce(k, w.books, p).1));
  }

  /** Releasing a booking's minutes while a period runs cancels what it spent, whether or not
      they had been released before, and moves nobody else's. */
  lemma MinutesReleasedPairs(k: Scheme, w: World, root: nat, running: bool)
    requires MinutesOk(w) && root in w.bookings
    ensures var u := MinutesBackTo(k, w, root, running);
            && MinutesOk(u)
            && (running && w.bookings[root].minutes > 0 ==>
                  J.Cancels(u.books.entries, BookingSpend(root), BookingRelease(root)))
  {
    var booking := w.bookings[root];
    if booking.minutes > 0 && running {
      var p := J.ReleaseOf(booking.user, root, booking.minutes);
      forall b | b in w.bookings && w.bookings[b].minutes > 0
        ensures MinutesPaired(PostOnce(k, w.books, p).1.entries, b, w.bookings[b].minutes)
      {
        if b == root {
          ReleasePairs(k, w.books, booking, root, p);
        } else {
          PostSameMinutes(k, w.books, p, b);
        }
      }
      ReleasePairs(k, w.books, booking, root, p);
    }
  }

  lemma ReleasePairs(k: Scheme, books: Books, booking: Booking, root: nat, p: Post)
    requires booking.minutes > 0 && MinutesPaired(books.entries, root, booking.minutes)
    requires p == J.ReleaseOf(booking.user, root, booking.minutes)
    ensures var entries := PostOnce(k, books, p).1.entries;
            MinutesPaired(entries, root, booking.minutes) && J.Cancels(entries, BookingSpend(root), BookingRelease(root))
  {
    J.PostedUnder(k, books, p, p.Name());
    J.PostedUnder(k, books, p, BookingSpend(root));
  }

  function MinutesBackTo(k: Scheme, w: World, root: nat, running: bool): World
    requires root in w.bookings
  {
    w.(books := J.MinutesReleased(k, w.books, w.bookings[root].user, root, w.bookings[root].minutes, running))
  }

  lemma RefundReversedKeepsMinutes(k: Scheme, w: World, root: nat, id: nat)
    requires MinutesOk(w) && id in w.payments
    ensures MinutesOk(PaidBackTo(k, w, root, id))
  {
    var u := PaidBackTo(k, w, root, id);
    forall b | b in w.bookings ensures SameMinutes(w.books.entries, u.books.entries, b) {
      J.RefundReversedElsewhere(k, w.books, w.payments[id].user, id, PaidOn(w, root), BookingSpend(b));
      J.RefundReversedElsewhere(k, w.books, w.payments[id].user, id, PaidOn(w, root), BookingRelease(b));
    }
    MinutesKept(w, u);
  }

  /** A booking paid with minutes spends them under its own key, which nobody has used. */
  lemma NewMinutesPaired(k: Scheme, w: World, id: nat, b: Booking, pay: Payment)
    requires MoneyOk(w) && CanReserve(k, w, id, b, pay) && b.minutes > 0
    requires PostOnce(k, Reserved(k, w, id, b, pay).books, MinutesSpendOf(id, b)).0 == Posted
    ensures MinutesPaired(PostOnce(k, Reserved(k, w, id, b, pay).books, MinutesSpendOf(id, b)).1.entries, id, b.minutes)
  {
    var (r, p) := (Reserved(k, w, id, b, pay), MinutesSpendOf(id, b));
    StillUnknown(k, w, SpendOf(id, b), BookingRelease(id));
    J.PostedUnder(k, r.books, p, BookingSpend(id));
    J.PostedUnder(k, r.books, p, BookingRelease(id));
  }

  lemma ReservedKeepsMinutes(k: Scheme, w: World, id: nat, b: Booking, pay: Payment, x: nat)
    requires x in w.bookings
    ensures SameMinutes(w.books.entries, Reserved(k, w, id, b, pay).books.entries, x)
  {
    PostSameMinutes(k, w.books, SpendOf(id, b), x);
  }

  lemma BookedSameMinutes(k: Scheme, w: World, id: nat, b: Booking, pay: Payment, x: nat)
    requires x in w.bookings && x != id
    ensures SameMinutes(w.books.entries, Booked(k, w, id, b, pay).books.entries, x)
  {
    ReservedKeepsMinutes(k, w, id, b, pay, x);
    PostSameMinutes(k, Reserved(k, w, id, b, pay).books, MinutesSpendOf(id, b), x);
  }

  lemma BookedKeepsMinutes(k: Scheme, w: World, id: nat, b: Booking, pay: Payment)
    requires MinutesOk(w) && MoneyOk(w)
    ensures MinutesOk(Booked(k, w, id, b, pay))
  {
    var u := Booked(k, w, id, b, pay);
    if CanReserve(k, w, id, b, pay) && u.bookings != w.bookings {
      forall x | x in u.bookings && u.bookings[x].minutes > 0 ensures MinutesPaired(u.books.entries, x, u.bookings[x].minutes) {
        if x == id {
          NewMinutesPaired(k, w, id, b, pay);
        } else {
          OldMinutesPaired(k, w, id, b, pay, x);
        }
      }
    }
  }

  lemma OldMinutesPaired(k: Scheme, w: World, id: nat, b: Booking, pay: Payment, x: nat)
    requires x in w.bookings && x != id && MinutesPaired(w.books.entries, x, w.bookings[x].minutes)
    ensures MinutesPaired(Booked(k, w, id, b, pay).books.entries, x, w.bookings[x].minutes)
  {
    BookedSameMinutes(k, w, id, b, pay, x);
  }

  lemma BookedKeepsMoney(k: Scheme, w: World, id: nat, b: Booking, pay: Payment)
    requires MoneyOk(w)
    ensures MoneyOk(Booked(k, w, id, b, pay))
  {
    ReservedKeepsMoney(k, w, id, b, pay);
    var r := Reserved(k, w, id, b, pay);
    if CanReserve(k, w, id, b, pay) && b.minutes > 0 {
      OtherPostKeeps(k, r, MinutesSpendOf(id, b));
    }
  }

  lemma BookedKeeps(k: Scheme, w: World, id: nat, b: Booking, pay: Payment)
    requires ChainsOk(w) && LogOk(w)
    ensures ChainsOk(Booked(k, w, id, b, pay)) && LogOk(Booked(k, w, id, b, pay))
  {
    ReservedKeeps(k, w, id, b, pay);
    SameLinksKeep(Reserved(k, w, id, b, pay),
                  Reserved(k, w, id, b, pay).(books := PostOnce(k, Reserved(k, w, id, b, pay).books, MinutesSpendOf(id, b)).1));
  }

  // ------------------------------------------------------------------
  // A hold that is let go
  // ------------------------------------------------------------------

  predicate HoldsUnpaid(w: World, b: nat) {
    && b in w.bookings && w.bookings[b].payment.Some? && w.bookings[b].payment.value in w.payments
    && w.payments[w.bookings[b].payment.value].status == Pending
  }

  function PointsBackTo(k: Scheme, w: World, b: nat): World
    requires b in w.bookings
  {
    w.(books := J.PointsReleased(k, w.books, w.bookings[b].user, b, w.bookings[b].redeemed))
  }

  function PaymentFailed(w: World, id: nat, failed: bool): World
    requires id in w.payments
  {
    if failed then w.(payments := w.payments[id := w.payments[id].(status := Failed)]) else w
  }

  /** An unpaid booking lapses, or its payment fails: what it spent comes back, a prize with
      the expiry it had. */
  function HoldReleased(k: Scheme, w: World, b: nat, failed: bool, now: int, running: bool): World {
    if !HoldsUnpaid(w, b) then w
    else PrizeReleased(PaymentFailed(MinutesBackTo(k, PointsBackTo(k, w, b), b, running), w.bookings[b].payment.value, failed),
                       b, false, now)
  }

  lemma PointsBackKeepsMoney(k: Scheme, w: World, b: nat)
    requires MoneyOk(w) && b in w.bookings && w.bookings[b].payment.Some?
    ensures MoneyOk(PointsBackTo(k, w, b))
  {
    var (u, booking) := (PointsBackTo(k, w, b), w.bookings[b]);
    if booking.redeemed > 0 {
      var p := PointsPost(booking.user, RedemptionReleased, BookingRef(b), booking.redeemed, 0, false);
      PostKnown(k, w, u, p);
      forall x {:trigger PayOk(u, x)} | x in u.bookings && u.bookings[x].payment.Some?
        ensures PayOk(u, x)
      {
        assert PayOk(w, x);
        if x == b {
          OwnPointsBack(k, w, b);
        } else {
          PostElsewhere(k, w, p, x);
          PayKept(w, u, x);
        }
      }
    }
  }

  lemma OwnPointsBack(k: Scheme, w: World, b: nat)
    requires b in w.bookings && w.bookings[b].payment.Some? && PayOk(w, b) && w.bookings[b].redeemed > 0
    ensures PayOk(PointsBackTo(k, w, b), b)
  {
    var (booking, id) := (w.bookings[b], w.bookings[b].payment.value);
    var p := PointsPost(booking.user, RedemptionReleased, BookingRef(b), booking.redeemed, 0, false);
    J.PointsReleasedCancels(k, w.books, PaidOn(w, b).value);
    J.PostedUnder(k, w.books, p, Loyal(booking.user, Redeemed, BookingRef(b)));
    J.PostedUnder(k, w.books, p, EarnedKey(w, id));
    J.PostedUnder(k, w.books, p, ReversedKey(w, id));
  }

  lemma FailureKeepsMoney(w: World, id: nat, failed: bool)
    requires MoneyOk(w) && id in w.payments && w.payments[id].status == Pending
    ensures MoneyOk(PaymentFailed(w, id, failed))
  {
    var u := PaymentFailed(w, id, failed);
    forall x {:trigger PayOk(u, x)} | x in u.bookings && u.bookings[x].payment.Some?
      ensures PayOk(u, x)
    {
      assert PayOk(w, x);
    }
  }

  lemma HoldStep(k: Scheme, w: World, b: nat, failed: bool, now: int, running: bool)
    requires SchemeOk(k) && WorldOk(k, w)
    ensures WorldOk(k, HoldReleased(k, w, b, failed, now, running))
    ensures SameLinks(w, HoldReleased(k, w, b, failed, now, running))
  {
    if HoldsUnpaid(w, b) {
      var id := w.bookings[b].payment.value;
      var w1 := PointsBackTo(k, w, b);
      PointsBackKeeps(k, w, b);
      var w2 := MinutesBackTo(k, w1, b, running);
      MinutesBackKeepsMoney(k, w1, b, running);
      MinutesReleasedPairs(k, w1, b, running);
      FailureKeeps(w2, id, failed);
      SameTokens(w, PaymentFailed(w2, id, failed));
      ReleasedKeeps(k, w, PaymentFailed(w2, id, failed), b, now);
    }
  }

  lemma FailureKeeps(w: World, id: nat, failed: bool)
    requires MoneyOk(w) && MinutesOk(w) && SettledOk(w.payments, w.captured)
    requires id in w.payments && w.payments[id].status == Pending
    ensures var u := PaymentFailed(w, id, failed);
            MoneyOk(u) && MinutesOk(u) && SettledOk(u.payments, u.captured) && SameLinks(w, u)
  {
    FailureKeepsMoney(w, id, failed);
    FailureSettles(w, id, failed);
    MinutesKept(w, PaymentFailed(w, id, failed));
  }

  lemma HoldPays(k: Scheme, w: World, b: nat, failed: bool, now: int, running: bool)
    requires SettledOk(w.payments, w.captured)
    ensures var u := HoldReleased(k, w, b, failed, now, running);
            u.captured == w.captured && PaymentsOnward(w.payments, u.payments)
  {
  }

  lemma PointsBackKeeps(k: Scheme, w: World, b: nat)
    requires SchemeOk(k) && WorldOk(k, w) && b in w.bookings && w.bookings[b].payment.Some?
    ensures var u := PointsBackTo(k, w, b); MoneyOk(u) && MinutesOk(u) && Sound(k, u.books)
  {
    var booking := w.bookings[b];
    PointsBackKeepsMoney(k, w, b);
    var p := PointsPost(booking.user, RedemptionReleased, BookingRef(b), booking.redeemed, 0, false);
    PointsKeepMinutes(k, w, p);
    PostOnceSound(k, w.books, p);
  }

  lemma ReleasedKeeps(k: Scheme, w: World, v: World, b: nat, now: int)
    requires WorldOk(k, w) && SameLinks(w, v) && MoneyOk(v) && MinutesOk(v) && Sound(k, v.books)
    requires SettledOk(v.payments, v.captured) && TokensOk(v)
    ensures WorldOk(k, PrizeReleased(v, b, false, now)) && SameLinks(w, PrizeReleased(v, b, false, now))
  {
    PrizeReleasedKeepsMoney(v, b, false, now);
    PrizeReleasedKeepsMinutes(v, b, false, now);
    PrizeReleasedTokens(v, b, false, now);
    PrizeReleasedSameLinks(v, b, false, now);
    SameLinksKeep(w, PrizeReleased(v, b, false, now));
  }

  /** What lets go of an unpaid booking: its points are released to the point, its minutes to
      the minute while a period runs, and its prize with the expiry it had; and the payment has
      failed or is still to come. */
  ghost predicate LetGo(w: World, u: World, b: nat, failed: bool, running: bool)
    requires HoldsUnpaid(w, b)
  {
    var (booking, id) := (w.bookings[b], w.bookings[b].payment.value);
    && J.SpendCancels(u.books.entries, PaidOn(w, b).value)
    && (running && booking.minutes > 0 ==> J.Cancels(u.books.entries, BookingSpend(b), BookingRelease(b)))
    && (booking.prize.Some? && PrizeSpent(w.prizes, booking.prize.value) ==>
          && u.prizes == w.prizes[booking.prize.value := w.prizes[booking.prize.value].(redeemed := false)]
          && b in u.bookings && u.bookings[b].prize.None?)
    && u.payments == w.payments[id := w.payments[id].(status := if failed then Failed else Pending)]
    && u.entitlements == w.entitlements && u.vouchers == w.vouchers
  }

  lemma HoldGivesBack(k: Scheme, w: World, b: nat, failed: bool, now: int, running: bool)
    requires SchemeOk(k) && WorldOk(k, w)
    ensures var u := HoldReleased(k, w, b, failed, now, running);
            if HoldsUnpaid(w, b) then LetGo(w, u, b, failed, running) else u == w
  {
    if HoldsUnpaid(w, b) {
      HoldRows(k, w, b, failed, now, running);
      HoldLedgers(k, w, b, running);
    }
  }

  lemma HoldRows(k: Scheme, w: World, b: nat, failed: bool, now: int, running: bool)
    requires HoldsUnpaid(w, b)
    ensures var (u, booking, id) := (HoldReleased(k, w, b, failed, now, running), w.bookings[b], w.bookings[b].payment.value);
            && (booking.prize.Some? && PrizeSpent(w.prizes, booking.prize.value) ==>
                  && u.prizes == w.prizes[booking.prize.value := w.prizes[booking.prize.value].(redeemed := false)]
                  && b in u.bookings && u.bookings[b].prize.None?)
            && u.payments == w.payments[id := w.payments[id].(status := if failed then Failed else Pending)]
            && u.entitlements == w.entitlements && u.vouchers == w.vouchers
            && u.books == MinutesBackTo(k, PointsBackTo(k, w, b), b, running).books
  {
  }

  lemma HoldLedgers(k: Scheme, w: World, b: nat, running: bool)
    requires SchemeOk(k) && WorldOk(k, w) && HoldsUnpaid(w, b)
    ensures var after := MinutesBackTo(k, PointsBackTo(k, w, b), b, running).books.entries;
            && J.SpendCancels(after, PaidOn(w, b).value)
            && (running && w.bookings[b].minutes > 0 ==> J.Cancels(after, BookingSpend(b), BookingRelease(b)))
  {
    assert PayOk(w, b);
    J.PointsReleasedCancels(k, w.books, PaidOn(w, b).value);
    PointsBackKeeps(k, w, b);
    MinutesReleasedPairs(k, PointsBackTo(k, w, b), b, running);
    MinutesSparePoints(k, PointsBackTo(k, w, b), b, running, PaidOn(w, b).value);
  }

  lemma MinutesSparePoints(k: Scheme, w: World, b: nat, running: bool, paid: J.Paid)
    requires b in w.bookings && J.SpendCancels(w.books.entries, paid)
    ensures J.SpendCancels(MinutesBackTo(k, w, b, running).books.entries, paid)
  {
    var p := J.ReleaseOf(w.bookings[b].user, b, w.bookings[b].minutes);
    J.PostedUnder(k, w.books, p, Loyal(paid.user, Redeemed, BookingRef(paid.booking)));
    J.PostedUnder(k, w.books, p, Loyal(paid.user, RedemptionReleased, BookingRef(paid.booking)));
  }

  /** A payment still to come settles, and earns the points it is worth. */
  lemma CaptureEarns(k: Scheme, w: World, id: nat, points: nat)
    requires WorldOk(k, w)
    ensures var u := CapturedBy(k, w, id, points);
            if id in w.payments && w.payments[id].status == Pending then
              && u.payments == w.payments[id := w.payments[id].(status := Captured)] && u.captured == w.captured + {id}
              && ((exists b :: b in w.bookings && w.bookings[b].payment == Some(id)) && points > 0 ==>
                    J.Worth(u.books.entries, EarnedKey(w, id)) == (points, points))
            else u == w
  {
    if id in w.payments && w.payments[id].status == Pending && exists b :: b in w.bookings && w.bookings[b].payment == Some(id) {
      var b :| b in w.bookings && w.bookings[b].payment == Some(id);
      assert PayOk(w, b);
      J.PostedUnder(k, w.books, EarnOf(id, w.payments[id].user, points), EarnedKey(w, id));
      PostAnswers(k, w.books, EarnOf(id, w.payments[id].user, points));
    }
  }

  /** What a new booking needs: a payment to come, a voucher and a prize that are free, and the
      points and the minutes it spends. */
  predicate Bookable(w: World, id: nat, b: Booking, pay: Payment) {
    && id !in w.bookings && b.from.None? && !b.refunded
    && (b.payment.Some? ==> b.payment.value !in w.payments && pay.status == Pending)
    && (b.voucher.Some? ==> b.voucher.value in w.vouchers && !VoucherSpent(w.vouchers, b.voucher.value))
    && (b.prize.Some? ==> b.prize.value in w.prizes && !PrizeSpent(w.prizes, b.prize.value))
    && (b.redeemed > 0 ==> Sum(w.books.entries, Points(b.user)) >= b.redeemed)
    && (b.minutes > 0 ==> Sum(w.books.entries, Minutes(b.user)) >= b.minutes)
  }

  /** The booking is there, and what it spends is spent. */
  ghost predicate Made(w: World, u: World, id: nat, b: Booking, pay: Payment) {
    && u.bookings == w.bookings[id := b]
    && (b.payment.Some? ==> u.payments == w.payments[b.payment.value := pay])
    && (b.voucher.Some? ==> VoucherSpent(u.vouchers, b.voucher.value))
    && (b.prize.Some? ==> PrizeSpent(u.prizes, b.prize.value))
    && (b.redeemed > 0 ==> J.Worth(u.books.entries, Loyal(b.user, Redeemed, BookingRef(id))) == (-b.redeemed, 0))
    && (b.minutes > 0 ==> J.Worth(u.books.entries, BookingSpend(id)) == (-b.minutes, 0))
  }

  /** A booking is made exactly when it can be paid for. */
  lemma BookedExactly(k: Scheme, w: World, id: nat, b: Booking, pay: Payment)
    requires SchemeOk(k) && WorldOk(k, w)
    ensures var u := Booked(k, w, id, b, pay); if Bookable(w, id, b, pay) then Made(w, u, id, b, pay) else u == w
  {
    if id !in w.bookings {
      ReserveAnswers(k, w, id, b, pay);
      if CanReserve(k, w, id, b, pay) {
        MinutesAnswer(k, w, id, b, pay);
        if b.minutes <= 0 || PostOnce(k, Reserved(k, w, id, b, pay).books, MinutesSpendOf(id, b)).0 == Posted {
          MadeOnceReserved(k, w, id, b, pay);
        }
      }
    }
  }

  predicate Affords(k: Scheme, w: World, id: nat, b: Booking, pay: Payment) {
    && CanReserve(k, w, id, b, pay)
    && (b.minutes > 0 ==> PostOnce(k, Reserved(k, w, id, b, pay).books, MinutesSpendOf(id, b)).0 == Posted)
  }

  lemma MadeOnceReserved(k: Scheme, w: World, id: nat, b: Booking, pay: Payment)
    requires Affords(k, w, id, b, pay)
    ensures Made(w, Booked(k, w, id, b, pay), id, b, pay)
  {
    RowsMade(k, w, id, b, pay);
    PointsSpent(k, w, id, b, pay);
    MinutesSpent(k, w, id, b, pay);
  }

  lemma RowsMade(k: Scheme, w: World, id: nat, b: Booking, pay: Payment)
    requires Affords(k, w, id, b, pay)
    ensures var (r, u) := (Reserved(k, w, id, b, pay), Booked(k, w, id, b, pay));
            && u.bookings == w.bookings[id := b]
            && (b.payment.Some? ==> u.payments == w.payments[b.payment.value := pay])
            && (b.voucher.Some? ==> VoucherSpent(u.vouchers, b.voucher.value))
            && (b.prize.Some? ==> PrizeSpent(u.prizes, b.prize.value))
            && u.books == (if b.minutes <= 0 then r.books else PostOnce(k, r.books, MinutesSpendOf(id, b)).1)
  {
  }

  lemma PointsSpent(k: Scheme, w: World, id: nat, b: Booking, pay: Payment)
    requires Affords(k, w, id, b, pay)
    ensures b.redeemed > 0 ==>
              J.Worth(Booked(k, w, id, b, pay).books.entries, Loyal(b.user, Redeemed, BookingRef(id))) == (-b.redeemed, 0)
  {
    RowsMade(k, w, id, b, pay);
    ReservedSpends(k, w, id, b, pay);
    J.PostedUnder(k, Reserved(k, w, id, b, pay).books, MinutesSpendOf(id, b), Loyal(b.user, Redeemed, BookingRef(id)));
  }

  lemma ReservedSpends(k: Scheme, w: World, id: nat, b: Booking, pay: Payment)
    requires CanReserve(k, w, id, b, pay)
    ensures b.redeemed > 0 ==>
              J.Worth(Reserved(k, w, id, b, pay).books.entries, Loyal(b.user, Redeemed, BookingRef(id))) == (-b.redeemed, 0)
  {
    J.PostedUnder(k, w.books, SpendOf(id, b), SpendOf(id, b).Name());
  }

  lemma MinutesSpent(k: Scheme, w: World, id: nat, b: Booking, pay: Payment)
    requires Affords(k, w, id, b, pay)
    ensures b.minutes > 0 ==> J.Worth(Booked(k, w, id, b, pay).books.entries, BookingSpend(id)) == (-b.minutes, 0)
  {
    RowsMade(k, w, id, b, pay);
    J.PostedUnder(k, Reserved(k, w, id, b, pay).books, MinutesSpendOf(id, b), BookingSpend(id));
  }

  lemma ReserveAnswers(k: Scheme, w: World, id: nat, b: Booking, pay: Payment)
    requires WorldOk(k, w) && id !in w.bookings
    ensures b.redeemed > 0 ==> (PostOnce(k, w.books, SpendOf(id, b)).0 == Posted <==> Sum(w.books.entries, Points(b.user)) >= b.redeemed)
  {
    PostAnswers(k, w.books, SpendOf(id, b));
  }

  /** Points and minutes are spent side by side. */
  lemma MinutesAnswer(k: Scheme, w: World, id: nat, b: Booking, pay: Payment)
    requires SchemeOk(k) && WorldOk(k, w) && id !in w.bookings && CanReserve(k, w, id, b, pay)
    ensures b.minutes > 0 ==>
              (PostOnce(k, Reserved(k, w, id, b, pay).books, MinutesSpendOf(id, b)).0 == Posted <==>
               Sum(w.books.entries, Minutes(b.user)) >= b.minutes)
  {
    ReservedEntries(k, w, id, b, pay);
    PostAnswers(k, Reserved(k, w, id, b, pay).books, MinutesSpendOf(id, b));
  }

  lemma ReservedEntries(k: Scheme, w: World, id: nat, b: Booking, pay: Payment)
    requires SchemeOk(k) && WorldOk(k, w) && id !in w.bookings && CanReserve(k, w, id, b, pay)
    ensures var r := Reserved(k, w, id, b, pay);
            && Sound(k, r.books) && !HasKey(r.books.entries, BookingSpend(id))
            && Sum(r.books.entries, Minutes(b.user)) == Sum(w.books.entries, Minutes(b.user))
  {
    StillUnknown(k, w, SpendOf(id, b), BookingSpend(id));
    PostAnswers(k, w.books, SpendOf(id, b));
    if b.redeemed > 0 {
      PostOnceSound(k, w.books, SpendOf(id, b));
      SumPush(w.books.entries, PostOnce(k, w.books, SpendOf(id, b)).1.entries[|w.books.entries|], Minutes(b.user));
    }
  }

  // ------------------------------------------------------------------
  // A refund, from plan to claim
  // ------------------------------------------------------------------

  ghost predicate WorldOk(k: Scheme, w: World) {
    ChainsOk(w) && LogOk(w) && MoneyOk(w) && MinutesOk(w) && Sound(k, w.books) && SettledOk(w.payments, w.captured)
    && TokensOk(w)
  }

  /** A voucher or prize that is redeemed on a booking is not free to be redeemed again, and is
      on no other. */
  ghost predicate TokensOk(w: World) {
    && (forall b :: b in w.bookings && w.bookings[b].voucher.Some? ==> VoucherSpent(w.vouchers, w.bookings[b].voucher.value))
    && (forall b :: b in w.bookings && w.bookings[b].prize.Some? ==> PrizeSpent(w.prizes, w.bookings[b].prize.value))
    && (forall b, c :: b in w.bookings && c in w.bookings && b != c && w.bookings[b].voucher.Some? ==>
          w.bookings[b].voucher != w.bookings[c].voucher)
    && (forall b, c :: b in w.bookings && c in w.bookings && b != c && w.bookings[b].prize.Some? ==>
          w.bookings[b].prize != w.bookings[c].prize)
  }

  predicate VoucherSpent(vouchers: map<nat, Voucher>, id: nat) { id in vouchers && !vouchers[id].active }
  predicate PrizeSpent(prizes: map<nat, Prize>, id: nat) { id in prizes && prizes[id].redeemed }

  lemma SameTokens(w: World, u: World)
    requires TokensOk(w) && u.vouchers == w.vouchers && u.prizes == w.prizes
    requires forall b :: b in u.bookings && b in w.bookings ==>
               u.bookings[b].voucher == w.bookings[b].voucher && u.bookings[b].prize == w.bookings[b].prize
    requires forall b :: b in u.bookings && b !in w.bookings ==> u.bookings[b].voucher.None? && u.bookings[b].prize.None?
    ensures TokensOk(u)
  {
  }

  lemma EntitledTokens(w: World, b: nat)
    requires TokensOk(w)
    ensures TokensOk(Entitled(w, b))
  {
  }

  lemma RescheduledTokens(w: World, b: nat, to: nat)
    requires TokensOk(w)
    ensures TokensOk(RescheduledTo(w, b, to))
  {
    SameTokens(w, RescheduledTo(w, b, to));
  }

  lemma ClaimedTokens(w: World, b: nat, root: nat)
    requires TokensOk(w) && b in w.bookings
    ensures TokensOk(ClaimedFor(w, b, root))
  {
    SameTokens(w, ClaimedFor(w, b, root));
  }

  lemma ReservedTokens(k: Scheme, w: World, id: nat, b: Booking, pay: Payment)
    requires TokensOk(w)
    ensures TokensOk(Reserved(k, w, id, b, pay))
  {
  }

  lemma BookedTokens(k: Scheme, w: World, id: nat, b: Booking, pay: Payment)
    requires TokensOk(w)
    ensures TokensOk(Booked(k, w, id, b, pay))
  {
    ReservedTokens(k, w, id, b, pay);
    SameTokens(Reserved(k, w, id, b, pay),
               Reserved(k, w, id, b, pay).(books := PostOnce(k, Reserved(k, w, id, b, pay).books, MinutesSpendOf(id, b)).1));
  }

  lemma PrizeReleasedTokens(w: World, b: nat, refunded: bool, now: int)
    requires TokensOk(w)
    ensures TokensOk(PrizeReleased(w, b, refunded, now))
  {
  }

  lemma VoucherBackTokens(w: World, root: nat, id: nat, expires: Option<int>, now: int)
    requires TokensOk(w) && root in w.bookings && w.bookings[root].voucher == Some(id)
    ensures TokensOk(VoucherBackTo(w, root, id, expires, now))
  {
  }

  lemma IssuedTokens(w: World, u: World)
    requires TokensOk(w) && u == w.(vouchers := u.vouchers, prizes := u.prizes)
    requires forall id :: id in w.vouchers ==> id in u.vouchers && u.vouchers[id] == w.vouchers[id]
    requires forall id :: id in w.prizes ==> id in u.prizes && u.prizes[id] == w.prizes[id]
    ensures TokensOk(u)
  {
  }

  lemma GivenBackTokens(k: Scheme, w: World, plan: Plan, now: int, running: bool)
    requires TokensOk(w) && PlanOk(w, plan) && plan.Claim? && VoucherStands(w, plan)
    ensures TokensOk(GivenBack(k, w, plan, now, running))
  {
    match plan.funding
    case PaidBy(root, id) =>
      if id in w.payments {
        SameTokens(w, PaidBackTo(k, w, root, id));
        PrizeReleasedTokens(PaidBackTo(k, w, root, id), root, true, now);
      }
    case VoucherOn(root, id) => VoucherBackTokens(w, root, id, plan.expires, now);
    case FreeSlotOn(root) => PrizeReleasedTokens(w, root, true, now);
    case MinutesOn(root) => SameTokens(w, MinutesBackTo(k, w, root, running));
  }

  /** The voucher found is still the one on the booking. */
  predicate VoucherStands(w: World, plan: Plan) {
    plan.Claim? && plan.funding.VoucherOn? ==>
      plan.funding.root in w.bookings && w.bookings[plan.funding.root].voucher == Some(plan.funding.voucher)
  }

  /** A payment that stands as captured or paid back has been captured, and only a sandbox
      payment is paid back. */
  ghost predicate SettledOk(payments: map<nat, Payment>, captured: set<nat>) {
    && (forall id :: id in captured ==> id in payments)
    && (forall id :: id in payments ==> (id in captured <==> payments[id].status in {Captured, PaidBack}))
    && (forall id :: id in payments && payments[id].status == PaidBack ==> payments[id].sandbox)
  }

  lemma BookedSettles(k: Scheme, w: World, id: nat, b: Booking, pay: Payment)
    requires SettledOk(w.payments, w.captured)
    ensures var u := Booked(k, w, id, b, pay);
            SettledOk(u.payments, u.captured) && u.captured == w.captured && PaymentsOnward(w.payments, u.payments)
  {
    ReservedSettles(k, w, id, b, pay);
    BookedPays(k, w, id, b, pay);
  }

  lemma BookedPays(k: Scheme, w: World, id: nat, b: Booking, pay: Payment)
    ensures var (r, u) := (Reserved(k, w, id, b, pay), Booked(k, w, id, b, pay));
            u.captured == w.captured && (u.payments == w.payments || u.payments == r.payments)
  {
  }

  lemma ReservedSettles(k: Scheme, w: World, id: nat, b: Booking, pay: Payment)
    requires SettledOk(w.payments, w.captured)
    ensures var r := Reserved(k, w, id, b, pay);
            SettledOk(r.payments, r.captured) && r.captured == w.captured && PaymentsOnward(w.payments, r.payments)
  {
    var r := Reserved(k, w, id, b, pay);
    if CanReserve(k, w, id, b, pay) && b.payment.Some? {
      NewPaymentSettles(w.payments, w.captured, b.payment.value, pay);
    }
  }

  lemma NewPaymentSettles(payments: map<nat, Payment>, captured: set<nat>, id: nat, pay: Payment)
    requires SettledOk(payments, captured) && id !in payments && pay.status == Pending
    ensures SettledOk(payments[id := pay], captured) && PaymentsOnward(payments, payments[id := pay])
  {
  }

  lemma CaptureSettles(k: Scheme, w: World, id: nat, points: nat)
    requires SettledOk(w.payments, w.captured)
    ensures var u := CapturedBy(k, w, id, points);
            SettledOk(u.payments, u.captured) && w.captured <= u.captured && PaymentsOnward(w.payments, u.payments)
  {
  }

  lemma FailureSettles(w: World, id: nat, failed: bool)
    requires SettledOk(w.payments, w.captured) && id in w.payments && w.payments[id].status == Pending
    ensures var u := PaymentFailed(w, id, failed);
            SettledOk(u.payments, u.captured) && u.captured == w.captured && PaymentsOnward(w.payments, u.payments)
  {
  }

  lemma GivenBackSettles(k: Scheme, w: World, plan: Plan, now: int, running: bool)
    requires SettledOk(w.payments, w.captured) && PlanOk(w, plan) && plan.Claim?
    ensures var u := GivenBack(k, w, plan, now, running);
            SettledOk(u.payments, u.captured) && u.captured == w.captured
  {
    GivenBackPays(k, w, plan, now, running);
  }

  /** At most the payment found changes, and that to being paid back. */
  lemma GivenBackPays(k: Scheme, w: World, plan: Plan, now: int, running: bool)
    requires plan.Claim?
    ensures var u := GivenBack(k, w, plan, now, running);
            && u.captured == w.captured && PaymentsOnward(w.payments, u.payments)
            && u.payments == if plan.funding.PaidBy? && plan.funding.payment in w.payments
                             then w.payments[plan.funding.payment := w.payments[plan.funding.payment].(status := PaidBack)]
                             else w.payments
  {
    match plan.funding
    case Nothing =>
    case PaidBy(root, id) =>
      if id in w.payments {
        PrizePays(PaidBackTo(k, w, root, id), root, now);
      }
    case VoucherOn(root, id) =>
    case FreeSlotOn(root) => PrizePays(w, root, now);
    case MinutesOn(root) =>
  }

  lemma PrizePays(w: World, b: nat, now: int)
    ensures var u := PrizeReleased(w, b, true, now); u.payments == w.payments && u.captured == w.captured
  {
  }

  /** What a plan has read of its chain stays true: only the claim can be stale. */
  ghost predicate PlanOk(w: World, plan: Plan) {
    && (plan.Walking? ==>
          && plan.booking in w.bookings && plan.current in w.bookings && RootOf(w, plan.current) == RootOf(w, plan.booking)
          && plan.booking in w.entitlements)
    && (plan.Claim? ==>
          && plan.booking in w.bookings && !plan.funding.Nothing?
          && plan.funding.root == RootOf(w, plan.booking) && plan.funding.root in w.bookings
          && (plan.funding.PaidBy? ==>
                && w.bookings[plan.funding.root].payment == Some(plan.funding.payment)
                && plan.funding.payment in w.payments && plan.funding.payment in w.captured
                && w.payments[plan.funding.payment].sandbox)
          && plan.booking in w.entitlements && (HasOpen(w, plan.booking) ==> VoucherStands(w, plan))
          && (plan.funding.MinutesOn? ==> w.bookings[plan.funding.root].minutes > 0))
  }

  lemma LookedOk(w: World, b: nat)
    requires ChainsOk(w)
    ensures PlanOk(w, Looked(w, b))
  {
  }

  /** Only a root has been paid for, so what is found is on the root. */
  lemma WalkedOnOk(w: World, plan: Plan)
    requires ChainsOk(w) && PlanOk(w, plan) && SettledOk(w.payments, w.captured)
    ensures PlanOk(w, WalkedOn(w, plan))
  {
    if plan.Walking? {
      assert LinkOk(w, plan.current);
    }
  }

  lemma ReversedSound(k: Scheme, b: Books, payer: nat, id: nat, paid: Option<J.Paid>)
    requires SchemeOk(k) && Sound(k, b)
    ensures Sound(k, J.RefundReversed(k, b, payer, id, paid))
  {
    var earned := J.Under(b.entries, Loyal(payer, PurchaseEarned, PaymentRef(id)));
    if earned.Some? {
      PostOnceSound(k, b, J.ReversalOf(payer, id, earned.value));
    }
    if paid.Some? {
      PostOnceSound(k, J.EarnReversed(k, b, payer, id),
                    PointsPost(paid.value.user, RedemptionReleased, BookingRef(paid.value.booking), paid.value.redeemed, 0, false));
    }
  }

  lemma PrizeReleasedKeepsMoney(w: World, b: nat, refunded: bool, now: int)
    requires MoneyOk(w)
    ensures MoneyOk(PrizeReleased(w, b, refunded, now))
  {
    MoneyUntouched(w, PrizeReleased(w, b, refunded, now));
  }

  lemma PaidBackKeepsMoney(k: Scheme, w: World, root: nat, id: nat, now: int)
    requires SchemeOk(k) && Sound(k, w.books) && MoneyOk(w) && root in w.given && root in w.bookings
    requires w.bookings[root].payment == Some(id) && (id in w.payments ==> w.payments[id].status != PaidBack)
    ensures id in w.payments
    ensures var paid := PaidBackTo(k, w, root, id);
            MoneyOk(PrizeReleased(paid, root, true, now)) && Sound(k, paid.books)
  {
    assert PayOk(w, root);
    MoneyBack(k, w, root, id);
    ReversedSound(k, w.books, w.payments[id].user, id, PaidOn(w, root));
    PrizeReleasedKeepsMoney(PaidBackTo(k, w, root, id), root, true, now);
  }

  lemma PrizeReleasedKeepsMinutes(w: World, b: nat, refunded: bool, now: int)
    requires MinutesOk(w)
    ensures MinutesOk(PrizeReleased(w, b, refunded, now))
  {
    MinutesKept(w, PrizeReleased(w, b, refunded, now));
  }

  lemma VoucherKeepsMinutes(w: World, root: nat, id: nat, expires: Option<int>, now: int)
    requires MinutesOk(w) && root in w.bookings
    ensures MinutesOk(VoucherBackTo(w, root, id, expires, now))
  {
    MinutesKept(w, VoucherBackTo(w, root, id, expires, now));
  }

  lemma VoucherBackKeeps(w: World, root: nat, id: nat, expires: Option<int>, now: int)
    requires MoneyOk(w) && root in w.bookings
    ensures MoneyOk(VoucherBackTo(w, root, id, expires, now))
  {
    MoneyUntouched(w, VoucherBackTo(w, root, id, expires, now));
  }

  lemma GivenBackKeepsMoney(k: Scheme, w: World, plan: Plan, now: int, running: bool)
    requires SchemeOk(k) && Sound(k, w.books) && MoneyOk(w)
    requires PlanOk(w, plan) && plan.Claim? && plan.funding.root in w.given
    requires Unpaid(w, plan)
    ensures var u := GivenBack(k, w, plan, now, running); MoneyOk(u) && Sound(k, u.books)
  {
    match plan.funding
    case PaidBy(root, id) =>
      PaidBackKeepsMoney(k, w, root, id, now);
    case VoucherOn(root, id) =>
      VoucherBackKeeps(w, root, id, plan.expires, now);
    case FreeSlotOn(root) =>
      PrizeReleasedKeepsMoney(w, root, true, now);
    case MinutesOn(root) =>
      MinutesBackKeepsMoney(k, w, root, running);
  }

  lemma GivenBackKeepsMinutes(k: Scheme, w: World, plan: Plan, now: int, running: bool)
    requires MinutesOk(w) && PlanOk(w, plan) && plan.Claim?
    ensures MinutesOk(GivenBack(k, w, plan, now, running))
  {
    match plan.funding
    case PaidBy(root, id) =>
      if id in w.payments {
        RefundReversedKeepsMinutes(k, w, root, id);
        PrizeReleasedKeepsMinutes(PaidBackTo(k, w, root, id), root, true, now);
      }
    case VoucherOn(root, id) => VoucherKeepsMinutes(w, root, id, plan.expires, now);
    case FreeSlotOn(root) => PrizeReleasedKeepsMinutes(w, root, true, now);
    case MinutesOn(root) => MinutesReleasedPairs(k, w, root, running);
  }

  lemma MinutesBackKeepsMoney(k: Scheme, w: World, root: nat, running: bool)
    requires SchemeOk(k) && Sound(k, w.books) && MoneyOk(w) && root in w.bookings
    ensures var u := MinutesBackTo(k, w, root, running); MoneyOk(u) && Sound(k, u.books)
  {
    var p := J.ReleaseOf(w.bookings[root].user, root, w.bookings[root].minutes);
    OtherPostKeeps(k, w, p);
    PostOnceSound(k, w.books, p);
  }

  ghost predicate Unpaid(w: World, plan: Plan)
    requires plan.Claim?
  {
    plan.funding.PaidBy? && plan.funding.payment in w.payments ==> w.payments[plan.funding.payment].status != PaidBack
  }

  lemma ClaimReady(k: Scheme, w: World, plan: Plan)
    requires WorldOk(k, w) && PlanOk(w, plan) && plan.Claim? && HasOpen(w, plan.booking)
    ensures plan.funding.root !in w.given
    ensures var u := ClaimedFor(w, plan.booking, plan.funding.root);
            WorldOk(k, u) && PlanOk(u, plan) && Unpaid(u, plan) && VoucherStands(u, plan)
  {
    ClaimKeeps(w, plan.booking);
    ClaimedMoney(w, plan.booking, plan.funding.root);
    ClaimedTokens(w, plan.booking, plan.funding.root);
    NotPaidBack(w, plan);
  }

  lemma ClaimedMoney(w: World, b: nat, root: nat)
    requires MoneyOk(w) && MinutesOk(w) && b in w.bookings
    ensures var u := ClaimedFor(w, b, root); MoneyOk(u) && MinutesOk(u)
  {
    MoneyUntouched(w, ClaimedFor(w, b, root));
    MinutesKept(w, ClaimedFor(w, b, root));
  }

  /** The payment of a chain not given back stands. */
  lemma NotPaidBack(w: World, plan: Plan)
    requires MoneyOk(w) && PlanOk(w, plan) && plan.Claim? && plan.funding.root !in w.given
    ensures Unpaid(w, plan)
  {
    if plan.funding.PaidBy? {
      assert PayOk(w, plan.funding.root);
    }
  }

  lemma GivenBackKeeps(k: Scheme, w: World, plan: Plan, now: int, running: bool)
    requires SchemeOk(k) && WorldOk(k, w) && PlanOk(w, plan) && plan.Claim? && Unpaid(w, plan) && plan.funding.root in w.given
    requires VoucherStands(w, plan)
    ensures WorldOk(k, GivenBack(k, w, plan, now, running)) && SameLinks(w, GivenBack(k, w, plan, now, running))
  {
    GivenBackKeepsMoney(k, w, plan, now, running);
    GivenBackKeepsMinutes(k, w, plan, now, running);
    GivenBackSettles(k, w, plan, now, running);
    GivenBackTokens(k, w, plan, now, running);
    GivenBackSameLinks(k, w, plan, now, running);
    SameLinksKeep(w, GivenBack(k, w, plan, now, running));
  }

  /** A refund whose claim succeeds gives back a chain never given back before, and a
      refused one writes nothing. */
  lemma RefundedByKeeps(k: Scheme, w: World, plan: Plan, now: int, running: bool)
    requires SchemeOk(k) && WorldOk(k, w) && PlanOk(w, plan) && !plan.Walking?
    ensures var (refusal, u) := RefundedBy(k, w, plan, now, running);
            && WorldOk(k, u)
            && (refusal.Some? ==> u == w)
            && (refusal.None? ==> plan.Claim? && HasOpen(w, plan.booking) && OutcomeOf(u, plan.booking) == Some(Refunded)
                                  && plan.funding.root !in w.given && u.given == w.given + [plan.funding.root])
  {
    if plan.Claim? && HasOpen(w, plan.booking) {
      ClaimReady(k, w, plan);
      GivenBackKeeps(k, ClaimedFor(w, plan.booking, plan.funding.root), plan, now, running);
    }
  }

  /** What a refund that goes through does: the booking and its entitlement are refunded,
      and what paid for the chain comes back. A voucher or prize is usable for at least
      thirty days and no less than it was; money is paid back with its points undone; and
      while a period runs the minutes released are exactly those spent. */
  lemma RefundGivesBack(k: Scheme, w: World, plan: Plan, now: int, running: bool)
    requires SchemeOk(k) && WorldOk(k, w) && PlanOk(w, plan) && plan.Claim? && HasOpen(w, plan.booking)
    ensures RefundedBy(k, w, plan, now, running).0.None?
    ensures var u := RefundedBy(k, w, plan, now, running).1;
            IsRefunded(u, plan.booking) && CameBack(w, u, plan, now, running)
  {
    ClaimReady(k, w, plan);
    var claimed := ClaimedFor(w, plan.booking, plan.funding.root);
    StaysRefunded(k, claimed, plan, now, running);
    FundingComesBack(k, claimed, plan, now, running);
    SameCameBack(w, claimed, GivenBack(k, claimed, plan, now, running), plan, now, running);
  }

  predicate IsRefunded(w: World, b: nat) {
    OutcomeOf(w, b) == Some(Refunded) && b in w.bookings && w.bookings[b].refunded
  }

  lemma StaysRefunded(k: Scheme, w: World, plan: Plan, now: int, running: bool)
    requires plan.Claim? && IsRefunded(w, plan.booking)
    ensures IsRefunded(GivenBack(k, w, plan, now, running), plan.booking)
  {
  }

  /** What paid for the chain, by the kind of it. */
  ghost predicate CameBack(w: World, u: World, plan: Plan, now: int, running: bool) {
    && plan.Claim? && !plan.funding.Nothing? && plan.funding.root in w.bookings
    && var root := plan.funding.root;
    && (plan.funding.VoucherOn? ==> VoucherBack(plan, u, now))
    && (plan.funding.FreeSlotOn? || plan.funding.PaidBy? ==> PrizeBack(w, u, root, now))
    && (plan.funding.PaidBy? ==> plan.funding.payment in u.payments && u.payments[plan.funding.payment].status == PaidBack)
    && (plan.funding.MinutesOn? && running ==>
          && J.Worth(u.books.entries, BookingSpend(root)) == (-w.bookings[root].minutes, 0)
          && J.Cancels(u.books.entries, BookingSpend(root), BookingRelease(root)))
  }

  lemma SameCameBack(w: World, claimed: World, u: World, plan: Plan, now: int, running: bool)
    requires plan.Claim? && !plan.funding.Nothing? && plan.funding.root in w.bookings && plan.funding.root in claimed.bookings
    requires claimed.bookings[plan.funding.root].prize == w.bookings[plan.funding.root].prize && claimed.prizes == w.prizes
    requires claimed.bookings[plan.funding.root].minutes == w.bookings[plan.funding.root].minutes
    requires CameBack(claimed, u, plan, now, running)
    ensures CameBack(w, u, plan, now, running)
  {
  }

  lemma FundingComesBack(k: Scheme, w: World, plan: Plan, now: int, running: bool)
    requires MoneyOk(w) && MinutesOk(w) && PlanOk(w, plan) && plan.Claim?
    ensures CameBack(w, GivenBack(k, w, plan, now, running), plan, now, running)
  {
    match plan.funding
    case PaidBy(root, id) => PaymentComesBack(k, w, plan, now, running);
    case VoucherOn(root, id) =>
    case FreeSlotOn(root) => PrizeComesBack(w, w, root, now);
    case MinutesOn(root) => MinutesReleasedPairs(k, w, root, running);
  }

  lemma PrizeComesBack(w: World, claimed: World, root: nat, now: int)
    requires root in w.bookings && root in claimed.bookings && claimed.bookings[root].prize == w.bookings[root].prize
    requires claimed.prizes == w.prizes
    ensures PrizeBack(w, PrizeReleased(claimed, root, true, now), root, now)
  {
  }

  lemma PaymentComesBack(k: Scheme, w: World, plan: Plan, now: int, running: bool)
    requires MoneyOk(w) && PlanOk(w, plan) && plan.Claim? && plan.funding.PaidBy?
    ensures var u := GivenBack(k, w, plan, now, running);
            && plan.funding.payment in u.payments && u.payments[plan.funding.payment].status == PaidBack
            && PrizeBack(w, u, plan.funding.root, now)
  {
    var (root, id) := (plan.funding.root, plan.funding.payment);
    assert PayOk(w, root);
    PrizeComesBack(w, PaidBackTo(k, w, root, id), root, now);
  }

  predicate VoucherBack(plan: Plan, u: World, now: int)
    requires plan.Claim? && plan.funding.VoucherOn?
  {
    var (root, id) := (plan.funding.root, plan.funding.voucher);
    && root in u.bookings && u.bookings[root].voucher.None?
    && id in u.vouchers && u.vouchers[id].active && u.vouchers[id].expires.Some?
    && u.vouchers[id].expires.value >= now + FLOOR_MS
    && (plan.expires.Some? ==> u.vouchers[id].expires.value >= plan.expires.value)
  }

  predicate PrizeBack(w: World, u: World, root: nat, now: int) {
    root in w.bookings && w.bookings[root].prize.Some? ==>
      var id := w.bookings[root].prize.value;
      id in w.prizes && w.prizes[id].redeemed ==>
        && root in u.bookings && u.bookings[root].prize.None?
        && id in u.prizes && !u.prizes[id].redeemed
        && u.prizes[id].expires >= now + FLOOR_MS && u.prizes[id].expires >= w.prizes[id].expires
  }

  /** What the desk answers to a refund nobody interrupts, read off the rows: `deep` is a chain
      of more than twelve bookings, and `paid` its first booking. */
  function Answered(w: World, open: bool, deep: bool, paid: Booking): Option<Refusal> {
    if !open then Some(NoOpenEntitlement)
    else if deep then Some(NothingToRefund)
    else if paid.payment.Some? then
      if paid.payment.value !in w.payments then Some(NothingToRefund)
      else
        match w.payments[paid.payment.value].status
        case Captured => if w.payments[paid.payment.value].sandbox then None else Some(ProviderRefundUnavailable)
        case _ => Some(NothingToRefund)
    else if paid.voucher.Some? || paid.minutes > 0 then None
    else if paid.prize.Some? && paid.prize.value in w.prizes && w.prizes[paid.prize.value].freeSlot then None
    else Some(NothingToRefund)
  }

  /** What has come back once it goes through: the money, or else the voucher, or else the
      free slot, or else the minutes. */
  ghost predicate PaidComesBack(w: World, u: World, root: nat, now: int, running: bool)
    requires root in w.bookings
  {
    var paid := w.bookings[root];
    if paid.payment.Some? then
      && paid.payment.value in u.payments && u.payments[paid.payment.value].status == PaidBack
      && PrizeBack(w, u, root, now) && u.vouchers == w.vouchers
    else if paid.voucher.Some? then
      && paid.voucher.value in u.vouchers && u.vouchers[paid.voucher.value].active
      && u.payments == w.payments && u.prizes == w.prizes && u.books == w.books
    else if paid.prize.Some? && paid.prize.value in w.prizes && w.prizes[paid.prize.value].freeSlot then
      PrizeBack(w, u, root, now) && u.payments == w.payments && u.vouchers == w.vouchers && u.books == w.books
    else
      && u.payments == w.payments && u.vouchers == w.vouchers && u.prizes == w.prizes
      && (running ==> J.Cancels(u.books.entries, BookingSpend(root), BookingRelease(root)))
  }

  /** A refund that looks, walks and claims with nothing in between: refused exactly as the rows
      say, and then it writes nothing; or else what the chain's first booking was paid with
      comes back. */
  lemma RefundExactly(k: Scheme, w: World, b: nat, now: int, running: bool)
    requires SchemeOk(k) && WorldOk(k, w) && b in w.bookings
    ensures RootOf(w, b) in w.bookings
    ensures var plan := WalkedFor(w, Looked(w, b), MAX_RESCHEDULE_CHAIN + 1);
            && !plan.Walking?
            && var (refusal, u) := RefundedBy(k, w, plan, now, running);
            && refusal == Answered(w, HasOpen(w, b), DepthOf(w, b) >= MAX_RESCHEDULE_CHAIN, w.bookings[RootOf(w, b)])
            && if refusal.Some? then u == w
               else IsRefunded(u, b) && u.given == w.given + [RootOf(w, b)] && PaidComesBack(w, u, RootOf(w, b), now, running)
  {
    assert LinkOk(w, b);
    PlanAnswers(w, b);
    if HasOpen(w, b) {
      WalkUninterrupted(w, Looked(w, b), MAX_RESCHEDULE_CHAIN + 1);
      if PlanOf(w, b).Claim? {
        ClaimComesBack(k, w, PlanOf(w, b), now, running);
      }
    } else {
      StandsStill(w, Looked(w, b), MAX_RESCHEDULE_CHAIN + 1);
    }
  }

  /** The plan read at one go is the answer the rows give. */
  lemma PlanAnswers(w: World, b: nat)
    requires ChainsOk(w) && SettledOk(w.payments, w.captured) && b in w.bookings
    ensures RootOf(w, b) in w.bookings && PlanOk(w, PlanOf(w, b)) && !PlanOf(w, b).Walking?
    ensures var (plan, paid) := (PlanOf(w, b), w.bookings[RootOf(w, b)]);
            && Answered(w, HasOpen(w, b), DepthOf(w, b) >= MAX_RESCHEDULE_CHAIN, paid)
               == (if plan.Refuse? then Some(plan.why) else None)
            && (plan.Claim? ==> HasOpen(w, b) && plan.booking == b && Finds(w, plan.funding, paid))
  {
    assert LinkOk(w, b);
    if HasOpen(w, b) {
      RefundOfChain(w, b);
    }
  }

  /** The funding is by the first that there is: a payment, a voucher, a free slot, minutes. */
  predicate Finds(w: World, found: Funding, paid: Booking) {
    match found
    case Nothing => false
    case PaidBy(_, id) => paid.payment == Some(id)
    case VoucherOn(_, id) => paid.payment.None? && paid.voucher == Some(id)
    case FreeSlotOn(_) =>
      && paid.payment.None? && paid.voucher.None?
      && paid.prize.Some? && paid.prize.value in w.prizes && w.prizes[paid.prize.value].freeSlot
    case MinutesOn(_) =>
      && paid.payment.None? && paid.voucher.None? && paid.minutes > 0
      && !(paid.prize.Some? && paid.prize.value in w.prizes && w.prizes[paid.prize.value].freeSlot)
  }

  lemma ClaimComesBack(k: Scheme, w: World, plan: Plan, now: int, running: bool)
    requires SchemeOk(k) && WorldOk(k, w) && PlanOk(w, plan) && plan.Claim? && HasOpen(w, plan.booking)
    requires Finds(w, plan.funding, w.bookings[plan.funding.root])
    ensures var (refusal, u) := RefundedBy(k, w, plan, now, running);
            && refusal.None? && IsRefunded(u, plan.booking) && u.given == w.given + [plan.funding.root]
            && PaidComesBack(w, u, plan.funding.root, now, running)
  {
    RefundGivesBack(k, w, plan, now, running);
    RefundedByKeeps(k, w, plan, now, running);
    OnlyThatComesBack(k, ClaimedFor(w, plan.booking, plan.funding.root), plan, now, running);
  }

  lemma OnlyThatComesBack(k: Scheme, w: World, plan: Plan, now: int, running: bool)
    requires plan.Claim?
    ensures var u := GivenBack(k, w, plan, now, running);
            && (!plan.funding.PaidBy? ==> u.payments == w.payments)
            && (!plan.funding.VoucherOn? ==> u.vouchers == w.vouchers)
            && (plan.funding.VoucherOn? || plan.funding.MinutesOn? ==> u.prizes == w.prizes)
            && (plan.funding.VoucherOn? || plan.funding.FreeSlotOn? ==> u.books == w.books)
  {
  }

  // ------------------------------------------------------------------
  // Any run
  // ------------------------------------------------------------------

  /** A booking keeps its payment and its chain, and an entitlement leaves OPEN for good. */
  ghost predicate Onward(w: World, u: World) {
    && (forall b :: b in w.bookings ==>
          && b in u.bookings && u.bookings[b].payment == w.bookings[b].payment
          && u.bookings[b].minutes == w.bookings[b].minutes && RootOf(u, b) == RootOf(w, b))
    && (forall b :: b in w.entitlements && w.entitlements[b] != Open ==> OutcomeOf(u, b) == Some(w.entitlements[b]))
    && (forall b :: HasOpen(w, b) && !HasOpen(u, b) ==> u.resolved == w.resolved + [b])
    && PaymentsOnward(w.payments, u.payments) && w.captured <= u.captured && OpenOnward(w, u)
  }

  /** An entitlement stays, and while one is open its chain's voucher does. */
  ghost predicate OpenOnward(w: World, u: World) {
    && (forall b :: b in w.entitlements ==> b in u.entitlements)
    && (forall b :: HasOpen(w, b) && HasOpen(u, b) && RootOf(w, b) in w.bookings ==>
          RootOf(w, b) in u.bookings && u.bookings[RootOf(w, b)].voucher == w.bookings[RootOf(w, b)].voucher)
  }

  lemma SameVouchersOnward(w: World, u: World)
    requires forall b :: b in w.entitlements ==> b in u.entitlements
    requires forall b :: b in w.bookings ==> b in u.bookings && u.bookings[b].voucher == w.bookings[b].voucher
    ensures OpenOnward(w, u)
  {
  }

  /** A payment stays, and of the same provider. */
  predicate PaymentsOnward(payments: map<nat, Payment>, after: map<nat, Payment>) {
    forall id :: id in payments ==> id in after && after[id].sandbox == payments[id].sandbox
  }

  lemma PlansKept(w: World, u: World, plans: map<nat, Plan>)
    requires Onward(w, u) && forall tx :: tx in plans ==> PlanOk(w, plans[tx])
    ensures forall tx :: tx in plans ==> PlanOk(u, plans[tx])
  {
  }

  datatype Step =
    | Book(id: nat, made: Booking, pay: Payment)
    | Capture(payment: nat, points: nat)
    | Entitle(booking: nat)
    | Reschedule(booking: nat, to: nat)
    | ReleaseHold(booking: nat, failed: bool, now: int, running: bool)
    | IssueVoucher(voucher: nat, expires: Option<int>)
    | DrawPrize(prize: nat, freeSlot: bool, until: int)
    | OtherPost(p: Post)

  /** A post that is about no booking and no payment. */
  predicate Elsewhere(p: Post) {
    (p.Name().Loyal? ==> p.Name().source.OtherRef?) && !p.Name().BookingSpend? && !p.Name().BookingRelease?
  }

  function Stepped(k: Scheme, w: World, s: Step): World {
    match s
    case Book(id, b, pay) => Booked(k, w, id, b, pay)
    case Capture(id, points) => CapturedBy(k, w, id, points)
    case Entitle(b) => Entitled(w, b)
    case Reschedule(b, to) => RescheduledTo(w, b, to)
    case ReleaseHold(b, failed, now, running) => HoldReleased(k, w, b, failed, now, running)
    case IssueVoucher(id, expires) =>
      if id in w.vouchers then w else w.(vouchers := w.vouchers[id := Voucher(true, expires)])
    case DrawPrize(id, freeSlot, until) =>
      if id in w.prizes then w else w.(prizes := w.prizes[id := Prize(freeSlot, false, until)])
    case OtherPost(p) => if Elsewhere(p) then w.(books := PostOnce(k, w.books, p).1) else w
  }

  lemma BookStep(k: Scheme, w: World, id: nat, b: Booking, pay: Payment)
    requires SchemeOk(k) && WorldOk(k, w)
    ensures WorldOk(k, Booked(k, w, id, b, pay))
  {
    BookedKeeps(k, w, id, b, pay);
    BookedKeepsMoney(k, w, id, b, pay);
    BookedKeepsMinutes(k, w, id, b, pay);
    BookedSettles(k, w, id, b, pay);
    BookedTokens(k, w, id, b, pay);
    BookedSound(k, w, id, b, pay);
  }

  lemma BookedSound(k: Scheme, w: World, id: nat, b: Booking, pay: Payment)
    requires SchemeOk(k) && Sound(k, w.books)
    ensures Sound(k, Booked(k, w, id, b, pay).books)
  {
    PostOnceSound(k, w.books, SpendOf(id, b));
    PostOnceSound(k, Reserved(k, w, id, b, pay).books, MinutesSpendOf(id, b));
  }

  lemma CaptureStep(k: Scheme, w: World, id: nat, points: nat)
    requires SchemeOk(k) && WorldOk(k, w)
    ensures WorldOk(k, CapturedBy(k, w, id, points))
  {
    CaptureKeeps(k, w, id, points);
    SameLinksKeep(w, CapturedBy(k, w, id, points));
    CapturedSound(k, w, id, points);
    CaptureKeepsMinutes(k, w, id, points);
    SameTokens(w, CapturedBy(k, w, id, points));
    CaptureSettles(k, w, id, points);
  }

  lemma CapturedSound(k: Scheme, w: World, id: nat, points: nat)
    requires SchemeOk(k) && Sound(k, w.books)
    ensures Sound(k, CapturedBy(k, w, id, points).books)
  {
    if id in w.payments {
      PostOnceSound(k, w.books, EarnOf(id, w.payments[id].user, points));
    }
  }

  lemma CaptureKeepsMinutes(k: Scheme, w: World, id: nat, points: nat)
    requires MinutesOk(w)
    ensures MinutesOk(CapturedBy(k, w, id, points))
  {
    if id in w.payments {
      PointsKeepMinutes(k, w, EarnOf(id, w.payments[id].user, points));
    }
  }

  lemma OtherStep(k: Scheme, w: World, p: Post)
    requires SchemeOk(k) && WorldOk(k, w) && Elsewhere(p)
    ensures WorldOk(k, w.(books := PostOnce(k, w.books, p).1))
  {
    PostOnceSound(k, w.books, p);
    OtherPostKeeps(k, w, p);
    PointsKeepMinutes(k, w, p);
    SameTokens(w, w.(books := PostOnce(k, w.books, p).1));
    SameLinksKeep(w, w.(books := PostOnce(k, w.books, p).1));
  }

  lemma EntitleStep(k: Scheme, w: World, b: nat)
    requires WorldOk(k, w)
    ensures WorldOk(k, Entitled(w, b))
  {
    EntitledKeeps(w, b);
    EntitledMoney(w, b);
    EntitledTokens(w, b);
  }

  lemma EntitledMoney(w: World, b: nat)
    requires MoneyOk(w) && MinutesOk(w)
    ensures MoneyOk(Entitled(w, b)) && MinutesOk(Entitled(w, b))
  {
    MoneyUntouched(w, Entitled(w, b));
    MinutesKept(w, Entitled(w, b));
  }

  lemma RescheduleStep(k: Scheme, w: World, b: nat, to: nat)
    requires WorldOk(k, w)
    ensures WorldOk(k, RescheduledTo(w, b, to))
  {
    RescheduleKeeps(w, b, to);
    RescheduleKeepsMoney(w, b, to);
    MinutesKept(w, RescheduledTo(w, b, to));
    RescheduledTokens(w, b, to);
  }

  lemma SteppedKeeps(k: Scheme, w: World, s: Step)
    requires SchemeOk(k) && WorldOk(k, w)
    ensures WorldOk(k, Stepped(k, w, s))
  {
    match s
    case Book(id, b, pay) => BookStep(k, w, id, b, pay);
    case Capture(id, points) => CaptureStep(k, w, id, points);
    case Entitle(b) => EntitleStep(k, w, b);
    case Reschedule(b, to) => RescheduleStep(k, w, b, to);
    case ReleaseHold(b, failed, now, running) => HoldStep(k, w, b, failed, now, running);
    case IssueVoucher(id, expires) => VoucherStep(k, w, id, expires);
    case DrawPrize(id, freeSlot, until) => PrizeStep(k, w, id, freeSlot, until);
    case OtherPost(p) =>
      if Elsewhere(p) {
        OtherStep(k, w, p);
      }
  }

  lemma VoucherStep(k: Scheme, w: World, id: nat, expires: Option<int>)
    requires WorldOk(k, w)
    ensures WorldOk(k, Stepped(k, w, IssueVoucher(id, expires)))
  {
    IssueStep(k, w, Stepped(k, w, IssueVoucher(id, expires)));
  }

  lemma PrizeStep(k: Scheme, w: World, id: nat, freeSlot: bool, until: int)
    requires WorldOk(k, w)
    ensures WorldOk(k, Stepped(k, w, DrawPrize(id, freeSlot, until)))
  {
    IssueStep(k, w, Stepped(k, w, DrawPrize(id, freeSlot, until)));
  }

  lemma IssueStep(k: Scheme, w: World, u: World)
    requires WorldOk(k, w) && u == w.(vouchers := u.vouchers, prizes := u.prizes)
    requires forall id :: id in w.vouchers ==> id in u.vouchers && u.vouchers[id] == w.vouchers[id]
    requires forall id :: id in w.prizes ==> id in u.prizes && u.prizes[id] == w.prizes[id]
    ensures WorldOk(k, u)
  {
    IssuedTokens(w, u);
    SameLinksKeep(w, u);
    MoneyUntouched(w, u);
    MinutesKept(w, u);
  }

  lemma RescheduleOnward(w: World, b: nat, to: nat)
    requires forall x :: x in w.chains.root ==> x in w.bookings
    ensures Onward(w, RescheduledTo(w, b, to))
  {
  }

  lemma ReserveOnward(k: Scheme, w: World, id: nat, b: Booking, pay: Payment)
    requires forall x :: x in w.chains.root ==> x in w.bookings
    ensures Onward(w, Reserved(k, w, id, b, pay))
  {
  }

  lemma BookOnward(k: Scheme, w: World, id: nat, b: Booking, pay: Payment)
    requires forall x :: x in w.chains.root ==> x in w.bookings
    ensures Onward(w, Booked(k, w, id, b, pay))
  {
    ReserveOnward(k, w, id, b, pay);
    BooksOnward(w, Reserved(k, w, id, b, pay), Booked(k, w, id, b, pay).books);
  }

  lemma BooksOnward(w: World, u: World, books: Books)
    requires Onward(w, u)
    ensures Onward(w, u.(books := books)) && Onward(w, w)
  {
  }

  lemma SameLinksOnward(w: World, u: World)
    requires SameLinks(w, u) && PaymentsOnward(w.payments, u.payments) && w.captured <= u.captured && OpenOnward(w, u)
    ensures Onward(w, u)
  {
  }

  lemma EntitleOnward(w: World, b: nat)
    ensures Onward(w, Entitled(w, b))
  {
  }

  lemma SteppedOnward(k: Scheme, w: World, s: Step)
    requires SchemeOk(k) && WorldOk(k, w)
    ensures Onward(w, Stepped(k, w, s))
  {
    match s
    case Book(id, b, pay) => BookOnward(k, w, id, b, pay);
    case Entitle(b) => EntitleOnward(w, b);
    case Reschedule(b, to) => RescheduleOnward(w, b, to);
    case ReleaseHold(b, failed, now, running) => HoldOnward(k, w, b, failed, now, running);
    case Capture(id, points) => CaptureOnward(k, w, id, points);
    case _ => OthersOnward(k, w, s);
  }

  lemma HoldOnward(k: Scheme, w: World, b: nat, failed: bool, now: int, running: bool)
    requires SchemeOk(k) && WorldOk(k, w)
    ensures Onward(w, HoldReleased(k, w, b, failed, now, running))
  {
    HoldStep(k, w, b, failed, now, running);
    HoldPays(k, w, b, failed, now, running);
    HoldVouchers(k, w, b, failed, now, running);
    SameVouchersOnward(w, HoldReleased(k, w, b, failed, now, running));
    SameLinksOnward(w, HoldReleased(k, w, b, failed, now, running));
  }

  lemma HoldVouchers(k: Scheme, w: World, b: nat, failed: bool, now: int, running: bool)
    ensures var u := HoldReleased(k, w, b, failed, now, running);
            forall x :: x in w.bookings ==> x in u.bookings && u.bookings[x].voucher == w.bookings[x].voucher
  {
  }

  lemma CaptureOnward(k: Scheme, w: World, id: nat, points: nat)
    requires SettledOk(w.payments, w.captured)
    ensures Onward(w, CapturedBy(k, w, id, points))
  {
    CaptureSettles(k, w, id, points);
    SameVouchersOnward(w, CapturedBy(k, w, id, points));
    SameLinksOnward(w, CapturedBy(k, w, id, points));
  }

  lemma OthersOnward(k: Scheme, w: World, s: Step)
    requires s.IssueVoucher? || s.DrawPrize? || s.OtherPost?
    ensures Onward(w, Stepped(k, w, s))
  {
    OthersAlike(w, Stepped(k, w, s));
  }

  lemma OthersAlike(w: World, u: World)
    requires u == w.(vouchers := u.vouchers, prizes := u.prizes, books := u.books)
    ensures Onward(w, u)
  {
    SameVouchersOnward(w, u);
    SameLinksOnward(w, u);
  }

  lemma RefundedByOnward(k: Scheme, w: World, plan: Plan, now: int, running: bool)
    requires !plan.Walking? && ChainsOk(w) && PlanOk(w, plan)
    ensures Onward(w, RefundedBy(k, w, plan, now, running).1)
  {
    if plan.Claim? && HasOpen(w, plan.booking) && plan.booking in w.bookings && !plan.funding.Nothing? {
      var claimed := ClaimedFor(w, plan.booking, plan.funding.root);
      GivenBackSameLinks(k, claimed, plan, now, running);
      GivenBackPays(k, claimed, plan, now, running);
      ClaimSparesOpen(k, w, plan, now, running);
      ClaimOnward(w, plan.booking, plan.funding.root, GivenBack(k, claimed, plan, now, running));
    }
  }

  /** A claim touches the voucher of its own chain alone, and nothing else of that is open. */
  lemma ClaimSparesOpen(k: Scheme, w: World, plan: Plan, now: int, running: bool)
    requires ChainsOk(w) && PlanOk(w, plan) && plan.Claim? && HasOpen(w, plan.booking)
    ensures OpenOnward(w, GivenBack(k, ClaimedFor(w, plan.booking, plan.funding.root), plan, now, running))
  {
    var claimed := ClaimedFor(w, plan.booking, plan.funding.root);
    var u := GivenBack(k, claimed, plan, now, running);
    GivenBackSameLinks(k, claimed, plan, now, running);
    OtherVouchersStay(k, claimed, plan, now, running);
    forall b | HasOpen(w, b) && HasOpen(u, b) && RootOf(w, b) in w.bookings
      ensures u.bookings[RootOf(w, b)].voucher == w.bookings[RootOf(w, b)].voucher
    {
      assert b != plan.booking && LinkOk(w, b) && LinkOk(w, plan.booking);
    }
  }

  lemma OtherVouchersStay(k: Scheme, w: World, plan: Plan, now: int, running: bool)
    requires plan.Claim? && !plan.funding.Nothing?
    ensures var u := GivenBack(k, w, plan, now, running);
            forall b :: b in w.bookings && b != plan.funding.root ==> b in u.bookings && u.bookings[b].voucher == w.bookings[b].voucher
  {
  }

  lemma ClaimOnward(w: World, b: nat, root: nat, u: World)
    requires b in w.bookings && HasOpen(w, b) && SameLinks(ClaimedFor(w, b, root), u)
    requires PaymentsOnward(w.payments, u.payments) && w.captured <= u.captured && OpenOnward(w, u)
    ensures Onward(w, u)
  {
  }

  lemma RescheduleKeepsMoney(w: World, b: nat, to: nat)
    requires MoneyOk(w)
    ensures MoneyOk(RescheduledTo(w, b, to))
  {
    var u := RescheduledTo(w, b, to);
    forall x {:trigger PayOk(u, x)} | x in u.bookings && u.bookings[x].payment.Some?
      ensures PayOk(u, x)
    {
      assert PayOk(w, x);
      PayKept(w, u, x);
    }
  }

  /** The rows, and how far each refund under way has read. */
  datatype Office = Office(w: World, plans: map<nat, Plan>)

  const NOBODY := Office(World(map[], map[], map[], map[], map[], NOTHING, [], [], {}, Chains(map[], map[], map[])), map[])

  datatype Act =
    | Other(s: Step)
    | LookFor(tx: nat, booking: nat)
    | WalkFor(tx: nat)
    | ClaimFor(tx: nat, now: int, running: bool)

  function Acted(k: Scheme, o: Office, a: Act): Office {
    match a
    case Other(s) => o.(w := Stepped(k, o.w, s))
    case LookFor(tx, b) => o.(plans := o.plans[tx := Looked(o.w, b)])
    case WalkFor(tx) => if tx in o.plans then o.(plans := o.plans[tx := WalkedOn(o.w, o.plans[tx])]) else o
    case ClaimFor(tx, now, running) =>
      if tx !in o.plans || o.plans[tx].Walking? then o
      else Office(RefundedBy(k, o.w, o.plans[tx], now, running).1, o.plans - {tx})
  }

  function ActedAll(k: Scheme, o: Office, acts: seq<Act>): Office {
    if acts == [] then o else Acted(k, ActedAll(k, o, acts[..|acts| - 1]), acts[|acts| - 1])
  }

  ghost predicate OfficeOk(k: Scheme, o: Office) {
    WorldOk(k, o.w) && forall tx :: tx in o.plans ==> PlanOk(o.w, o.plans[tx])
  }

  lemma ActedKeeps(k: Scheme, o: Office, a: Act)
    requires SchemeOk(k) && OfficeOk(k, o)
    ensures OfficeOk(k, Acted(k, o, a)) && Onward(o.w, Acted(k, o, a).w)
  {
    match a
    case Other(s) => OtherActs(k, o, s);
    case LookFor(tx, b) => LookedOk(o.w, b);
    case WalkFor(tx) =>
      if tx in o.plans {
        WalkedOnOk(o.w, o.plans[tx]);
      }
    case ClaimFor(tx, now, running) =>
      if tx in o.plans && !o.plans[tx].Walking? {
        ClaimActs(k, o, tx, now, running);
      }
  }

  lemma OtherActs(k: Scheme, o: Office, s: Step)
    requires SchemeOk(k) && OfficeOk(k, o)
    ensures OfficeOk(k, o.(w := Stepped(k, o.w, s))) && Onward(o.w, Stepped(k, o.w, s))
  {
    SteppedKeeps(k, o.w, s);
    SteppedOnward(k, o.w, s);
    PlansKept(o.w, Stepped(k, o.w, s), o.plans);
  }

  lemma ClaimActs(k: Scheme, o: Office, tx: nat, now: int, running: bool)
    requires SchemeOk(k) && OfficeOk(k, o) && tx in o.plans && !o.plans[tx].Walking?
    ensures var (refusal, u) := RefundedBy(k, o.w, o.plans[tx], now, running);
            && WorldOk(k, u) && Onward(o.w, u) && (forall t :: t in o.plans ==> PlanOk(u, o.plans[t]))
            && GivesAtMostOne(o.w, u, refusal.None?)
  {
    RefundedByKeeps(k, o.w, o.plans[tx], now, running);
    RefundedByOnward(k, o.w, o.plans[tx], now, running);
    PlansKept(o.w, RefundedBy(k, o.w, o.plans[tx], now, running).1, o.plans);
  }

  /** A chain never given back before, or nothing at all. */
  ghost predicate GivesAtMostOne(w: World, u: World, gives: bool) {
    if gives then |u.given| == |w.given| + 1 && u.given[..|w.given|] == w.given && u.given[|w.given|] !in w.given
    else u == w
  }

  lemma {:induction false} ActedAllKeeps(k: Scheme, o: Office, acts: seq<Act>)
    requires SchemeOk(k) && OfficeOk(k, o)
    ensures OfficeOk(k, ActedAll(k, o, acts))
  {
    if acts != [] {
      ActedAllKeeps(k, o, acts[..|acts| - 1]);
      ActedKeeps(k, ActedAll(k, o, acts[..|acts| - 1]), acts[|acts| - 1]);
    }
  }

  /** How often an entitlement leaves OPEN in the course of a run. */
  function Leavings(k: Scheme, acts: seq<Act>, b: nat): nat {
    if acts == [] then 0
    else
      var before := acts[..|acts| - 1];
      Leavings(k, before, b)
      + if HasOpen(ActedAll(k, NOBODY, before).w, b) && !HasOpen(ActedAll(k, NOBODY, acts).w, b) then 1 else 0
  }

  lemma LeavesForGood(w: World, u: World, b: nat)
    requires Onward(w, u) && LogOk(u)
    ensures b in w.entitlements && !HasOpen(w, b) ==> b in u.entitlements && !HasOpen(u, b)
    ensures HasOpen(w, b) && !HasOpen(u, b) ==> b in u.entitlements
  {
    if HasOpen(w, b) && !HasOpen(u, b) {
      assert ResolvedOk(u, u.resolved[|u.resolved| - 1]);
    }
  }

  lemma {:induction false} LeavesOnce(k: Scheme, acts: seq<Act>, b: nat)
    requires SchemeOk(k)
    ensures var w := ActedAll(k, NOBODY, acts).w;
            Leavings(k, acts, b) <= 1 && (Leavings(k, acts, b) == 1 ==> b in w.entitlements && !HasOpen(w, b))
  {
    if acts != [] {
      var before := acts[..|acts| - 1];
      LeavesOnce(k, before, b);
      StepsOnward(k, before, acts[|acts| - 1]);
      assert ActedAll(k, NOBODY, acts) == Acted(k, ActedAll(k, NOBODY, before), acts[|acts| - 1]);
      LeavesForGood(ActedAll(k, NOBODY, before).w, ActedAll(k, NOBODY, acts).w, b);
    }
  }

  lemma StepsOnward(k: Scheme, before: seq<Act>, a: Act)
    requires SchemeOk(k)
    ensures var (o, p) := (ActedAll(k, NOBODY, before), Acted(k, ActedAll(k, NOBODY, before), a));
            Onward(o.w, p.w) && LogOk(p.w)
  {
    ActedAllKeeps(k, NOBODY, before);
    ActedKeeps(k, ActedAll(k, NOBODY, before), a);
  }

  /** What holds of the rows: no chain is given back twice; a payment paid back is a sandbox
      one that had been captured, and has left no points behind, of its own or of its booking; a booking's minutes were spent, and if
      released at all released to the minute; and no voucher and no prize pays for two bookings
      at a time. */
  ghost predicate Square(w: World) {
    && Distinct(w.given)
    && (forall b :: b in w.bookings && w.bookings[b].payment.Some? ==>
          var id := w.bookings[b].payment.value;
          && id in w.payments
          && (w.payments[id].status == PaidBack ==>
                && w.payments[id].sandbox && id in w.captured
                && b in w.given
                && J.EarnCancels(w.books.entries, w.payments[id].user, id)
                && J.SpendCancels(w.books.entries, PaidOn(w, b).value)))
    && (forall b :: b in w.bookings && w.bookings[b].minutes > 0 ==>
          MinutesPaired(w.books.entries, b, w.bookings[b].minutes))
    && TokensOk(w)
  }

  lemma WorldSquare(k: Scheme, w: World)
    requires WorldOk(k, w)
    ensures Square(w)
  {
    forall b | b in w.bookings && w.bookings[b].payment.Some? ensures PayOk(w, b) {
    }
  }

  /** From nothing on, through any run of bookings, captures, lapses, reschedules and refunds,
      each of them read and claimed a row at a time: the rows are square, and an entitlement
      leaves OPEN at most once. */
  lemma RefundPromises(tiers: seq<Tier>, acts: seq<Act>, b: nat)
    requires TiersOk(tiers)
    ensures Square(ActedAll(SchemeOf(tiers), NOBODY, acts).w)
    ensures Leavings(SchemeOf(tiers), acts, b) <= 1
  {
    SchemeOfTiers(tiers);
    ActedAllKeeps(SchemeOf(tiers), NOBODY, acts);
    WorldSquare(SchemeOf(tiers), ActedAll(SchemeOf(tiers), NOBODY, acts).w);
    LeavesOnce(SchemeOf(tiers), acts, b);
  }

  /** The refund desk. */
  class Desk {
    const k: Scheme
    var w: World
    var plans: map<nat, Plan>

    ghost predicate Valid()
      reads this
    {
      SchemeOk(k) && OfficeOk(k, Office(w, plans))
    }

    constructor (tiers: seq<Tier>)
      requires TiersOk(tiers)
      ensures Valid() && k == SchemeOf(tiers) && Office(w, plans) == NOBODY
    {
      SchemeOfTiers(tiers);
      k := SchemeOf(tiers);
      w, plans := NOBODY.w, NOBODY.plans;
    }

    /** The loop back along the chain, when nothing else happens meanwhile: twelve bookings and
        no more. */
    method FindFunding(b: nat) returns (found: Funding)
      ensures found == Walk(w, b, MAX_RESCHEDULE_CHAIN)
    {
      found := Nothing;
      var current := Some(b);
      var step: nat := 0;
      while current.Some? && step < MAX_RESCHEDULE_CHAIN
        invariant step <= MAX_RESCHEDULE_CHAIN
        invariant found == Nothing
        invariant Walk(w, b, MAX_RESCHEDULE_CHAIN) ==
                  if current.None? then Nothing else Walk(w, current.value, MAX_RESCHEDULE_CHAIN - step)
        decreases MAX_RESCHEDULE_CHAIN - step
      {
        found := FundingAt(w, current.value);
        if found != Nothing { return; }
        current := Parent(w, current.value);
        step := step + 1;
      }
    }

    /** A refund looks at its entitlement. */
    method Look(tx: nat, b: nat)
      requires Valid()
      modifies this`plans
      ensures Valid() && Office(w, plans) == Acted(k, Office(w, old(plans)), LookFor(tx, b))
    {
      LookedOk(w, b);
      plans := plans[tx := Looked(w, b)];
    }

    /** It reads one booking more. */
    method WalkOn(tx: nat)
      requires Valid() && tx in plans
      modifies this`plans
      ensures Valid() && Office(w, plans) == Acted(k, Office(w, old(plans)), WalkFor(tx))
    {
      WalkedOnOk(w, plans[tx]);
      plans := plans[tx := WalkedOn(w, plans[tx])];
    }

    /** It claims and writes. A refusal writes nothing. */
    method Claim(tx: nat, now: int, running: bool) returns (refusal: Option<Refusal>)
      requires Valid() && tx in plans && !plans[tx].Walking?
      modifies this
      ensures Valid() && Onward(old(w), w)
      ensures Office(w, plans) == Acted(k, Office(old(w), old(plans)), ClaimFor(tx, now, running))
      ensures refusal == RefundedBy(k, old(w), old(plans)[tx], now, running).0
      ensures GivesAtMostOne(old(w), w, refusal.None?)
    {
      ClaimActs(k, Office(w, plans), tx, now, running);
      var (r, u) := RefundedBy(k, w, plans[tx], now, running);
      refusal, w, plans := r, u, plans - {tx};
    }

    method Do(s: Step)
      requires Valid()
      modifies this`w
      ensures Valid() && w == Stepped(k, old(w), s) && Onward(old(w), w)
    {
      ActedKeeps(k, Office(w, plans), Other(s));
      w := Stepped(k, w, s);
    }

    /** Refunds look, walk and claim, and everything else happens, in any order. */
    method Run(acts: seq<Act>)
      requires Valid()
      modifies this
      ensures Valid() && Office(w, plans) == ActedAll(k, Office(old(w), old(plans)), acts) && Square(w)
    {
      for i := 0 to |acts|
        invariant Valid() && Office(w, plans) == ActedAll(k, Office(old(w), old(plans)), acts[..i])
      {
        assert acts[..i + 1][..i] == acts[..i];
        Perform(acts[i]);
      }
      assert acts[..|acts|] == acts;
      WorldSquare(k, w);
    }

    method Perform(a: Act)
      requires Valid()
      modifies this
      ensures Valid() && Office(w, plans) == Acted(k, Office(old(w), old(plans)), a)
    {
      match a {
        case Other(s) => Do(s);
        case LookFor(tx, b) => Look(tx, b);
        case WalkFor(tx) =>
          if tx in plans {
            WalkOn(tx);
          }
        case ClaimFor(tx, now, running) =>
          if tx in plans && !plans[tx].Walking? {
            var _ := Claim(tx, now, running);
          }
      }
    }
  }
}
