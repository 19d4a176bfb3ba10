/**
 The calls that post to the ledgers, as one transaction sees them with nobody in the way:
 `postCreditEntry` and `postLoyaltyEntry`, and the callers that give back or take back
 (`packages/db/credits.ts`, `packages/db/loyalty.ts`).
 */
module Journal {
  import opened Common
  import opened Ledger

  // ------------------------------------------------------------------
  // What is recorded under a key
  // ------------------------------------------------------------------

  function Under(entries: seq<Entry>, key: Key): (found: Option<Entry>)
    ensures found.Some? <==> HasKey(entries, key)
    ensures found.Some? ==> found.value in entries && found.value.key == key
  {
    if entries == [] then None
    else if entries[|entries| - 1].key == key then Some(entries[|entries| - 1])
    else
      var found := Under(entries[..|entries| - 1], key);
      assert entries == entries[..|entries| - 1] + [entries[|entries| - 1]];
      found
  }

  /** Points and tier points under a key, nothing when it is not there. */
  function Worth(entries: seq<Entry>, key: Key): (int, int) {
    match Under(entries, key)
    case None => (0, 0)
    case Some(e) => (e.amount, e.tierPoints)
  }

  /** The two events cancel out. */
  predicate Cancels(entries: seq<Entry>, a: Key, b: Key) {
    && Worth(entries, a).0 + Worth(entries, b).0 == 0
    && Worth(entries, a).1 + Worth(entries, b).1 == 0
  }

  lemma UnderPush(entries: seq<Entry>, e: Entry, key: Key)
    ensures Under(entries + [e], key) == if e.key == key then Some(e) else Under(entries, key)
  {
    assert (entries + [e])[..|entries|] == entries;
  }

  /** A post changes what is under its own key, and only that. */
  lemma PostedUnder(k: Scheme, b: Books, p: Post, key: Key)
    ensures var (outcome, after) := PostOnce(k, b, p);
            && (key != p.Name() || outcome != Posted ==> Worth(after.entries, key) == Worth(b.entries, key))
            && (key != p.Name() || outcome != Posted ==> HasKey(after.entries, key) == HasKey(b.entries, key))
            && (outcome == Posted ==> Worth(after.entries, p.Name()) == (p.Amount(), p.TierPoints()))
            && (outcome == Posted ==> !HasKey(b.entries, p.Name()) && HasKey(after.entries, p.Name()))
  {
    var after := PostOnce(k, b, p).1;
    if PostOnce(k, b, p).0 == Posted {
      var e := after.entries[|b.entries|];
      UnderPush(b.entries, e, key);
      UnderPush(b.entries, e, p.Name());
    }
  }

  // ------------------------------------------------------------------
  // What giving back comes to
  // ------------------------------------------------------------------

  function ReleaseOf(user: nat, booking: nat, minutes: int): Post {
    MinutesPost(user, minutes, BookingRelease(booking), false)
  }

  /** Minutes of a booking that did not happen: back, but never into a period that has ended. */
  function MinutesReleased(k: Scheme, b: Books, user: nat, booking: nat, minutes: int, running: bool): Books {
    if minutes <= 0 || !running then b else PostOnce(k, b, ReleaseOf(user, booking, minutes)).1
  }

  function PointsReleased(k: Scheme, b: Books, user: nat, booking: nat, points: int): Books {
    if points <= 0 then b
    else PostOnce(k, b, PointsPost(user, RedemptionReleased, BookingRef(booking), points, 0, false)).1
  }

  function ReversalOf(user: nat, payment: nat, earned: Entry): Post {
    PointsPost(user, PurchaseReversed, PaymentRef(payment), -earned.amount, -earned.tierPoints, false)
  }

  function EarnReversed(k: Scheme, b: Books, user: nat, payment: nat): Books {
    match Under(b.entries, Loyal(user, PurchaseEarned, PaymentRef(payment)))
    case None => b
    case Some(earned) => PostOnce(k, b, ReversalOf(user, payment, earned)).1
  }

  /** A booking as the points know it. */
  datatype Paid = Paid(booking: nat, user: nat, redeemed: int)

  function RefundReversed(k: Scheme, b: Books, payer: nat, payment: nat, paid: Option<Paid>): Books {
    var reversed := EarnReversed(k, b, payer, payment);
    if paid.None? then reversed
    else PointsReleased(k, reversed, paid.value.user, paid.value.booking, paid.value.redeemed)
  }

  predicate EarnPaired(entries: seq<Entry>, user: nat, payment: nat) {
    HasKey(entries, Loyal(user, PurchaseReversed, PaymentRef(payment))) ==> EarnCancels(entries, user, payment)
  }

  predicate EarnCancels(entries: seq<Entry>, user: nat, payment: nat) {
    Cancels(entries, Loyal(user, PurchaseEarned, PaymentRef(payment)), Loyal(user, PurchaseReversed, PaymentRef(payment)))
  }

  /** The points a booking spent are on the ledger, and a release is of exactly those. */
  predicate SpendPaired(entries: seq<Entry>, p: Paid) {
    && (p.redeemed > 0 ==> Worth(entries, Loyal(p.user, Redeemed, BookingRef(p.booking))) == (-p.redeemed, 0))
    && (p.redeemed <= 0 ==> SpendCancels(entries, p))
    && (HasKey(entries, Loyal(p.user, RedemptionReleased, BookingRef(p.booking))) ==> SpendCancels(entries, p))
  }

  predicate SpendCancels(entries: seq<Entry>, p: Paid) {
    Cancels(entries, Loyal(p.user, Redeemed, BookingRef(p.booking)), Loyal(p.user, RedemptionReleased, BookingRef(p.booking)))
  }

  lemma EarnReversedCancels(k: Scheme, b: Books, user: nat, payment: nat)
    requires EarnPaired(b.entries, user, payment)
    ensures EarnCancels(EarnReversed(k, b, user, payment).entries, user, payment)
  {
    var earned := Under(b.entries, Loyal(user, PurchaseEarned, PaymentRef(payment)));
    if earned.Some? {
      var p := ReversalOf(user, payment, earned.value);
      PostedUnder(k, b, p, Loyal(user, PurchaseEarned, PaymentRef(payment)));
      PostedUnder(k, b, p, p.Name());
    }
  }

  lemma PointsReleasedCancels(k: Scheme, b: Books, p: Paid)
    requires SpendPaired(b.entries, p)
    ensures SpendCancels(PointsReleased(k, b, p.user, p.booking, p.redeemed).entries, p)
  {
    if p.redeemed > 0 {
      var post := PointsPost(p.user, RedemptionReleased, BookingRef(p.booking), p.redeemed, 0, false);
      PostedUnder(k, b, post, Loyal(p.user, Redeemed, BookingRef(p.booking)));
      PostedUnder(k, b, post, post.Name());
    }
  }

  /** Reversing a refunded payment touches what is under its own two keys, and no other. */
  lemma RefundReversedElsewhere(k: Scheme, b: Books, payer: nat, payment: nat, paid: Option<Paid>, key: Key)
    requires key != Loyal(payer, PurchaseReversed, PaymentRef(payment))
    requires paid.Some? ==> key != Loyal(paid.value.user, RedemptionReleased, BookingRef(paid.value.booking))
    ensures var after := RefundReversed(k, b, payer, payment, paid).entries;
            Worth(after, key) == Worth(b.entries, key) && HasKey(after, key) == HasKey(b.entries, key)
  {
    var earned := Under(b.entries, Loyal(payer, PurchaseEarned, PaymentRef(payment)));
    if earned.Some? {
      PostedUnder(k, b, ReversalOf(payer, payment, earned.value), key);
    }
    var reversed := EarnReversed(k, b, payer, payment);
    if paid.Some? && paid.value.redeemed > 0 {
      var p := paid.value;
      PostedUnder(k, reversed, PointsPost(p.user, RedemptionReleased, BookingRef(p.booking), p.redeemed, 0, false), key);
    }
  }

  /** Once a payment is refunded its earnings and its reversal sum to nothing, and so do the
      redemption on its booking and the release of it. */
  lemma RefundCancels(k: Scheme, b: Books, payer: nat, payment: nat, paid: Option<Paid>)
    requires EarnPaired(b.entries, payer, payment)
    requires paid.Some? ==> SpendPaired(b.entries, paid.value)
    ensures var after := RefundReversed(k, b, payer, payment, paid).entries;
            EarnCancels(after, payer, payment) && (paid.Some? ==> SpendCancels(after, paid.value))
  {
    EarnReversedCancels(k, b, payer, payment);
    var reversed := EarnReversed(k, b, payer, payment);
    if paid.Some? {
      var p := paid.value;
      RefundReversedElsewhere(k, b, payer, payment, None, Loyal(p.user, Redeemed, BookingRef(p.booking)));
      RefundReversedElsewhere(k, b, payer, payment, None, Loyal(p.user, RedemptionReleased, BookingRef(p.booking)));
      PointsReleasedCancels(k, reversed, p);
      var release := PointsPost(p.user, RedemptionReleased, BookingRef(p.booking), p.redeemed, 0, false);
      PostedUnder(k, reversed, release, Loyal(payer, PurchaseEarned, PaymentRef(payment)));
      PostedUnder(k, reversed, release, Loyal(payer, PurchaseReversed, PaymentRef(payment)));
    }
  }

  // ------------------------------------------------------------------
  // The calls
  // ------------------------------------------------------------------

  datatype Status = Active | Paused | Cancelled | Lapsed
  datatype Subscription = Subscription(id: nat, status: Status, periodEnd: Option<int>)

  predicate PeriodRuns(s: Option<Subscription>, now: int) {
    s.Some? && s.value.periodEnd.Some? && s.value.periodEnd.value > now
  }

  /** One transaction's view of the two ledgers. */
  class Journal {
    const tiers: seq<Tier>
    var books: Books

    ghost predicate Valid()
      reads this
    {
      TiersOk(tiers) && Sound(SchemeOf(tiers), books)
    }

    constructor (tiers: seq<Tier>)
      requires TiersOk(tiers)
      ensures Valid() && books == NOTHING && this.tiers == tiers
    {
      this.tiers, books := tiers, NOTHING;
    }

    /** A private-session debit throws, and the call leaves nothing behind. */
    method PostCreditEntry(p: Post) returns (threw: bool, outcome: Outcome)
      requires Valid() && p.MinutesPost?
      modifies this
      ensures Valid() && threw == p.privateSession
      ensures threw ==> books == old(books)
      ensures !threw ==> (outcome, books) == PostOnce(SchemeOf(tiers), old(books), p) && outcome == Answer(old(books.entries), p)
    {
      if p.privateSession { return true, Duplicate; }
      SchemeOfTiers(tiers);
      PostOnceSound(SchemeOf(tiers), books, p);
      PostAnswers(SchemeOf(tiers), books, p);
      var after;
      outcome, after := PostMinutes(books, p);
      threw, books := false, after;
    }

    method PostMinutes(books: Books, p: Post) returns (outcome: Outcome, after: Books)
      requires tiers != [] && p.MinutesPost?
      ensures (outcome, after) == PostOnce(SchemeOf(tiers), books, p)
    {
      var account := Minutes(p.user);
      var b := WithAccount(SchemeOf(tiers), books, account);
      if HasKey(b.entries, p.key) { return Duplicate, b; }
      var row := b.accounts[account];
      if p.amount < 0 {
        if row.balance < -p.amount { return Insufficient, b; }
        row := row.(balance := row.balance + p.amount);
      } else if p.amount > 0 {
        row := row.(balance := row.balance + p.amount);
      }
      return Posted, Books(b.accounts[account := row], b.entries + [Entry(account, p.amount, 0, p.key, Some(row.balance), true)]);
    }

    method PostLoyaltyEntry(p: Post) returns (outcome: Outcome)
      requires Valid() && p.PointsPost?
      modifies this
      ensures Valid() && (outcome, books) == PostOnce(SchemeOf(tiers), old(books), p)
      ensures outcome == Answer(old(books.entries), p)
    {
      SchemeOfTiers(tiers);
      PostOnceSound(SchemeOf(tiers), books, p);
      PostAnswers(SchemeOf(tiers), books, p);
      var after;
      outcome, after := PostPoints(books, p);
      books := after;
    }

    method PostPoints(books: Books, p: Post) returns (outcome: Outcome, after: Books)
      requires tiers != [] && p.PointsPost?
      ensures (outcome, after) == PostOnce(SchemeOf(tiers), books, p)
    {
      var account, key := Points(p.user), Loyal(p.user, p.kind, p.source);
      var b := WithAccount(SchemeOf(tiers), books, account);
      if HasKey(b.entries, key) { return Duplicate, b; }
      var row := b.accounts[account];
      if p.refuseNegative && p.points < 0 && row.balance < -p.points { return Insufficient, b; }
      row := row.(balance := row.balance + p.points, tierPoints := row.tierPoints + p.earned);
      if p.earned != 0 {
        row := row.(tier := TierFor(tiers, row.tierPoints).code);
      }
      return Posted, Books(b.accounts[account := row], b.entries + [Entry(account, p.points, p.earned, key, None, p.refuseNegative)]);
    }

    /** A spend needs a running period of a subscription nobody has ended. */
    method SpendBookingMinutes(s: Option<Subscription>, user: nat, booking: nat, minutes: int, now: int)
      returns (outcome: Option<Outcome>)
      requires Valid()
      modifies this
      ensures Valid()
      ensures outcome.None? <==> !(PeriodRuns(s, now) && (s.value.status.Active? || s.value.status.Paused?))
      ensures outcome.None? ==> books == old(books)
      ensures outcome == Some(Posted) ==>
                && Worth(books.entries, BookingSpend(booking)) == (-minutes, 0)
                && Sum(books.entries, Minutes(user)) == Sum(old(books.entries), Minutes(user)) - minutes
    {
      if !PeriodRuns(s, now) || !(s.value.status.Active? || s.value.status.Paused?) { return None; }
      var p := MinutesPost(user, -minutes, BookingSpend(booking), false);
      var _, posted := PostCreditEntry(p);
      PostedUnder(SchemeOf(tiers), old(books), p, BookingSpend(booking));
      if posted == Posted {
        SumPush(old(books.entries), books.entries[|books.entries| - 1], Minutes(user));
      }
      return Some(posted);
    }

    /** The minutes a booking spent come back once, and only while a period runs. */
    method ReleaseSpentMinutes(s: Option<Subscription>, user: nat, booking: nat, minutes: int, now: int)
      requires Valid()
      modifies this
      ensures Valid()
      ensures books == MinutesReleased(SchemeOf(tiers), old(books), user, booking, minutes, PeriodRuns(s, now))
      ensures minutes > 0 && PeriodRuns(s, now) ==> HasKey(books.entries, BookingRelease(booking))
      ensures HasKey(old(books.entries), BookingRelease(booking)) ==> books.entries == old(books.entries)
    {
      if minutes <= 0 || !PeriodRuns(s, now) { return; }
      var _, _ := PostCreditEntry(ReleaseOf(user, booking, minutes));
      PostedUnder(SchemeOf(tiers), old(books), ReleaseOf(user, booking, minutes), BookingRelease(booking));
    }

    /** At a period's end what is left goes, once: the balance is nothing afterwards. */
    method ExpireSubscriptionMinutes(subscription: nat, user: nat, periodEnd: int) returns (outcome: Option<Outcome>)
      requires Valid()
      modifies this
      ensures Valid() && outcome != Some(Insufficient)
      ensures outcome.None? ==> books == old(books)
      ensures outcome.Some? && outcome.value == Posted ==> Sum(books.entries, Minutes(user)) == 0
      ensures outcome == Some(Duplicate) <==>
                Sum(old(books.entries), Minutes(user)) > 0 && HasKey(old(books.entries), PeriodExpiry(subscription, periodEnd))
    {
      if Minutes(user) !in books.accounts {
        SumAbsent(books.entries, Minutes(user));
        return None;
      }
      var balance := books.accounts[Minutes(user)].balance;
      if balance <= 0 { return None; }
      var _, posted := PostCreditEntry(MinutesPost(user, -balance, PeriodExpiry(subscription, periodEnd), false));
      return Some(posted);
    }

    /** The points a booking spent come back once. */
    method ReleaseRedeemedPoints(user: nat, booking: nat, points: int)
      requires Valid()
      modifies this
      ensures Valid() && books == PointsReleased(SchemeOf(tiers), old(books), user, booking, points)
    {
      if points > 0 {
        var _ := PostLoyaltyEntry(PointsPost(user, RedemptionReleased, BookingRef(booking), points, 0, false));
      }
    }

    method ReverseEarned(payer: nat, payment: nat)
      requires Valid()
      modifies this
      ensures Valid() && books == EarnReversed(SchemeOf(tiers), old(books), payer, payment)
    {
      var earned := Under(books.entries, Loyal(payer, PurchaseEarned, PaymentRef(payment)));
      if earned.Some? {
        var _ := PostLoyaltyEntry(ReversalOf(payer, payment, earned.value));
      }
    }

    /** A refunded payment's earnings are reversed by the exact amount recorded, and the
        points its booking spent are given back. */
    method ReverseLoyaltyForRefund(payer: nat, payment: nat, paid: Option<Paid>)
      requires Valid()
      modifies this
      ensures Valid() && books == RefundReversed(SchemeOf(tiers), old(books), payer, payment, paid)
    {
      ReverseEarned(payer, payment);
      if paid.Some? {
        ReleaseRedeemedPoints(paid.value.user, paid.value.booking, paid.value.redeemed);
      }
    }
  }
}
