/**
 The two ledgers behind bookings: observation minutes (`packages/db/credits.ts`) and
 loyalty points (`packages/db/loyalty.ts`).

 A post is several statements, and several transactions post at once, so the ledgers are
 modelled statement by statement. What is taken from the database is this much: a
 statement is atomic and sees what is committed and its own transaction's writes; a row
 that is written, or created, stays locked until its transaction commits or aborts; a
 unique key that another transaction has written but not committed makes an insert wait;
 an abort leaves nothing behind. A statement that has to wait leaves the state as it is.
 */
module Ledger {
  import opened Common

  /** A user's minutes or a user's points. */
  datatype Account = Minutes(user: nat) | Points(user: nat)

  /** An account's row. Minutes have no tier. */
  datatype Row = Row(balance: int, tierPoints: int, tier: nat)

  datatype Kind = PurchaseEarned | PurchaseReversed | Redeemed | RedemptionReleased | ReferralBonus | Adjusted
  datatype Source = PaymentRef(id: nat) | BookingRef(id: nat) | OtherRef(id: nat)

  /** What makes an entry unique: the event it records. */
  datatype Key =
    | BookingSpend(booking: nat)
    | BookingRelease(booking: nat)
    | PeriodExpiry(subscription: nat, end: int)
    | PeriodGrant(subscription: nat, begin: int)
    | OtherCredit(name: string)
    | Loyal(user: nat, kind: Kind, source: Source)

  /** `guarded` is not stored: whether the post was to be refused rather than take the account
      below nothing. */
  datatype Entry = Entry(account: Account, amount: int, tierPoints: int, key: Key, balanceAfter: Option<int>,
                         guarded: bool)

  /** What is asked of a ledger. `refuseNegative` is the caller's choice for points and
      always so for minutes. */
  datatype Post =
    | MinutesPost(user: nat, amount: int, key: Key, privateSession: bool)
    | PointsPost(user: nat, kind: Kind, source: Source, points: int, earned: int, refuseNegative: bool)
  {
    function Of(): Account { if MinutesPost? then Minutes(user) else Points(user) }
    function Amount(): int { if MinutesPost? then amount else points }
    function TierPoints(): int { if MinutesPost? then 0 else earned }
    function Name(): Key { if MinutesPost? then key else Loyal(user, kind, source) }
    predicate Guarded() { MinutesPost? || refuseNegative }
    predicate Conditional() { Amount() < 0 && Guarded() }
    /** Minutes leave the row alone for an amount of nothing; points always write it. */
    predicate Updates() { PointsPost? || amount != 0 }
    function Moved(r: Row): Row { r.(balance := r.balance + Amount(), tierPoints := r.tierPoints + TierPoints()) }
    function MovedBack(r: Row): Row { r.(balance := r.balance - Amount(), tierPoints := r.tierPoints - TierPoints()) }
    function Recorded(seen: int): Entry {
      Entry(Of(), Amount(), TierPoints(), Name(), if MinutesPost? then Some(seen) else None, Guarded())
    }
  }

  datatype Outcome = Posted | Duplicate | Insufficient

  // ------------------------------------------------------------------
  // Tiers
  // ------------------------------------------------------------------

  datatype Tier = Tier(code: nat, threshold: int)

  /** In order of their thresholds, which are unique, and the lowest starts at nothing. */
  predicate TiersOk(tiers: seq<Tier>) {
    && tiers != [] && tiers[0].threshold == 0
    && forall i, j :: 0 <= i < j < |tiers| ==> tiers[i].threshold < tiers[j].threshold
  }

  function Reached(tiers: seq<Tier>, points: int): seq<Tier> {
    if tiers == [] then []
    else Reached(tiers[..|tiers| - 1], points)
         + if tiers[|tiers| - 1].threshold <= points then [tiers[|tiers| - 1]] else []
  }

  function TierFor(tiers: seq<Tier>, tierPoints: int): Tier
    requires tiers != []
  {
    var reached := Reached(tiers, if tierPoints > 0 then tierPoints else 0);
    if reached == [] then tiers[0] else reached[|reached| - 1]
  }

  /** No tier reached lies above it; with negative points it is the lowest. */
  lemma {:induction false} TierForIsHighest(tiers: seq<Tier>, tierPoints: int)
    requires TiersOk(tiers)
    ensures var tier := TierFor(tiers, tierPoints);
            && tier in tiers
            && (tierPoints <= 0 ==> tier == tiers[0])
            && (tierPoints >= 0 ==> tier.threshold <= tierPoints)
            && forall other :: other in tiers && other.threshold <= tierPoints ==> other.threshold <= tier.threshold
  {
    ReachedIsPrefix(tiers, if tierPoints > 0 then tierPoints else 0);
  }

  lemma {:induction false} ReachedIsPrefix(tiers: seq<Tier>, points: int)
    requires points >= 0
    requires forall i, j :: 0 <= i < j < |tiers| ==> tiers[i].threshold < tiers[j].threshold
    ensures |Reached(tiers, points)| <= |tiers|
    ensures Reached(tiers, points) == tiers[..|Reached(tiers, points)|]
    ensures forall i :: 0 <= i < |tiers| ==> (tiers[i].threshold <= points <==> i < |Reached(tiers, points)|)
  {
    if tiers != [] {
      ReachedIsPrefix(tiers[..|tiers| - 1], points);
    }
  }

  /** The scheme as the posts use it. */
  datatype Scheme = Scheme(lowest: nat, tierOf: int -> nat)

  predicate SchemeOk(k: Scheme) { k.tierOf(0) == k.lowest }

  function SchemeOf(tiers: seq<Tier>): Scheme
    requires tiers != []
  {
    Scheme(tiers[0].code, (points: int) => TierFor(tiers, points).code)
  }

  lemma SchemeOfTiers(tiers: seq<Tier>)
    requires TiersOk(tiers)
    ensures SchemeOk(SchemeOf(tiers))
  {
    TierForIsHighest(tiers, 0);
  }

  // ------------------------------------------------------------------
  // The books
  // ------------------------------------------------------------------

  datatype Books = Books(accounts: map<Account, Row>, entries: seq<Entry>)

  function Sum(entries: seq<Entry>, a: Account): int {
    if entries == [] then 0
    else var last := entries[|entries| - 1];
         Sum(entries[..|entries| - 1], a) + if last.account == a then last.amount else 0
  }

  function TierSum(entries: seq<Entry>, a: Account): int {
    if entries == [] then 0
    else var last := entries[|entries| - 1];
         TierSum(entries[..|entries| - 1], a) + if last.account == a then last.tierPoints else 0
  }

  lemma {:induction false} SumAppend(s: seq<Entry>, t: seq<Entry>, a: Account)
    ensures Sum(s + t, a) == Sum(s, a) + Sum(t, a)
    ensures TierSum(s + t, a) == TierSum(s, a) + TierSum(t, a)
  {
    if t == [] {
      assert s + t == s;
    } else {
      var n := |t| - 1;
      assert (s + t)[..|s + t| - 1] == s + t[..n];
      SumAppend(s, t[..n], a);
    }
  }

  lemma {:induction false} SumAbsent(s: seq<Entry>, a: Account)
    requires forall i :: 0 <= i < |s| ==> s[i].account != a
    ensures Sum(s, a) == 0 && TierSum(s, a) == 0
  {
    if s != [] {
      SumAbsent(s[..|s| - 1], a);
    }
  }

  predicate HasKey(s: seq<Entry>, key: Key) {
    exists i :: 0 <= i < |s| && s[i].key == key
  }

  predicate KeysUnique(s: seq<Entry>) {
    forall i, j :: 0 <= i < j < |s| ==> s[i].key != s[j].key
  }

  /** A nonzero entry of minutes records the balance it left behind. */
  predicate BalanceRecorded(e: Entry, balance: int) {
    e.account.Minutes? && e.amount != 0 ==> e.balanceAfter == Some(balance)
  }

  /** A guarded entry that takes away leaves nothing or more. */
  predicate Covered(e: Entry, balance: int) {
    e.guarded && e.amount < 0 ==> balance >= 0
  }

  predicate EntryOk(e: Entry, balance: int) {
    BalanceRecorded(e, balance) && Covered(e, balance)
  }

  predicate RowOk(k: Scheme, a: Account, r: Row, sum: int, tierSum: int)
  {
    && r.balance == sum && r.tierPoints == tierSum
    && (a.Minutes? ==> r.balance >= 0)
    && (a.Points? ==> r.tier == k.tierOf(r.tierPoints))
  }

  /** Every nonzero entry of minutes records the sum of the entries up to it, and no guarded
      entry takes that sum below nothing. `before` is what the accounts held ahead of these
      entries. */
  ghost predicate Balanced(before: map<Account, Row>, entries: seq<Entry>) {
    entries != [] ==>
      var last := entries[|entries| - 1];
      && Balanced(before, entries[..|entries| - 1])
      && EntryOk(last, Held(before, last.account).balance + Sum(entries, last.account))
  }

  function Held(accounts: map<Account, Row>, a: Account): Row {
    if a in accounts then accounts[a] else Row(0, 0, 0)
  }

  /** The law of the ledgers. */
  ghost predicate Sound(k: Scheme, b: Books)
  {
    && (forall a :: a in b.accounts ==> RowOk(k, a, b.accounts[a], Sum(b.entries, a), TierSum(b.entries, a)))
    && (forall i :: 0 <= i < |b.entries| ==> b.entries[i].account in b.accounts)
    && KeysUnique(b.entries)
    && Balanced(map[], b.entries)
  }

  // ------------------------------------------------------------------
  // Transactions
  // ------------------------------------------------------------------

  /** Which statement of a post comes next. `seen` is the balance the post read back. */
  datatype Pc =
    | Idle
    | Ensuring(p: Post)
    | Finding(p: Post)
    | Claiming(p: Post)
    | Reading(p: Post)
    | Inserting(p: Post, seen: int)
    | Compensating(p: Post)
    | Retiering(p: Post)

  /** An open transaction: the rows it has written and holds, the entries it has inserted. */
  datatype Tx = Tx(pc: Pc, writes: map<Account, Row>, rows: seq<Entry>, last: Option<Outcome>)

  const OPENED := Tx(Idle, map[], [], None)

  datatype Db = Db(tiers: seq<Tier>, books: Books, txs: map<nat, Tx>)

  function TxOf(db: Db, id: nat): Tx {
    if id in db.txs then db.txs[id] else OPENED
  }

  predicate LockedByAnother(db: Db, id: nat, a: Account) {
    exists other :: other in db.txs && other != id && a in db.txs[other].writes
  }

  predicate KeyHeldByAnother(db: Db, id: nat, key: Key) {
    exists other :: other in db.txs && other != id && HasKey(db.txs[other].rows, key)
  }

  predicate Exists(b: Books, tx: Tx, a: Account) { a in tx.writes || a in b.accounts }

  function Visible(b: Books, tx: Tx, a: Account): Row
    requires Exists(b, tx, a)
  {
    if a in tx.writes then tx.writes[a] else b.accounts[a]
  }

  // ------------------------------------------------------------------
  // The statements
  // ------------------------------------------------------------------

  function Finished(tx: Tx, outcome: Outcome): Tx { tx.(pc := Idle, last := Some(outcome)) }

  /** One statement of the post a transaction is in. `locked`: another transaction holds the
      row the statement needs; `keyHeld`: another has inserted the key. It then waits. */
  function Executed(k: Scheme, b: Books, tx: Tx, locked: bool, keyHeld: bool): Tx
  {
    match tx.pc
    case Idle => tx
    case Ensuring(p) => Ensured(k, b, tx, p, locked)
    case Finding(p) =>
      if HasKey(b.entries, p.Name()) || HasKey(tx.rows, p.Name()) then Finished(tx, Duplicate)
      else tx.(pc := Claiming(p))
    case Claiming(p) => Claimed(b, tx, p, locked)
    case Reading(p) =>
      if !Exists(b, tx, p.Of()) then tx
      else tx.(pc := Inserting(p, Visible(b, tx, p.Of()).balance))
    case Inserting(p, seen) => Inserted(b, tx, p, seen, keyHeld)
    case Compensating(p) => Compensated(b, tx, p, locked)
    case Retiering(p) => Retiered(k, tx, p)
  }

  function Statement(db: Db, id: nat): Tx
    requires db.tiers != []
  {
    var tx := TxOf(db, id);
    if tx.pc.Idle? then tx
    else Executed(SchemeOf(db.tiers), db.books, tx, LockedByAnother(db, id, tx.pc.p.Of()), KeyHeldByAnother(db, id, tx.pc.p.Name()))
  }

  /** A missing account row is made, with nothing on it. */
  function Ensured(k: Scheme, b: Books, tx: Tx, p: Post, locked: bool): Tx
  {
    if Exists(b, tx, p.Of()) then tx.(pc := Finding(p))
    else if locked then tx
    else tx.(writes := tx.writes[p.Of() := Row(0, 0, k.lowest)], pc := Finding(p))
  }

  /** The balance moves before the entry is written; a spend only if the balance covers it. */
  function Claimed(b: Books, tx: Tx, p: Post, locked: bool): Tx {
    var next := if p.MinutesPost? then Reading(p) else Inserting(p, 0);
    if !p.Updates() then tx.(pc := next)
    else if locked || !Exists(b, tx, p.Of()) then tx
    else
      var row := Visible(b, tx, p.Of());
      if p.Conditional() && row.balance < -p.Amount() then Finished(tx, Insufficient)
      else tx.(writes := tx.writes[p.Of() := p.Moved(row)], pc := next)
  }

  /** The entry is written unless its key exists: then the balance is put back. */
  function Inserted(b: Books, tx: Tx, p: Post, seen: int, keyHeld: bool): Tx {
    if keyHeld then tx
    else if HasKey(b.entries, p.Name()) || HasKey(tx.rows, p.Name()) then tx.(pc := Compensating(p))
    else
      var written := tx.(rows := tx.rows + [p.Recorded(seen)]);
      if p.TierPoints() != 0 then written.(pc := Retiering(p)) else Finished(written, Posted)
  }

  function Compensated(b: Books, tx: Tx, p: Post, locked: bool): Tx {
    if locked || !Exists(b, tx, p.Of()) then tx
    else Finished(tx.(writes := tx.writes[p.Of() := p.MovedBack(Visible(b, tx, p.Of()))]), Duplicate)
  }

  function Retiered(k: Scheme, tx: Tx, p: Post): Tx
  {
    if p.Of() !in tx.writes then tx
    else
      var row := tx.writes[p.Of()];
      Finished(tx.(writes := tx.writes[p.Of() := row.(tier := k.tierOf(row.tierPoints))]), Posted)
  }

  datatype Event = Start(id: nat, p: Post) | Advance(id: nat) | Commit(id: nat) | Abort(id: nat)

  function Committed(b: Books, tx: Tx): Books {
    Books(b.accounts + tx.writes, b.entries + tx.rows)
  }

  /** One step of any transaction. A private-session debit throws, which aborts. */
  function Step(db: Db, e: Event): Db
    requires db.tiers != []
  {
    var tx := TxOf(db, e.id);
    match e
    case Start(id, p) =>
      if tx.pc != Idle then db
      else if p.MinutesPost? && p.privateSession then db.(txs := db.txs - {id})
      else db.(txs := db.txs[id := tx.(pc := Ensuring(p))])
    case Advance(id) => db.(txs := db.txs[id := Statement(db, id)])
    case Commit(id) =>
      if tx.pc != Idle then db
      else db.(books := Committed(db.books, tx), txs := db.txs - {id})
    case Abort(id) => db.(txs := db.txs - {id})
  }

  function Run(db: Db, events: seq<Event>): (r: Db)
    requires db.tiers != []
    ensures r.tiers == db.tiers
  {
    if events == [] then db else Step(Run(db, events[..|events| - 1]), events[|events| - 1])
  }

  // ------------------------------------------------------------------
  // What every step keeps
  // ------------------------------------------------------------------

  /** The post whose claim is on the row but whose entry is not. */
  predicate InFlight(pc: Pc, a: Account) {
    (pc.Reading? || pc.Inserting? || pc.Compensating?) && pc.p.Of() == a
  }

  function Floating(pc: Pc, a: Account): int { if InFlight(pc, a) then pc.p.Amount() else 0 }
  function TierFloating(pc: Pc, a: Account): int { if InFlight(pc, a) then pc.p.TierPoints() else 0 }

  /** Whether the tier on the row may lag behind its points. */
  predicate TierLags(pc: Pc, a: Account) {
    InFlight(pc, a) || (pc.Retiering? && pc.p.Of() == a)
  }

  /** A held row is what is settled (committed, or entered by this transaction) and the
      claim in flight. */
  ghost predicate HeldOk(k: Scheme, pc: Pc, a: Account, row: Row, settled: int, tierSettled: int)
  {
    && row.balance == settled + Floating(pc, a)
    && row.tierPoints == tierSettled + TierFloating(pc, a)
    && (a.Minutes? ==> settled >= 0 && row.balance >= 0)
    && (InFlight(pc, a) && pc.p.Guarded() && pc.p.Amount() < 0 ==> row.balance >= 0)
    && (a.Points? && !TierLags(pc, a) ==> row.tier == k.tierOf(row.tierPoints))
    && (a.Points? && InFlight(pc, a) ==> row.tier == k.tierOf(tierSettled))
  }

  ghost predicate WritesOk(k: Scheme, b: Books, tx: Tx)
  {
    forall a :: a in tx.writes ==>
      HeldOk(k, tx.pc, a, tx.writes[a],
             Held(b.accounts, a).balance + Sum(tx.rows, a), Held(b.accounts, a).tierPoints + TierSum(tx.rows, a))
  }

  /** Entries this transaction inserted: only rows it holds are moved by them. */
  ghost predicate RowsOk(b: Books, held: map<Account, Row>, rows: seq<Entry>) {
    && (forall a :: a !in held ==> Sum(rows, a) == 0 && TierSum(rows, a) == 0)
    && (forall i :: 0 <= i < |rows| ==> Movable(b, held, rows[i]))
    && Balanced(b.accounts, rows)
    && KeysUnique(rows)
    && (forall i, j :: 0 <= i < |rows| && 0 <= j < |b.entries| ==> rows[i].key != b.entries[j].key)
  }

  predicate Movable(b: Books, held: map<Account, Row>, e: Entry) {
    e.account in held || (e.account in b.accounts && e.amount == 0 && e.tierPoints == 0)
  }

  ghost predicate PcOk(b: Books, tx: Tx) {
    && (tx.pc.Idle? || tx.pc.Ensuring? || Exists(b, tx, tx.pc.p.Of()))
    && (tx.pc.Reading? || tx.pc.Inserting? || tx.pc.Compensating? || tx.pc.Retiering? ==>
          tx.pc.p.Updates() ==> tx.pc.p.Of() in tx.writes)
    && (tx.pc.Reading? ==> tx.pc.p.MinutesPost?)
    && (tx.pc.Retiering? ==> tx.pc.p.PointsPost?)
    && (tx.pc.Inserting? && tx.pc.p.MinutesPost? && tx.pc.p.Updates() ==>
          tx.pc.seen == tx.writes[tx.pc.p.Of()].balance)
  }

  ghost predicate TxOk(k: Scheme, b: Books, tx: Tx)
  {
    PcOk(b, tx) && WritesOk(k, b, tx) && RowsOk(b, tx.writes, tx.rows)
  }

  ghost predicate Apart(s: Tx, t: Tx) {
    && (forall a :: a in s.writes ==> a !in t.writes)
    && (forall i, j :: 0 <= i < |s.rows| && 0 <= j < |t.rows| ==> s.rows[i].key != t.rows[j].key)
  }

  ghost predicate DbOk(db: Db) {
    && TiersOk(db.tiers)
    && Sound(SchemeOf(db.tiers), db.books)
    && (forall id :: id in db.txs ==> TxOk(SchemeOf(db.tiers), db.books, db.txs[id]))
    && (forall id, other :: id in db.txs && other in db.txs && id != other ==> Apart(db.txs[id], db.txs[other]))
  }

  // ---- Each statement, for the transaction that runs it ----

  predicate Concerns(pc: Pc, a: Account) { pc.Idle? || pc.p.Of() == a }

  lemma RowsMore(b: Books, held: map<Account, Row>, more: map<Account, Row>, rows: seq<Entry>)
    requires RowsOk(b, held, rows) && forall a :: a in held ==> a in more
    ensures RowsOk(b, more, rows)
  {
  }

  /** A statement that writes one row, of the post's own account. */
  lemma RowWritten(k: Scheme, b: Books, tx: Tx, t: Tx, a: Account)
    requires TxOk(k, b, tx) && PcOk(b, t)
    requires Concerns(tx.pc, a) && Concerns(t.pc, a)
    requires a in t.writes && t.writes == tx.writes[a := t.writes[a]] && t.rows == tx.rows
    requires HeldOk(k, t.pc, a, t.writes[a],
                    Held(b.accounts, a).balance + Sum(t.rows, a), Held(b.accounts, a).tierPoints + TierSum(t.rows, a))
    ensures TxOk(k, b, t)
  {
    RowsMore(b, tx.writes, t.writes, tx.rows);
    OthersHeld(k, b, tx, t, a);
  }

  lemma OthersHeld(k: Scheme, b: Books, tx: Tx, t: Tx, a: Account)
    requires WritesOk(k, b, tx)
    requires Concerns(tx.pc, a) && Concerns(t.pc, a)
    requires a in t.writes && t.writes == tx.writes[a := t.writes[a]] && t.rows == tx.rows
    requires HeldOk(k, t.pc, a, t.writes[a],
                    Held(b.accounts, a).balance + Sum(t.rows, a), Held(b.accounts, a).tierPoints + TierSum(t.rows, a))
    ensures WritesOk(k, b, t)
  {
    forall x | x in t.writes && x != a
      ensures HeldOk(k, t.pc, x, t.writes[x],
                     Held(b.accounts, x).balance + Sum(t.rows, x), Held(b.accounts, x).tierPoints + TierSum(t.rows, x))
    {
      NotConcerned(k, tx.pc, t.pc, x, tx.writes[x], Held(b.accounts, x).balance + Sum(t.rows, x),
                   Held(b.accounts, x).tierPoints + TierSum(t.rows, x));
    }
  }

  lemma NotConcerned(k: Scheme, pc: Pc, pc': Pc, a: Account, row: Row, settled: int, tierSettled: int)
    requires HeldOk(k, pc, a, row, settled, tierSettled)
    requires (pc.Idle? || pc.p.Of() != a) && (pc'.Idle? || pc'.p.Of() != a)
    ensures HeldOk(k, pc', a, row, settled, tierSettled)
  {
  }

  lemma EnsuredOk(k: Scheme, b: Books, tx: Tx, p: Post, locked: bool)
    requires SchemeOk(k) && TxOk(k, b, tx) && tx.pc == Ensuring(p)
    ensures TxOk(k, b, Ensured(k, b, tx, p, locked))
  {
    if !Exists(b, tx, p.Of()) && !locked {
      RowWritten(k, b, tx, Ensured(k, b, tx, p, locked), p.Of());
    }
  }

  lemma ClaimedOk(k: Scheme, b: Books, tx: Tx, p: Post, locked: bool)
    requires Sound(k, b) && TxOk(k, b, tx) && tx.pc == Claiming(p)
    ensures TxOk(k, b, Claimed(b, tx, p, locked))
  {
    var t := Claimed(b, tx, p, locked);
    if t.pc != tx.pc && p.Updates() && !t.pc.Idle? {
      RowWritten(k, b, tx, t, p.Of());
    }
  }

  lemma CompensatedOk(k: Scheme, b: Books, tx: Tx, p: Post, locked: bool)
    requires Sound(k, b) && TxOk(k, b, tx) && tx.pc == Compensating(p)
    ensures TxOk(k, b, Compensated(b, tx, p, locked))
  {
    if !locked {
      RowWritten(k, b, tx, Compensated(b, tx, p, locked), p.Of());
    }
  }

  lemma RetieredOk(k: Scheme, b: Books, tx: Tx, p: Post)
    requires TxOk(k, b, tx) && tx.pc == Retiering(p)
    ensures TxOk(k, b, Retiered(k, tx, p))
  {
    RowWritten(k, b, tx, Retiered(k, tx, p), p.Of());
  }

  lemma InsertedOk(k: Scheme, b: Books, tx: Tx, p: Post, seen: int, keyHeld: bool)
    requires TxOk(k, b, tx) && tx.pc == Inserting(p, seen)
    ensures TxOk(k, b, Inserted(b, tx, p, seen, keyHeld))
  {
    var t := Inserted(b, tx, p, seen, keyHeld);
    if t.pc.Compensating? {
      ConflictOk(k, b, tx, p, seen);
    } else if !keyHeld {
      EntryFits(k, b, tx, p, seen);
      EntryWritten(b, tx.writes, tx.rows, p.Recorded(seen));
      EntrySettles(k, b, tx, t, p, seen);
    }
  }

  /** What the entry leaves behind is what is on the row. */
  lemma EntryFits(k: Scheme, b: Books, tx: Tx, p: Post, seen: int)
    requires TxOk(k, b, tx) && tx.pc == Inserting(p, seen)
    ensures EntryOk(p.Recorded(seen), Held(b.accounts, p.Of()).balance + Sum(tx.rows, p.Of()) + p.Amount())
    ensures Movable(b, tx.writes, p.Recorded(seen))
  {
  }

  lemma ConflictOk(k: Scheme, b: Books, tx: Tx, p: Post, seen: int)
    requires TxOk(k, b, tx) && tx.pc == Inserting(p, seen)
    ensures TxOk(k, b, tx.(pc := Compensating(p)))
  {
  }

  /** The entry settles what was in flight: the rows themselves do not move. */
  lemma EntrySettles(k: Scheme, b: Books, tx: Tx, t: Tx, p: Post, seen: int)
    requires WritesOk(k, b, tx) && tx.pc == Inserting(p, seen)
    requires t.writes == tx.writes && t.rows == tx.rows + [p.Recorded(seen)]
    requires if p.TierPoints() != 0 then t.pc == Retiering(p) else t.pc == Idle
    ensures WritesOk(k, b, t)
  {
    forall a | a in t.writes
      ensures HeldOk(k, t.pc, a, t.writes[a], Held(b.accounts, a).balance + Sum(t.rows, a),
                     Held(b.accounts, a).tierPoints + TierSum(t.rows, a))
    {
      SumPush(tx.rows, p.Recorded(seen), a);
    }
  }

  lemma SumPush(rows: seq<Entry>, e: Entry, a: Account)
    ensures Sum(rows + [e], a) == Sum(rows, a) + if e.account == a then e.amount else 0
    ensures TierSum(rows + [e], a) == TierSum(rows, a) + if e.account == a then e.tierPoints else 0
  {
    assert (rows + [e])[..|rows|] == rows;
  }

  lemma BalancedPush(before: map<Account, Row>, rows: seq<Entry>, e: Entry)
    requires Balanced(before, rows)
    requires EntryOk(e, Held(before, e.account).balance + Sum(rows, e.account) + e.amount)
    ensures Balanced(before, rows + [e])
  {
    assert (rows + [e])[..|rows|] == rows;
    SumPush(rows, e, e.account);
  }

  lemma EntryWritten(b: Books, held: map<Account, Row>, rows: seq<Entry>, e: Entry)
    requires RowsOk(b, held, rows) && Movable(b, held, e)
    requires EntryOk(e, Held(b.accounts, e.account).balance + Sum(rows, e.account) + e.amount)
    requires !HasKey(b.entries, e.key) && !HasKey(rows, e.key)
    ensures RowsOk(b, held, rows + [e])
  {
    BalancedPush(b.accounts, rows, e);
    forall a | a !in held
      ensures Sum(rows + [e], a) == 0 && TierSum(rows + [e], a) == 0
    {
      SumPush(rows, e, a);
    }
  }

  lemma FoundOk(k: Scheme, b: Books, tx: Tx, p: Post, locked: bool, keyHeld: bool)
    requires TxOk(k, b, tx) && tx.pc == Finding(p)
    ensures TxOk(k, b, Executed(k, b, tx, locked, keyHeld))
  {
  }

  lemma ReadOk(k: Scheme, b: Books, tx: Tx, p: Post, locked: bool, keyHeld: bool)
    requires TxOk(k, b, tx) && tx.pc == Reading(p)
    ensures TxOk(k, b, Executed(k, b, tx, locked, keyHeld))
  {
  }

  lemma ExecutedOk(k: Scheme, b: Books, tx: Tx, locked: bool, keyHeld: bool)
    requires SchemeOk(k) && Sound(k, b) && TxOk(k, b, tx)
    ensures TxOk(k, b, Executed(k, b, tx, locked, keyHeld))
  {
    match tx.pc
    case Idle =>
    case Ensuring(p) => EnsuredOk(k, b, tx, p, locked);
    case Finding(p) => FoundOk(k, b, tx, p, locked, keyHeld);
    case Claiming(p) => ClaimedOk(k, b, tx, p, locked);
    case Reading(p) => ReadOk(k, b, tx, p, locked, keyHeld);
    case Inserting(p, seen) => InsertedOk(k, b, tx, p, seen, keyHeld);
    case Compensating(p) => CompensatedOk(k, b, tx, p, locked);
    case Retiering(p) => RetieredOk(k, b, tx, p);
  }

  // ---- Side by side ----

  /** A statement takes only a row nobody else holds and a key nobody else has inserted. */
  lemma ExecutedReach(k: Scheme, b: Books, tx: Tx, locked: bool, keyHeld: bool)
    requires !tx.pc.Idle?
    ensures var t := Executed(k, b, tx, locked, keyHeld);
            && (forall a :: a in t.writes ==> a in tx.writes || (a == tx.pc.p.Of() && !locked))
            && (t.rows == tx.rows || (!keyHeld && |t.rows| == |tx.rows| + 1 && t.rows[..|tx.rows|] == tx.rows
                                      && t.rows[|tx.rows|].key == tx.pc.p.Name()))
  {
  }

  lemma StaysApart(tx: Tx, t: Tx, other: Tx, a: Account, key: Key)
    requires Apart(tx, other)
    requires forall x :: x in t.writes ==> x in tx.writes || (x == a && a !in other.writes)
    requires t.rows == tx.rows || (|t.rows| == |tx.rows| + 1 && t.rows[..|tx.rows|] == tx.rows
                                   && t.rows[|tx.rows|].key == key && !HasKey(other.rows, key))
    ensures Apart(t, other) && Apart(other, t)
  {
    forall i | 0 <= i < |t.rows|
      ensures forall j :: 0 <= j < |other.rows| ==> t.rows[i].key != other.rows[j].key
    {
      if i < |tx.rows| {
        assert t.rows[i] == tx.rows[i];
      }
    }
  }

  lemma TxOfOk(db: Db, id: nat)
    requires DbOk(db)
    ensures TxOk(SchemeOf(db.tiers), db.books, TxOf(db, id))
    ensures forall other :: other in db.txs && other != id ==> Apart(TxOf(db, id), db.txs[other])
  {
  }

  lemma AdvanceKeeps(db: Db, id: nat)
    requires DbOk(db)
    ensures DbOk(Step(db, Advance(id)))
  {
    var tx, t := TxOf(db, id), Statement(db, id);
    TxOfOk(db, id);
    SchemeOfTiers(db.tiers);
    if !tx.pc.Idle? {
      var locked, keyHeld := LockedByAnother(db, id, tx.pc.p.Of()), KeyHeldByAnother(db, id, tx.pc.p.Name());
      ExecutedOk(SchemeOf(db.tiers), db.books, tx, locked, keyHeld);
      ExecutedReach(SchemeOf(db.tiers), db.books, tx, locked, keyHeld);
      forall other | other in db.txs && other != id
        ensures Apart(t, db.txs[other]) && Apart(db.txs[other], t)
      {
        StaysApart(tx, t, db.txs[other], tx.pc.p.Of(), tx.pc.p.Name());
      }
    }
    Replaced(db, id, t);
  }

  lemma Replaced(db: Db, id: nat, t: Tx)
    requires DbOk(db) && TxOk(SchemeOf(db.tiers), db.books, t)
    requires forall other :: other in db.txs && other != id ==> Apart(t, db.txs[other]) && Apart(db.txs[other], t)
    ensures DbOk(db.(txs := db.txs[id := t]))
  {
  }

  lemma StartedOk(k: Scheme, b: Books, tx: Tx, p: Post)
    requires TxOk(k, b, tx) && tx.pc.Idle?
    ensures TxOk(k, b, tx.(pc := Ensuring(p)))
  {
  }

  lemma StartKeeps(db: Db, id: nat, p: Post)
    requires DbOk(db)
    ensures DbOk(Step(db, Start(id, p)))
  {
    TxOfOk(db, id);
    var tx := TxOf(db, id);
    if tx.pc.Idle? && !(p.MinutesPost? && p.privateSession) {
      StartedOk(SchemeOf(db.tiers), db.books, tx, p);
      Replaced(db, id, tx.(pc := Ensuring(p)));
    }
  }

  // ---- Commit ----

  lemma {:induction false} BalancedOnto(b: Books, accounts: map<Account, Row>, rows: seq<Entry>)
    requires Balanced(map[], b.entries) && Balanced(accounts, rows)
    requires forall a: Account :: Held(accounts, a).balance == Sum(b.entries, a)
    ensures Balanced(map[], b.entries + rows)
  {
    if rows == [] {
      assert b.entries + rows == b.entries;
    } else {
      var n := |rows| - 1;
      BalancedOnto(b, accounts, rows[..n]);
      assert (b.entries + rows)[..|b.entries + rows| - 1] == b.entries + rows[..n];
      SumAppend(b.entries, rows, rows[n].account);
    }
  }

  lemma CommittedSound(k: Scheme, b: Books, tx: Tx)
    requires Sound(k, b) && TxOk(k, b, tx) && tx.pc.Idle?
    ensures Sound(k, Committed(b, tx))
  {
    var c := Committed(b, tx);
    forall a: Account
      ensures Held(b.accounts, a).balance == Sum(b.entries, a) && Held(b.accounts, a).tierPoints == TierSum(b.entries, a)
      ensures a in c.accounts ==> RowOk(k, a, c.accounts[a], Sum(c.entries, a), TierSum(c.entries, a))
    {
      CommittedRow(k, b, tx, a);
    }
    BalancedOnto(b, b.accounts, tx.rows);
    CommittedKeys(b, tx);
  }

  lemma CommittedRow(k: Scheme, b: Books, tx: Tx, a: Account)
    requires Sound(k, b) && TxOk(k, b, tx) && tx.pc.Idle?
    ensures Held(b.accounts, a).balance == Sum(b.entries, a) && Held(b.accounts, a).tierPoints == TierSum(b.entries, a)
    ensures var c := Committed(b, tx); a in c.accounts ==> RowOk(k, a, c.accounts[a], Sum(c.entries, a), TierSum(c.entries, a))
  {
    if a !in b.accounts {
      SumAbsent(b.entries, a);
    }
    SumAppend(b.entries, tx.rows, a);
  }

  lemma CommittedKeys(b: Books, tx: Tx)
    requires KeysUnique(b.entries) && RowsOk(b, tx.writes, tx.rows)
    requires forall i :: 0 <= i < |b.entries| ==> b.entries[i].account in b.accounts
    ensures KeysUnique(b.entries + tx.rows)
    ensures var c := Committed(b, tx); forall i :: 0 <= i < |c.entries| ==> c.entries[i].account in c.accounts
  {
  }

  lemma {:induction false} BalancedElsewhere(before: map<Account, Row>, after: map<Account, Row>, rows: seq<Entry>)
    requires Balanced(before, rows)
    requires forall i :: 0 <= i < |rows| ==> rows[i].amount == 0 || Held(before, rows[i].account) == Held(after, rows[i].account)
    ensures Balanced(after, rows)
  {
    if rows != [] {
      BalancedElsewhere(before, after, rows[..|rows| - 1]);
    }
  }

  /** A commit moves no row another transaction holds. */
  lemma CommitSpares(k: Scheme, b: Books, tx: Tx, other: Tx)
    requires TxOk(k, b, tx) && TxOk(k, b, other) && Apart(tx, other)
    ensures TxOk(k, Committed(b, tx), other)
  {
    var c := Committed(b, tx);
    forall a | a in other.writes
      ensures Held(c.accounts, a) == Held(b.accounts, a)
    {
    }
    BalancedElsewhere(b.accounts, c.accounts, other.rows);
    assert WritesOk(k, c, other);
    forall i, j | 0 <= i < |other.rows| && 0 <= j < |c.entries|
      ensures other.rows[i].key != c.entries[j].key
    {
      if j >= |b.entries| {
        assert c.entries[j] == tx.rows[j - |b.entries|];
      }
    }
  }

  lemma CommitKeeps(db: Db, id: nat)
    requires DbOk(db)
    ensures DbOk(Step(db, Commit(id)))
  {
    var tx := TxOf(db, id);
    TxOfOk(db, id);
    if tx.pc.Idle? {
      CommittedSound(SchemeOf(db.tiers), db.books, tx);
      forall other | other in db.txs && other != id
        ensures TxOk(SchemeOf(db.tiers), Committed(db.books, tx), db.txs[other])
      {
        CommitSpares(SchemeOf(db.tiers), db.books, tx, db.txs[other]);
      }
    }
  }

  lemma AbortKeeps(db: Db, id: nat)
    requires DbOk(db)
    ensures DbOk(Step(db, Abort(id))) && Step(db, Abort(id)).books == db.books
  {
  }

  // ------------------------------------------------------------------
  // Every run
  // ------------------------------------------------------------------

  lemma {:induction false} RunKeeps(db: Db, events: seq<Event>)
    requires DbOk(db)
    ensures DbOk(Run(db, events))
  {
    if events != [] {
      var before, e := Run(db, events[..|events| - 1]), events[|events| - 1];
      RunKeeps(db, events[..|events| - 1]);
      match e
      case Start(id, p) => StartKeeps(before, id, p);
      case Advance(id) => AdvanceKeeps(before, id);
      case Commit(id) => CommitKeeps(before, id);
      case Abort(id) => AbortKeeps(before, id);
    }
  }

  lemma {:induction false} BalancedAt(entries: seq<Entry>, i: nat)
    requires Balanced(map[], entries) && i < |entries|
    ensures EntryOk(entries[i], Sum(entries[..i + 1], entries[i].account))
  {
    if i == |entries| - 1 {
      assert entries[..i + 1] == entries;
    } else {
      BalancedAt(entries[..|entries| - 1], i);
      assert entries[..|entries| - 1][..i + 1] == entries[..i + 1];
    }
  }

  const NOTHING := Books(map[], [])

  /** Under every interleaving of posts, retries, commits and aborts, what is committed
      obeys the law: balances are the sums of their entries, no event is recorded twice,
      minutes are never negative, entries of minutes carry the running balance, a guarded
      entry that takes away leaves its account's sum at nothing or more, and the tier is the
      one the points have reached. */
  lemma LedgerLaw(tiers: seq<Tier>, events: seq<Event>)
    requires TiersOk(tiers)
    ensures var b := Run(Db(tiers, NOTHING, map[]), events).books;
            && (forall a :: a in b.accounts ==>
                  && b.accounts[a].balance == Sum(b.entries, a)
                  && b.accounts[a].tierPoints == TierSum(b.entries, a)
                  && (a.Minutes? ==> b.accounts[a].balance >= 0)
                  && (a.Points? ==> b.accounts[a].tier == TierFor(tiers, b.accounts[a].tierPoints).code))
            && (forall i, j :: 0 <= i < j < |b.entries| ==> b.entries[i].key != b.entries[j].key)
            && (forall i :: 0 <= i < |b.entries| ==>
                  BalanceRecorded(b.entries[i], Sum(b.entries[..i + 1], b.entries[i].account))
                  && Covered(b.entries[i], Sum(b.entries[..i + 1], b.entries[i].account)))
  {
    var start := Db(tiers, NOTHING, map[]);
    RunKeeps(start, events);
    var b := Run(start, events).books;
    forall i | 0 <= i < |b.entries|
      ensures EntryOk(b.entries[i], Sum(b.entries[..i + 1], b.entries[i].account))
    {
      BalancedAt(b.entries, i);
    }
  }

  // ------------------------------------------------------------------
  // A post nobody interrupts
  // ------------------------------------------------------------------

  function WithAccount(k: Scheme, b: Books, a: Account): (r: Books)
    ensures a in r.accounts && r.entries == b.entries
  {
    if a in b.accounts then b else b.(accounts := b.accounts[a := Row(0, 0, k.lowest)])
  }

  /** What a post comes to. */
  function PostOnce(k: Scheme, books: Books, p: Post): (Outcome, Books) {
    var b := WithAccount(k, books, p.Of());
    var row := b.accounts[p.Of()];
    if HasKey(b.entries, p.Name()) then (Duplicate, b)
    else if p.Conditional() && row.balance < -p.Amount() then (Insufficient, b)
    else
      var moved := p.Moved(row);
      var settled := if p.TierPoints() != 0 then moved.(tier := k.tierOf(moved.tierPoints)) else moved;
      (Posted, Books(b.accounts[p.Of() := settled], b.entries + [p.Recorded(moved.balance)]))
  }

  /** `n` statements in a row, with nobody in the way. */
  function Alone(k: Scheme, b: Books, tx: Tx, n: nat): Tx
    decreases n
  {
    if n == 0 then tx else Alone(k, b, Executed(k, b, tx, false, false), n - 1)
  }

  lemma {:induction false} AloneOk(k: Scheme, b: Books, tx: Tx, n: nat)
    requires SchemeOk(k) && Sound(k, b) && TxOk(k, b, tx)
    ensures TxOk(k, b, Alone(k, b, tx, n))
    decreases n
  {
    if n > 0 {
      ExecutedOk(k, b, tx, false, false);
      AloneOk(k, b, Executed(k, b, tx, false, false), n - 1);
    }
  }

  const POST_STATEMENTS := 6

  /** Statement by statement comes to the same as all at once. */
  lemma UninterruptedPost(k: Scheme, b: Books, p: Post)
    ensures var t := Alone(k, b, OPENED.(pc := Ensuring(p)), POST_STATEMENTS);
            && t.pc.Idle? && t.last == Some(PostOnce(k, b, p).0)
            && Committed(b, t) == PostOnce(k, b, p).1
  {
    var t1 := Executed(k, b, OPENED.(pc := Ensuring(p)), false, false);
    assert !HasKey([], p.Name());
    if HasKey(b.entries, p.Name()) {
      StaysIdle(k, b, Finished(t1, Duplicate), 4);
    } else {
      FromClaiming(k, b, t1.writes, p);
    }
  }

  lemma {:induction false} StaysIdle(k: Scheme, b: Books, tx: Tx, n: nat)
    requires tx.pc.Idle?
    ensures Alone(k, b, tx, n) == tx
  {
    if n > 0 {
      StaysIdle(k, b, tx, n - 1);
    }
  }

  lemma FromClaiming(k: Scheme, b: Books, writes: map<Account, Row>, p: Post)
    requires p.Of() in writes || p.Of() in b.accounts
    requires !HasKey(b.entries, p.Name())
    requires forall a :: a in writes ==> a == p.Of()
    ensures var t := Alone(k, b, Tx(Claiming(p), writes, [], None), 4);
            var row := if p.Of() in writes then writes[p.Of()] else b.accounts[p.Of()];
            var moved := p.Moved(row);
            var settled := if p.TierPoints() != 0 then moved.(tier := k.tierOf(moved.tierPoints)) else moved;
            && t.pc.Idle?
            && if p.Conditional() && row.balance < -p.Amount() then t == Tx(Idle, writes, [], Some(Insufficient))
               else t == Tx(Idle, if p.Updates() then writes[p.Of() := settled] else writes,
                            [p.Recorded(moved.balance)], Some(Posted))
  {
    var tx := Tx(Claiming(p), writes, [], None);
    var t := Claimed(b, tx, p, false);
    assert Alone(k, b, tx, 4) == Alone(k, b, t, 3);
    if t.pc.Idle? {
      StaysIdle(k, b, t, 3);
    } else if p.MinutesPost? {
      var seen := Visible(b, t, p.Of()).balance;
      assert Alone(k, b, t, 3) == Alone(k, b, t.(pc := Inserting(p, seen)), 2);
      FromInserting(k, b, t, p, seen, 2);
    } else {
      FromInserting(k, b, t, p, 0, 3);
    }
  }

  lemma FromInserting(k: Scheme, b: Books, tx: Tx, p: Post, seen: int, n: nat)
    requires n >= 2 && tx.rows == [] && !HasKey(b.entries, p.Name())
    requires p.PointsPost? ==> p.Of() in tx.writes
    ensures var t := Alone(k, b, tx.(pc := Inserting(p, seen)), n);
            && t.pc.Idle? && t.last == Some(Posted) && t.rows == [p.Recorded(seen)]
            && t.writes == if p.TierPoints() == 0 then tx.writes
                           else tx.writes[p.Of() := tx.writes[p.Of()].(tier := k.tierOf(tx.writes[p.Of()].tierPoints))]
  {
    var from := tx.(pc := Inserting(p, seen));
    var t := Inserted(b, from, p, seen, false);
    assert !HasKey([], p.Name()) && t.rows == [p.Recorded(seen)];
    assert Alone(k, b, from, n) == Alone(k, b, t, n - 1);
    if p.TierPoints() == 0 {
      StaysIdle(k, b, t, n - 1);
    } else {
      var u := Retiered(k, t, p);
      assert Alone(k, b, t, n - 1) == Alone(k, b, u, n - 2);
      StaysIdle(k, b, u, n - 2);
    }
  }

  lemma PostOnceSound(k: Scheme, b: Books, p: Post)
    requires SchemeOk(k) && Sound(k, b)
    ensures Sound(k, PostOnce(k, b, p).1)
  {
    var t0 := OPENED.(pc := Ensuring(p));
    AloneOk(k, b, t0, POST_STATEMENTS);
    UninterruptedPost(k, b, p);
    CommittedSound(k, b, Alone(k, b, t0, POST_STATEMENTS));
  }

  /** What a post is, read off its fields. */
  predicate RecordsWhatWasAsked(e: Entry, p: Post) {
    match p
    case MinutesPost(user, amount, key, _) =>
      e.account == Minutes(user) && e.amount == amount && e.tierPoints == 0 && e.key == key && e.guarded
    case PointsPost(user, kind, source, points, earned, refuseNegative) =>
      && e.account == Points(user) && e.amount == points && e.tierPoints == earned
      && e.key == Loyal(user, kind, source) && e.guarded == refuseNegative
  }

  /** What is asked of an account beyond what the entries before come to. */
  predicate Overdraws(entries: seq<Entry>, p: Post) {
    match p
    case MinutesPost(user, amount, _, _) => amount < 0 && Sum(entries, Minutes(user)) + amount < 0
    case PointsPost(user, _, _, points, _, refuseNegative) =>
      refuseNegative && points < 0 && Sum(entries, Points(user)) + points < 0
  }

  predicate Known(entries: seq<Entry>, p: Post) {
    match p
    case MinutesPost(_, _, key, _) => HasKey(entries, key)
    case PointsPost(user, kind, source, _, _, _) => HasKey(entries, Loyal(user, kind, source))
  }

  function Answer(entries: seq<Entry>, p: Post): Outcome {
    if Known(entries, p) then Duplicate else if Overdraws(entries, p) then Insufficient else Posted
  }

  /** A new event is refused exactly when it would take away more than the entries come to,
      from minutes or from points that must not go negative; otherwise one entry is added,
      of what was asked. */
  lemma PostAnswers(k: Scheme, b: Books, p: Post)
    requires Sound(k, b)
    ensures var (outcome, after) := PostOnce(k, b, p);
            && outcome == Answer(b.entries, p)
            && if outcome == Posted then |after.entries| == |b.entries| + 1 && after.entries[..|b.entries|] == b.entries
                                         && RecordsWhatWasAsked(after.entries[|b.entries|], p)
               else after.entries == b.entries
  {
    if p.Of() !in b.accounts {
      SumAbsent(b.entries, p.Of());
    }
  }

  /** And so it is statement by statement. */
  lemma StatementsAnswer(k: Scheme, b: Books, p: Post)
    requires Sound(k, b)
    ensures var t := Alone(k, b, OPENED.(pc := Ensuring(p)), POST_STATEMENTS);
            t.pc.Idle? && t.last == Some(Answer(b.entries, p))
  {
    UninterruptedPost(k, b, p);
    PostAnswers(k, b, p);
  }

  /** The same event posted again changes nothing, whatever the amount now asked for. */
  lemma PostingAgain(k: Scheme, b: Books, p: Post, again: Post)
    requires PostOnce(k, b, p).0 != Insufficient && again.Name() == p.Name() && again.Of() == p.Of()
    ensures PostOnce(k, PostOnce(k, b, p).1, again) == (Duplicate, PostOnce(k, b, p).1)
  {
    var after := PostOnce(k, b, p).1;
    if !HasKey(b.entries, p.Name()) {
      assert after.entries[|b.entries|].key == p.Name();
    }
  }
}
