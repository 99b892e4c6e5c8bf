/** Every interleaving of card redemptions. A redemption reads (wallet, card and balance)
    and later writes (balance, claim and transaction row, then commit); at read committed
    the row locks make each half one atomic step. Redemptions of different users may always
    overlap; `overlap` lets those of one user do so too, as read committed does. */
module WalletMachine {
  import opened Common
  import opened Wallet

  type Tid = nat

  datatype Config = Config(overlap: bool)

  /** `created`: this transaction inserted the wallet row and has not committed. */
  datatype Pending = Pending(tx: Tx, created: bool)

  datatype Action =
    | Issue(code: string, card: Card)
    | Ensure(user: User)
    | Read(t: Tid, user: User, code: string, now: int)
    | Write(t: Tid)
    | Abort(t: Tid)

  datatype State = State(db: Tables, pending: map<Tid, Pending>)

  const INIT := State(Tables(map[], map[], []), map[])

  /** An uncommitted wallet row makes other inserts of it wait. */
  predicate Blocked(s: State, user: User) {
    exists t :: t in s.pending && s.pending[t].created && s.pending[t].tx.user == user
  }

  predicate Redeeming(s: State, user: User) {
    exists t :: t in s.pending && s.pending[t].tx.user == user
  }

  predicate Enabled(cfg: Config, s: State, a: Action) {
    match a
    case Issue(code, card) => code !in s.db.cards && card.redeemedBy.None?
    case Ensure(user) => !Blocked(s, user)
    case Read(t, user, code, now) =>
      t !in s.pending && !Blocked(s, user) && (!cfg.overlap ==> !Redeeming(s, user))
    case Write(t) => t in s.pending
    case Abort(t) => t in s.pending
  }

  function Apply(cfg: Config, s: State, a: Action): State
    requires Enabled(cfg, s, a)
  {
    match a
    case Issue(code, card) => s.(db := s.db.(cards := s.db.cards[code := card]))
    case Ensure(user) => s.(db := Ensured(s.db, user))
    case Read(t, user, code, now) =>
      (match Lookup(s.db, user, code, now)
       case Err(_) => s
       case Ok(tx) => s.(pending := s.pending[t := Pending(tx, user !in s.db.wallets)]))
    case Write(t) =>
      var tx := s.pending[t].tx;
      State(if Claimable(s.db, tx) then Booked(s.db, tx) else s.db, s.pending - {t})
    case Abort(t) => s.(pending := s.pending - {t})
  }

  ghost function After(cfg: Config, acts: seq<Action>): Option<State> {
    if acts == [] then Some(INIT)
    else match After(cfg, acts[..|acts| - 1])
         case None => None
         case Some(s) =>
           var a := acts[|acts| - 1];
           if Enabled(cfg, s, a) then Some(Apply(cfg, s, a)) else None
  }

  // ----- Cards: at most one transaction each, at either isolation level -----

  /** A card is redeemed exactly when one transaction is backed by it. */
  ghost predicate Backed(db: Tables) {
    && (forall i | 0 <= i < |db.log| :: BackedBy(db, db.log[i]))
    && (forall i, j | 0 <= i < j < |db.log| :: db.log[i].card != db.log[j].card)
    && (forall code | code in db.cards && db.cards[code].redeemedBy.Some? ::
          exists i :: 0 <= i < |db.log| && db.log[i].card == code)
  }

  predicate BackedBy(db: Tables, tx: Tx) {
    tx.card in db.cards && db.cards[tx.card].redeemedBy == Some(tx.user) && db.cards[tx.card].amount == tx.amount
  }

  /** A pending transaction is for a card of that amount. */
  ghost predicate PendingCards(s: State) {
    forall t | t in s.pending ::
      var tx := s.pending[t].tx;
      tx.card in s.db.cards && s.db.cards[tx.card].amount == tx.amount
  }

  lemma BookKeepsBacked(db: Tables, tx: Tx)
    requires Backed(db) && Claimable(db, tx) && db.cards[tx.card].amount == tx.amount
    ensures Backed(Booked(db, tx))
  {
    var db' := Booked(db, tx);
    forall i | 0 <= i < |db'.log|
      ensures BackedBy(db', db'.log[i])
      ensures i < |db.log| ==> db'.log[i].card != tx.card
    {
      if i < |db.log| {
        assert BackedBy(db, db.log[i]);
      }
    }
    forall code | code in db'.cards && db'.cards[code].redeemedBy.Some?
      ensures exists i :: 0 <= i < |db'.log| && db'.log[i].card == code
    {
      if code == tx.card {
        assert db'.log[|db.log|].card == code;
      } else {
        var i :| 0 <= i < |db.log| && db.log[i].card == code;
        assert db'.log[i].card == code;
      }
    }
  }

  lemma StepBacked(cfg: Config, s: State, a: Action)
    requires Backed(s.db) && PendingCards(s) && Enabled(cfg, s, a)
    ensures Backed(Apply(cfg, s, a).db) && PendingCards(Apply(cfg, s, a))
  {
    match a
    case Write(t) =>
      if Claimable(s.db, s.pending[t].tx) {
        BookKeepsBacked(s.db, s.pending[t].tx);
      }
    case Issue(code, card) =>
      assert forall i | 0 <= i < |s.db.log| :: BackedBy(s.db, s.db.log[i]) && s.db.log[i].card != code;
    case _ =>
  }

  /** In every run a card backs at most one transaction, of its redeemer and of its amount. */
  lemma {:induction false} CardsOnce(cfg: Config, acts: seq<Action>)
    requires After(cfg, acts).Some?
    ensures Backed(After(cfg, acts).value.db) && PendingCards(After(cfg, acts).value)
  {
    if acts != [] {
      var init := acts[..|acts| - 1];
      CardsOnce(cfg, init);
      StepBacked(cfg, After(cfg, init).value, acts[|acts| - 1]);
    }
  }

  // ----- Cards are redeemed in time -----

  /** A reading half goes on exactly when the card is there, unredeemed and not expired. */
  lemma ReadGoesOnIff(cfg: Config, s: State, t: Tid, user: User, code: string, now: int)
    requires Enabled(cfg, s, Read(t, user, code, now))
    ensures var pending := Apply(cfg, s, Read(t, user, code, now)).pending;
            && (t in pending <==>
                  && code in s.db.cards && s.db.cards[code].redeemedBy == None
                  && (s.db.cards[code].expiresAt == None || now <= s.db.cards[code].expiresAt.value))
            && (t in pending ==>
                  && pending[t].tx.user == user && pending[t].tx.card == code
                  && pending[t].tx.amount == s.db.cards[code].amount)
  {
  }

  /** In a run, action i is the reading half of a redemption of this card by this user, in time. */
  ghost predicate ReadInTime(acts: seq<Action>, i: nat, tx: Tx, card: Card) {
    && i < |acts| && acts[i].Read? && acts[i].user == tx.user && acts[i].code == tx.card
    && (card.expiresAt.None? || acts[i].now <= card.expiresAt.value)
  }

  ghost predicate SomeReadInTime(acts: seq<Action>, tx: Tx, cards: map<string, Card>) {
    tx.card in cards && exists i :: ReadInTime(acts, i, tx, cards[tx.card])
  }

  lemma StillReadInTime(acts: seq<Action>, a: Action, tx: Tx, cards: map<string, Card>, cards': map<string, Card>)
    requires SomeReadInTime(acts, tx, cards) && tx.card in cards'
    requires cards'[tx.card].expiresAt == cards[tx.card].expiresAt
    ensures SomeReadInTime(acts + [a], tx, cards')
  {
    var i :| ReadInTime(acts, i, tx, cards[tx.card]);
    assert ReadInTime(acts + [a], i, tx, cards'[tx.card]);
  }

  lemma NewReadInTime(acts: seq<Action>, a: Action, tx: Tx, cards: map<string, Card>)
    requires tx.card in cards && ReadInTime(acts + [a], |acts|, tx, cards[tx.card])
    ensures SomeReadInTime(acts + [a], tx, cards)
  {
  }

  lemma StepCards(cfg: Config, s: State, a: Action, code: string)
    requires Enabled(cfg, s, a) && code in s.db.cards
    ensures code in Apply(cfg, s, a).db.cards
    ensures Apply(cfg, s, a).db.cards[code].expiresAt == s.db.cards[code].expiresAt
  {
  }

  ghost predicate AllInTime(acts: seq<Action>, s: State) {
    && (forall t | t in s.pending :: SomeReadInTime(acts, s.pending[t].tx, s.db.cards))
    && (forall i | 0 <= i < |s.db.log| :: SomeReadInTime(acts, s.db.log[i], s.db.cards))
  }

  lemma StepInTime(cfg: Config, acts: seq<Action>, s: State, a: Action)
    requires AllInTime(acts, s) && Enabled(cfg, s, a)
    ensures AllInTime(acts + [a], Apply(cfg, s, a))
  {
    var s' := Apply(cfg, s, a);
    forall t | t in s'.pending
      ensures SomeReadInTime(acts + [a], s'.pending[t].tx, s'.db.cards)
    {
      if t in s.pending {
        StepCards(cfg, s, a, s.pending[t].tx.card);
        StillReadInTime(acts, a, s.pending[t].tx, s.db.cards, s'.db.cards);
      } else {
        ReadGoesOnIff(cfg, s, a.t, a.user, a.code, a.now);
        NewReadInTime(acts, a, s'.pending[t].tx, s'.db.cards);
      }
    }
    forall i | 0 <= i < |s'.db.log|
      ensures SomeReadInTime(acts + [a], s'.db.log[i], s'.db.cards)
    {
      var tx := if i < |s.db.log| then s.db.log[i] else s.pending[a.t].tx;
      StepCards(cfg, s, a, tx.card);
      StillReadInTime(acts, a, tx, s.db.cards, s'.db.cards);
    }
  }

  /** In every run each booked transaction was read by its user before the card expired. */
  lemma {:induction false} RedeemedInTime(cfg: Config, acts: seq<Action>)
    requires After(cfg, acts).Some?
    ensures AllInTime(acts, After(cfg, acts).value)
  {
    if acts != [] {
      var init := acts[..|acts| - 1];
      RedeemedInTime(cfg, init);
      StepInTime(cfg, init, After(cfg, init).value, acts[|acts| - 1]);
      assert acts == init + [acts[|acts| - 1]];
    }
  }

  // ----- Balances: conserved exactly when one user's redemptions do not overlap -----

  function Sum(log: seq<Tx>, user: User): int {
    if log == [] then 0
    else
      var last := log[|log| - 1];
      Sum(log[..|log| - 1], user) + if last.user == user then last.amount else 0
  }

  /** Each wallet holds the sum of its transactions, each transaction the sum so far. */
  ghost predicate Conserved(db: Tables) {
    && (forall user: User :: Balance(db, user) == Sum(db.log, user))
    && (forall i | 0 <= i < |db.log| :: PrefixSum(db.log, i))
  }

  ghost predicate PrefixSum(log: seq<Tx>, i: nat)
    requires i < |log|
  {
    log[i].balanceAfter == Sum(log[..i + 1], log[i].user)
  }

  /** What a pending transaction computed is still right. */
  ghost predicate UpToDate(s: State) {
    && (forall t | t in s.pending ::
          var tx := s.pending[t].tx;
          tx.balanceAfter == Balance(s.db, tx.user) + tx.amount)
    && (forall t, t' | t in s.pending && t' in s.pending && s.pending[t].tx.user == s.pending[t'].tx.user :: t == t')
  }

  lemma BookConserves(db: Tables, tx: Tx)
    requires Conserved(db) && Claimable(db, tx) && tx.balanceAfter == Balance(db, tx.user) + tx.amount
    ensures Conserved(Booked(db, tx))
  {
    var log' := db.log + [tx];
    assert log'[..|log'| - 1] == db.log && log'[..|db.log| + 1] == log';
    forall i | 0 <= i < |log'|
      ensures PrefixSum(log', i)
    {
      if i < |db.log| {
        assert log'[..i + 1] == db.log[..i + 1] && PrefixSum(db.log, i);
      }
    }
  }

  lemma StepConserves(cfg: Config, s: State, a: Action)
    requires !cfg.overlap && Conserved(s.db) && UpToDate(s) && Enabled(cfg, s, a)
    ensures Conserved(Apply(cfg, s, a).db) && UpToDate(Apply(cfg, s, a))
  {
    match a
    case Write(t) =>
      if Claimable(s.db, s.pending[t].tx) {
        BookConserves(s.db, s.pending[t].tx);
      }
    case _ =>
  }

  lemma {:induction false} DisjointRun(cfg: Config, acts: seq<Action>)
    requires !cfg.overlap && After(cfg, acts).Some?
    ensures Conserved(After(cfg, acts).value.db) && UpToDate(After(cfg, acts).value)
  {
    if acts != [] {
      var init := acts[..|acts| - 1];
      DisjointRun(cfg, init);
      StepConserves(cfg, After(cfg, init).value, acts[|acts| - 1]);
    }
  }

  ghost predicate AlwaysConserved(cfg: Config) {
    forall acts: seq<Action> :: After(cfg, acts).Some? ==> Conserved(After(cfg, acts).value.db)
  }

  lemma Extend(cfg: Config, acts: seq<Action>, s: State, a: Action) returns (acts': seq<Action>, s': State)
    requires After(cfg, acts) == Some(s) && Enabled(cfg, s, a)
    ensures acts' == acts + [a] && s' == Apply(cfg, s, a) && After(cfg, acts') == Some(s')
  {
    acts', s' := acts + [a], Apply(cfg, s, a);
    assert acts'[..|acts'| - 1] == acts;
  }

  /** Two cards redeemed at once into one wallet: the later write overwrites the earlier. */
  lemma LostUpdate(cfg: Config) returns (acts: seq<Action>, s: State)
    requires cfg.overlap
    ensures After(cfg, acts) == Some(s) && Balance(s.db, 0) == 20
    ensures s.db.log == [Tx(0, "A", 10, 10), Tx(0, "B", 20, 20)]
  {
    var ten, twenty := Tx(0, "A", 10, 10), Tx(0, "B", 20, 20);
    acts, s := [], INIT;
    acts, s := Extend(cfg, acts, s, Ensure(0));
    acts, s := Extend(cfg, acts, s, Issue("A", Card(10, None, None)));
    acts, s := Extend(cfg, acts, s, Issue("B", Card(20, None, None)));
    assert s.pending == map[] && s.db.wallets == map[0 := 0];
    acts, s := Extend(cfg, acts, s, Read(0, 0, "A", 0));
    assert s.pending == map[0 := Pending(ten, false)];
    acts, s := Extend(cfg, acts, s, Read(1, 0, "B", 0));
    assert s.pending[1] == Pending(twenty, false);
    acts, s := Extend(cfg, acts, s, Write(0));
    assert s.db.log == [ten];
    acts, s := Extend(cfg, acts, s, Write(1));
    assert s.db.log == [ten, twenty];
  }

  lemma SumOfTwo(a: Tx, b: Tx)
    requires a.user == b.user
    ensures Sum([a, b], a.user) == a.amount + b.amount
  {
    assert [a][..|[a]| - 1] == [] && [a, b][..|[a, b]| - 1] == [a];
    assert Sum([a], a.user) == a.amount;
  }

  /** Every run conserves the balances exactly when redemptions of one user do not overlap,
      however those of different users do. */
  lemma ConservedIff(cfg: Config)
    ensures AlwaysConserved(cfg) <==> !cfg.overlap
  {
    if !cfg.overlap {
      forall acts: seq<Action> | After(cfg, acts).Some?
        ensures Conserved(After(cfg, acts).value.db)
      {
        DisjointRun(cfg, acts);
      }
    } else {
      var acts, s := LostUpdate(cfg);
      SumOfTwo(s.db.log[0], s.db.log[1]);
    }
  }
}
