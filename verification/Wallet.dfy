/** Card redemption of backend/internal/user/service.go. Each card has one code, which
    stands for its id. */
module Wallet {
  import opened Common

  type User = int

  datatype Card = Card(amount: int, expiresAt: Option<int>, redeemedBy: Option<User>)

  datatype Tx = Tx(user: User, card: string, amount: int, balanceAfter: int)

  datatype Tables = Tables(wallets: map<User, int>, cards: map<string, Card>, log: seq<Tx>)

  datatype RedeemError = CodeRequired | CardNotFound | AlreadyRedeemed | CardExpired | Database

  // ----- The statements on values -----

  function Ensured(t: Tables, user: User): Tables {
    if user in t.wallets then t else t.(wallets := t.wallets[user := 0])
  }

  function Balance(t: Tables, user: User): int {
    if user in t.wallets then t.wallets[user] else 0
  }

  /** The transaction that redeeming a card now would record. */
  function Lookup(t: Tables, user: User, code: string, now: int): Result<Tx, RedeemError> {
    if code !in t.cards then Err(CardNotFound)
    else
      var card := t.cards[code];
      if card.redeemedBy.Some? then Err(AlreadyRedeemed)
      else if card.expiresAt.Some? && now > card.expiresAt.value then Err(CardExpired)
      else Ok(Tx(user, code, card.amount, Balance(t, user) + card.amount))
  }

  predicate Claimable(t: Tables, tx: Tx) {
    tx.card in t.cards && t.cards[tx.card].redeemedBy.None?
  }

  function Booked(t: Tables, tx: Tx): Tables
    requires Claimable(t, tx)
  {
    Tables(t.wallets[tx.user := tx.balanceAfter],
           t.cards[tx.card := t.cards[tx.card].(redeemedBy := Some(tx.user))],
           t.log + [tx])
  }

  function Upper(s: string): string {
    seq(|s|, i requires 0 <= i < |s| => if 'a' <= s[i] <= 'z' then s[i] - 'a' + 'A' else s[i])
  }

  /** Letters are the only thing that changes, to the capital of the same letter. */
  lemma UpperIs(s: string)
    ensures |Upper(s)| == |s|
    ensures forall i | 0 <= i < |s| ::
              if 'a' <= s[i] <= 'z' then 'A' <= Upper(s)[i] <= 'Z' && Upper(s)[i] as int == s[i] as int - 32
              else Upper(s)[i] == s[i]
  {
  }

  // ----- The service -----

  datatype Statement =
    Begin | EnsureWallet | SelectCard | SelectBalance | UpdateWallet | ClaimCard | InsertTx | ReadWallet

  class WalletService {
    var wallets: map<User, int>
    var cards: map<string, Card>
    var log: seq<Tx>

    constructor (cards: map<string, Card>)
      ensures View() == Tables(map[], cards, [])
    {
      wallets, this.cards, log := map[], cards, [];
    }

    function View(): Tables
      reads this
    {
      Tables(wallets, cards, log)
    }

    method Rollback(t: Tables)
      modifies this
      ensures View() == t
    {
      wallets, cards, log := t.wallets, t.cards, t.log;
    }

    method GetWallet(user: User, broken: set<Statement>) returns (r: Result<int, RedeemError>)
      modifies this
      ensures View() == if EnsureWallet in broken then old(View()) else Ensured(old(View()), user)
      ensures r == if EnsureWallet in broken || ReadWallet in broken then Err(Database)
                   else Ok(Balance(old(View()), user))
      ensures r.Ok? ==>
                && r.value == (if user in old(wallets) then old(wallets)[user] else 0)
                && wallets == old(wallets)[user := r.value] && cards == old(cards) && log == old(log)
    {
      if EnsureWallet in broken {
        return Err(Database);
      }
      if user !in wallets {
        wallets := wallets[user := 0];
      }
      if ReadWallet in broken {
        return Err(Database);
      }
      r := Ok(wallets[user]);
    }

    /** The transaction up to the point where the new balance is known. */
    method Prepare(user: User, code: string, now: int, broken: set<Statement>)
      returns (r: Result<Tx, RedeemError>)
      modifies this
      ensures r.Ok? ==> View() == Ensured(old(View()), user) && user in wallets
      ensures r.Err? && r.error != Database ==> r == Lookup(old(View()), user, code, now)
      ensures {EnsureWallet, SelectCard, SelectBalance} !! broken ==> r == Lookup(old(View()), user, code, now)
      ensures r.Ok? ==> r == Lookup(old(View()), user, code, now)
    {
      if EnsureWallet in broken {
        return Err(Database);
      }
      if user !in wallets {
        wallets := wallets[user := 0];
      }
      if SelectCard in broken {
        return Err(Database);
      }
      if code !in cards {
        return Err(CardNotFound);
      }
      var card := cards[code];
      if card.redeemedBy.Some? {
        return Err(AlreadyRedeemed);
      }
      if card.expiresAt.Some? && now > card.expiresAt.value {
        return Err(CardExpired);
      }
      if SelectBalance in broken {
        return Err(Database);
      }
      r := Ok(Tx(user, code, card.amount, wallets[user] + card.amount));
    }

    /** The rest of it, on whatever the tables are by then: the claim may come too late. */
    method Book(tx: Tx, broken: set<Statement>) returns (r: Result<(), RedeemError>)
      modifies this
      ensures r.Ok? ==> Claimable(old(View()), tx) && View() == Booked(old(View()), tx)
      ensures r.Err? && r.error != Database ==> r.error == AlreadyRedeemed && !Claimable(old(View()), tx)
      ensures {UpdateWallet, ClaimCard, InsertTx} !! broken ==> r.Ok? == Claimable(old(View()), tx)
    {
      if UpdateWallet in broken {
        return Err(Database);
      }
      wallets := wallets[tx.user := tx.balanceAfter];
      if ClaimCard in broken {
        return Err(Database);
      }
      var n := 0;
      if tx.card in cards && cards[tx.card].redeemedBy.None? {
        cards := cards[tx.card := cards[tx.card].(redeemedBy := Some(tx.user))];
        n := 1;
      }
      if n == 0 {
        return Err(AlreadyRedeemed);
      }
      if InsertTx in broken {
        return Err(Database);
      }
      log := log + [tx];
      r := Ok(());
    }

    /** Redeeming with no other transaction in between. Whatever fails, the tables hold the
        whole redemption or nothing of it. */
    method RedeemCard(user: User, cardCode: string, now: int, broken: set<Statement>, commit: Write)
      returns (r: Result<int, RedeemError>)
      modifies this
      ensures var code := Trim(Upper(cardCode));
              var plan := Lookup(old(View()), user, code, now);
              && (r == Err(CodeRequired) <==> code == "")
              && (r.Ok? ==> plan.Ok? && r.value == plan.value.balanceAfter)
              && (r.Err? && r.error !in {CodeRequired, Database} ==> plan.Err? && plan.error == r.error)
              && (broken == {} && commit.Acked? && code != "" ==>
                    r == if plan.Ok? then Ok(plan.value.balanceAfter) else Err(plan.error))
              && (View() == old(View()) ||
                  (code != "" && plan.Ok? && commit.Lands() && View() == Booked(old(View()), plan.value)))
              && (r.Ok? ==> View() == Booked(old(View()), plan.value))
      // A success: an unredeemed card that has not expired, its amount on top of the balance.
      ensures r.Ok? ==>
                var code := Trim(Upper(cardCode));
                && code != "" && code in old(cards) && code in cards
                && var card := old(cards)[code];
                && card.redeemedBy == None && (card.expiresAt == None || now <= card.expiresAt.value)
                && r.value == (if user in old(wallets) then old(wallets)[user] else 0) + card.amount
                && wallets == old(wallets)[user := r.value]
                && cards == old(cards)[code := Card(card.amount, card.expiresAt, Some(user))]
                && log == old(log) + [Tx(user, code, card.amount, r.value)]
      ensures broken == {} && commit == Acked && Trim(Upper(cardCode)) != "" ==>
                var code := Trim(Upper(cardCode));
                && (r == Err(CardNotFound) <==> code !in old(cards))
                && (code in old(cards) ==>
                      var card := old(cards)[code];
                      && (r == Err(AlreadyRedeemed) <==> card.redeemedBy.Some?)
                      && (r == Err(CardExpired) <==>
                            card.redeemedBy == None && card.expiresAt.Some? && now > card.expiresAt.value)
                      && (r.Ok? <==>
                            card.redeemedBy == None && (card.expiresAt == None || now <= card.expiresAt.value)))
    {
      var code := Trim(Upper(cardCode));
      if code == "" {
        return Err(CodeRequired);
      }
      if Begin in broken {
        return Err(Database);
      }
      var before := Tables(wallets, cards, log);
      var plan := Prepare(user, code, now, broken);
      if plan.Err? {
        Rollback(before);
        return Err(plan.error);
      }
      var tx := plan.value;
      EnsureThenBook(before, tx);
      var booked := Book(tx, broken);
      if booked.Err? {
        Rollback(before);
        return Err(booked.error);
      }
      if !commit.Lands() {
        Rollback(before);
      }
      if !commit.Acked? {
        return Err(Database);
      }
      r := GetWallet(user, broken);
    }
  }

  lemma EnsureThenBook(t: Tables, tx: Tx)
    requires Claimable(t, tx)
    ensures Booked(Ensured(t, tx.user), tx) == Booked(t, tx)
  {
  }
}
