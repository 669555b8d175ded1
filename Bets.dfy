/**
 * Player records and the resolution of their pending bets against a drawn
 * pocket: the per-player rule, its application to the whole player table,
 * and what the resolution does to the sum of the balances.
 */
module Bets {
  import opened Wrappers
  import opened Roulette

  /** The balance a player joins with, and the loan a bankrupt player is given. */
  const StartingBalance: int := 1000

  /** Profit multipliers of the two winning kinds of bet. */
  const NumberPayout: int := 35
  const ColourPayout: int := 1

  /** A pending wager: the stake and the text the player chose (a number or a colour). */
  datatype Bet = Bet(amount: int, choice: string)

  /** The single notification slot of a player; `NoNotification` is the empty text. */
  datatype Notification =
    | NoNotification
    | Won(choice: string)
    | Lost(amount: int, choice: string)
    | Bankrupt

  datatype Player = Player(name: string, balance: int, bet: Option<Bet>, notif: Notification)

  /** The record a player is given on joining. */
  function NewPlayer(name: string): (p: Player)
    ensures p.name == name && p.balance == StartingBalance && p.bet == None && p.notif == NoNotification
  {
    Player(name, StartingBalance, None, NoNotification)
  }

  /** The change a bet makes to the balance before the bankruptcy check. */
  function Winnings(b: Bet, winning: Pocket): int {
    match Classify(b.choice, winning)
    case ExactWin => b.amount * NumberPayout
    case ColourWin => b.amount * ColourPayout
    case Loss => -b.amount
  }

  /** One player's record after the wheel stops on `winning`. */
  function ResolveOne(p: Player, winning: Pocket): (r: Player)
    ensures r.name == p.name && r.bet == None
    ensures p.bet == None ==> r == p
    ensures p.bet.Some? ==> r.balance > 0
    ensures p.bet.Some? && p.balance + Winnings(p.bet.value, winning) <= 0 ==>
              r.balance == StartingBalance && r.notif == Bankrupt
    ensures p.bet.Some? && p.balance + Winnings(p.bet.value, winning) > 0 ==>
              r.balance == p.balance + Winnings(p.bet.value, winning) &&
              r.notif == if Classify(p.bet.value.choice, winning) == Loss
                         then Lost(p.bet.value.amount, p.bet.value.choice)
                         else Won(p.bet.value.choice)
  {
    match p.bet
    case None => p
    case Some(b) =>
      var balance := p.balance + Winnings(b, winning);
      if balance <= 0 then
        Player(p.name, StartingBalance, None, Bankrupt)
      else if Classify(b.choice, winning) != Loss then
        Player(p.name, balance, None, Won(b.choice))
      else
        Player(p.name, balance, None, Lost(b.amount, b.choice))
  }

  /** The whole player table after the wheel stops on `winning`. */
  function ResolveAll(m: map<string, Player>, winning: Pocket): (r: map<string, Player>)
    ensures r.Keys == m.Keys
    ensures forall id | id in r :: r[id].bet == None && r[id].name == m[id].name
    ensures forall id | id in r && m[id].bet == None :: r[id] == m[id]
    ensures forall id | id in r && m[id].bet.Some? :: r[id].balance > 0
  {
    map id | id in m :: ResolveOne(m[id], winning)
  }

  /** A number bet changes the balance by 35 times the stake on its own pocket and loses it elsewhere. */
  lemma NumberBetPayout(p: Player, k: nat, winning: Pocket)
    requires p.bet.Some? && p.bet.value.choice == DecimalString(k)
    requires p.balance + Winnings(p.bet.value, winning) > 0
    ensures winning == k ==> ResolveOne(p, winning).balance == p.balance + 35 * p.bet.value.amount
    ensures winning != k ==> ResolveOne(p, winning).balance == p.balance - p.bet.value.amount
  {
    NumberChoiceWinsOnlyOnItsPocket(k, winning);
  }

  /** A colour bet changes the balance by the stake: up on a pocket of its colour, down otherwise. */
  lemma ColourBetPayout(p: Player, c: Colour, winning: Pocket)
    requires p.bet.Some? && p.bet.value.choice == ColourName(c)
    requires p.balance + Winnings(p.bet.value, winning) > 0
    ensures PocketColour(winning) == c ==> ResolveOne(p, winning).balance == p.balance + p.bet.value.amount
    ensures PocketColour(winning) != c ==> ResolveOne(p, winning).balance == p.balance - p.bet.value.amount
  {
  }

  /** A number bet's effect is +35 times the stake on its own pocket and minus the stake elsewhere; a colour bet's is plus or minus the stake. */
  lemma WinningsByChoice(b: Bet, winning: Pocket)
    ensures forall k: nat | b.choice == DecimalString(k) ::
              Winnings(b, winning) == if winning == k then 35 * b.amount else -b.amount
    ensures forall c: Colour | b.choice == ColourName(c) ::
              Winnings(b, winning) == if PocketColour(winning) == c then b.amount else -b.amount
  {
    forall k: nat | b.choice == DecimalString(k)
      ensures Winnings(b, winning) == if winning == k then 35 * b.amount else -b.amount
    {
      NumberChoiceWinsOnlyOnItsPocket(k, winning);
    }
  }

  /**
   * The bankruptcy rule looks only at the new balance: a winning bet that still
   * leaves the balance at or below zero ends with the loan and the Bankrupt
   * notification, not with a win.
   */
  lemma BankruptcyOverridesWin(p: Player, winning: Pocket)
    requires p.bet.Some?
    ensures p.bet.value.choice == DecimalString(winning) && p.balance + 35 * p.bet.value.amount <= 0 ==>
              ResolveOne(p, winning) == Player(p.name, StartingBalance, None, Bankrupt)
    ensures p.bet.value.choice == ColourName(PocketColour(winning)) && p.balance + p.bet.value.amount <= 0 ==>
              ResolveOne(p, winning) == Player(p.name, StartingBalance, None, Bankrupt)
  {
  }

  /** "green" is matched as a colour: when 0 is drawn it pays even money and notifies a win. */
  lemma GreenPaysEvenMoneyOnZero(p: Player)
    requires p.bet.Some? && p.bet.value.choice == "green"
    ensures p.balance + p.bet.value.amount > 0 ==>
              ResolveOne(p, 0) == Player(p.name, p.balance + p.bet.value.amount, None, Won("green"))
    ensures p.balance + p.bet.value.amount <= 0 ==>
              ResolveOne(p, 0) == Player(p.name, StartingBalance, None, Bankrupt)
  {
  }

  /** Resolution consumes every bet: resolving again, on any pocket, changes nothing. */
  lemma ResolveAllSettlesOnce(m: map<string, Player>, first: Pocket, second: Pocket)
    ensures ResolveAll(ResolveAll(m, first), second) == ResolveAll(m, first)
  {
  }

  // Conservation of money over a list of player ids.

  predicate AllIn(m: map<string, Player>, ids: seq<string>) {
    forall i | 0 <= i < |ids| :: ids[i] in m
  }

  /** The bet's effect on the balance, zero for a player without a bet. */
  function NetWin(p: Player, winning: Pocket): int {
    match p.bet
    case None => 0
    case Some(b) => Winnings(b, winning)
  }

  /** The money the bankruptcy rule adds on top of the bet's effect. */
  function BankruptcyGrant(p: Player, winning: Pocket): int {
    var balance := p.balance + NetWin(p, winning);
    if p.bet.Some? && balance <= 0 then StartingBalance - balance else 0
  }

  function TotalBalance(m: map<string, Player>, ids: seq<string>): int
    requires AllIn(m, ids)
  {
    if ids == [] then 0 else m[ids[0]].balance + TotalBalance(m, ids[1..])
  }

  function TotalNetWin(m: map<string, Player>, ids: seq<string>, winning: Pocket): int
    requires AllIn(m, ids)
  {
    if ids == [] then 0 else NetWin(m[ids[0]], winning) + TotalNetWin(m, ids[1..], winning)
  }

  function TotalGrant(m: map<string, Player>, ids: seq<string>, winning: Pocket): int
    requires AllIn(m, ids)
  {
    if ids == [] then 0 else BankruptcyGrant(m[ids[0]], winning) + TotalGrant(m, ids[1..], winning)
  }

  /** Each player's balance moves by the bet's effect plus any bankruptcy grant, and by nothing else. */
  lemma ResolveOneSettlement(p: Player, winning: Pocket)
    ensures ResolveOne(p, winning).balance == p.balance + NetWin(p, winning) + BankruptcyGrant(p, winning)
    ensures BankruptcyGrant(p, winning) >= 0
  {
  }

  /**
   * Money is neither created nor destroyed by resolution, except by the
   * bankruptcy rule: the total moves by the bets' effects plus the grants.
   */
  lemma {:induction false} ResolveAllConservesMoney(m: map<string, Player>, ids: seq<string>, winning: Pocket)
    requires AllIn(m, ids)
    ensures AllIn(ResolveAll(m, winning), ids)
    ensures TotalBalance(ResolveAll(m, winning), ids) ==
            TotalBalance(m, ids) + TotalNetWin(m, ids, winning) + TotalGrant(m, ids, winning)
  {
    if ids != [] {
      ResolveAllConservesMoney(m, ids[1..], winning);
      ResolveOneSettlement(m[ids[0]], winning);
    }
  }

  /** A player who can cover the outcome receives no grant. */
  predicate Solvent(p: Player, winning: Pocket) {
    p.bet.Some? ==> p.balance + NetWin(p, winning) > 0
  }

  /** When nobody goes bankrupt, the total moves by exactly the payouts minus the lost stakes. */
  lemma {:induction false} NoBankruptcyNoGrant(m: map<string, Player>, ids: seq<string>, winning: Pocket)
    requires AllIn(m, ids)
    requires forall i | 0 <= i < |ids| :: Solvent(m[ids[i]], winning)
    ensures AllIn(ResolveAll(m, winning), ids)
    ensures TotalBalance(ResolveAll(m, winning), ids) == TotalBalance(m, ids) + TotalNetWin(m, ids, winning)
  {
    ResolveAllConservesMoney(m, ids, winning);
    GrantsVanish(m, ids, winning);
  }

  lemma {:induction false} GrantsVanish(m: map<string, Player>, ids: seq<string>, winning: Pocket)
    requires AllIn(m, ids)
    requires forall i | 0 <= i < |ids| :: Solvent(m[ids[i]], winning)
    ensures TotalGrant(m, ids, winning) == 0
  {
    if ids != [] {
      assert Solvent(m[ids[0]], winning);
      GrantsVanish(m, ids[1..], winning);
    }
  }
}
