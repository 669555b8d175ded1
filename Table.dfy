/**
 * The shared game state: the table of players, keyed by the id of the client
 * session, in the order the players joined. All clients act on one instance.
 */
module Table {
  import opened Wrappers
  import opened Roulette
  import opened Bets

  predicate NoDuplicates(s: seq<string>) {
    forall i, j | 0 <= i < j < |s| :: s[i] != s[j]
  }

  class SharedState {
    /** The player records, keyed by session id. */
    var players: map<string, Player>
    /** The keys of `players` in insertion order, the order resolution visits them in. */
    var order: seq<string>

    ghost predicate Valid()
      reads this
    {
      && (forall id :: id in players <==> id in order)
      && NoDuplicates(order)
    }

    /** The state as first created: nobody has joined. */
    constructor ()
      ensures Valid()
      ensures players == map[] && order == []
    {
      players := map[];
      order := [];
    }

    /**
     * A client whose id has no record yet joins under `name` with the starting
     * balance, no bet and an empty notification; a client already at the
     * table changes nothing.
     */
    method Join(id: string, name: string) returns (joined: bool)
      requires Valid()
      modifies this
      ensures Valid()
      ensures joined <==> id !in old(players)
      ensures joined ==> players == old(players)[id := NewPlayer(name)] && order == old(order) + [id]
      ensures !joined ==> players == old(players) && order == old(order)
    {
      joined := id !in players;
      if joined {
        players := players[id := Player(name, StartingBalance, None, NoNotification)];
        order := order + [id];
      }
    }

    /**
     * Shows and clears the player's pending notification. Returns the
     * notification shown, or `NoNotification` when there was none or the id
     * has no record; only that one slot changes.
     */
    method TakeNotification(id: string) returns (shown: Notification)
      requires Valid()
      modifies this
      ensures Valid() && order == old(order)
      ensures id in old(players) && old(players)[id].notif != NoNotification ==>
                shown == old(players)[id].notif &&
                players == old(players)[id := old(players)[id].(notif := NoNotification)]
      ensures !(id in old(players) && old(players)[id].notif != NoNotification) ==>
                shown == NoNotification && players == old(players)
    {
      shown := NoNotification;
      if id in players {
        var p := players[id];
        if p.notif != NoNotification {
          shown := p.notif;
          players := players[id := p.(notif := NoNotification)];
        }
      }
    }

    /**
     * Settles every pending bet against the drawn pocket, visiting the players
     * in insertion order and skipping those without a bet: the new table is the
     * per-player rule applied to each record, so every bet is cleared, the ids
     * and names are unchanged and every bettor's balance is positive.
     */
    method ResolveBets(winning: Pocket)
      requires Valid()
      modifies this
      ensures Valid() && order == old(order)
      ensures players == ResolveAll(old(players), winning)
    {
      var winColour := RouletteData[winning];
      var i := 0;
      while i < |order|
        invariant 0 <= i <= |order|
        invariant order == old(order) && Valid()
        invariant players.Keys == old(players).Keys
        invariant forall id | id in players ::
                    players[id] == if id in order[..i] then ResolveOne(old(players)[id], winning) else old(players)[id]
      {
        var id := order[i];
        var p := players[id];
        assert id !in order[..i] by {
          assert forall j | 0 <= j < i :: order[j] != order[i];
        }
        if p.bet != None {
          var q := SettleBet(p, winning, winColour);
          players := players[id := q];
        }
        assert order[..i + 1] == order[..i] + [id];
        i := i + 1;
      }
      assert order[..i] == order;
    }
  }

  /**
   * The body of the resolution loop for one bettor: the exact number is tested
   * first, then the colour of the drawn pocket; the new balance is checked for
   * bankruptcy, the notification set and the bet cleared.
   */
  method SettleBet(p: Player, winning: Pocket, winColour: Colour) returns (q: Player)
    requires p.bet.Some? && winColour == RouletteData[winning]
    ensures q == ResolveOne(p, winning)
  {
    var amount := p.bet.value.amount;
    var choice := p.bet.value.choice;

    var balance := p.balance;
    var isWin := false;
    if choice == DecimalString(winning) {
      balance := balance + amount * 35;
      isWin := true;
    } else if choice == ColourName(winColour) {
      balance := balance + amount;
      isWin := true;
    } else {
      balance := balance - amount;
    }

    var notif;
    if balance <= 0 {
      balance := 1000;
      notif := Bankrupt;
    } else if isWin {
      notif := Won(choice);
    } else {
      notif := Lost(amount, choice);
    }

    q := Player(p.name, balance, None, notif);
  }
}
