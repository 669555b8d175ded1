/** Worked rounds of the resolution rule on concrete players and pockets. */
module Scenarios {
  import opened Wrappers
  import opened Roulette
  import opened Bets

  /** 500 on the number 7 from the starting balance: 7 drawn pays 35 to 1; 12 drawn loses the stake. */
  lemma ExactNumberRound()
    ensures ResolveOne(Player("ann", 1000, Some(Bet(500, "7")), NoNotification), 7) ==
            Player("ann", 18500, None, Won("7"))
    ensures ResolveOne(Player("ann", 1000, Some(Bet(500, "7")), NoNotification), 12) ==
            Player("ann", 500, None, Lost(500, "7"))
  {
  }

  /** Losing the whole balance triggers the loan and the bankruptcy notification. */
  lemma BankruptcyRound()
    ensures ResolveOne(Player("bo", 40, Some(Bet(40, "black")), Won("red")), 7) ==
            Player("bo", 1000, None, Bankrupt)
  {
  }

  /** "07" is not the text Python gives 7, so it loses when 7 is drawn. */
  lemma LeadingZeroChoiceLoses()
    ensures ResolveOne(Player("ed", 1000, Some(Bet(100, "07")), NoNotification), 7) ==
            Player("ed", 900, None, Lost(100, "07"))
  {
    LeadingZeroIsNoNumber("07");
    UnmatchedChoiceLoses("07", 7);
  }
}
