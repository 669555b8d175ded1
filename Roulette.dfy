/**
 * The roulette wheel: its 37 pockets, the fixed colour of each pocket, the
 * decimal text of a pocket number, and the classification of a bet's choice
 * against a drawn pocket.
 */
module Roulette {

  /** A pocket of the single-zero wheel. */
  type Pocket = n: int | 0 <= n <= 36

  datatype Colour = Green | Red | Black

  /** The pockets coloured red. */
  const RedNumbers: seq<int> := [1, 3, 5, 7, 9, 12, 14, 16, 18, 19, 21, 23, 25, 27, 30, 32, 34, 36]

  /** The colour rule for one pocket number: red if listed, otherwise black unless it is 0. */
  function ColourRule(i: int): (c: Colour)
    ensures c == Green <==> i == 0
    ensures c == Red <==> i in RedNumbers
    ensures c == Black <==> i != 0 && i !in RedNumbers
  {
    if i in RedNumbers then Red else if i != 0 then Black else Green
  }

  /** The colour table, defined for the pockets 0..36. */
  const RouletteData: map<int, Colour> := map i | 0 <= i < 37 :: ColourRule(i)

  /** The colour of pocket `n`, read from the table. */
  function PocketColour(n: Pocket): (c: Colour)
    ensures c == Green <==> n == 0
    ensures c == Red <==> n in RedNumbers
    ensures c == Black <==> n != 0 && n !in RedNumbers
  {
    RouletteData[n]
  }

  /** The text a player writes to bet on a colour. */
  function ColourName(c: Colour): (s: string)
    ensures |s| >= 3 && !IsDigit(s[0])
  {
    match c
    case Green => "green"
    case Red => "red"
    case Black => "black"
  }

  predicate IsDigit(ch: char) {
    '0' <= ch <= '9'
  }

  function Digit(d: nat): (ch: char)
    requires d < 10
    ensures IsDigit(ch)
  {
    (('0' as int) + d) as char
  }

  /** The decimal text of a natural number, without leading zeros. */
  function DecimalString(n: nat): (s: string)
    ensures |s| >= 1
    ensures |s| == 1 <==> n < 10
    ensures forall i | 0 <= i < |s| :: IsDigit(s[i])
    ensures s[|s| - 1] == Digit(n % 10)
    ensures s[0] == '0' ==> n == 0
  {
    if n < 10 then [Digit(n)] else DecimalString(n / 10) + [Digit(n % 10)]
  }

  /** How a bet's choice fares against the drawn pocket; the exact number is tested first. */
  datatype Outcome = ExactWin | ColourWin | Loss

  function Classify(choice: string, winning: Pocket): (o: Outcome)
    ensures o == ExactWin <==> choice == DecimalString(winning)
    ensures o == ColourWin <==> choice == ColourName(PocketColour(winning))
  {
    NumberAndColourTextsDiffer(winning, PocketColour(winning));
    if choice == DecimalString(winning) then ExactWin
    else if choice == ColourName(PocketColour(winning)) then ColourWin
    else Loss
  }

  /** The colour table is defined exactly on 0..36 and follows the colour rule. */
  lemma RouletteDataShape()
    ensures forall i :: i in RouletteData <==> 0 <= i <= 36
    ensures RouletteData[0] == Green
    ensures forall k | 0 <= k < |RedNumbers| :: RedNumbers[k] in RouletteData && RouletteData[RedNumbers[k]] == Red
    ensures forall i | 1 <= i <= 36 && i !in RedNumbers :: RouletteData[i] == Black
  {
  }

  /** Distinct numbers have distinct decimal texts. */
  lemma {:induction false} DecimalStringInjective(a: nat, b: nat)
    requires DecimalString(a) == DecimalString(b)
    ensures a == b
  {
    var s := DecimalString(a);
    if a >= 10 && b >= 10 {
      assert DecimalString(a / 10) == s[..|s| - 1] == DecimalString(b / 10);
      DecimalStringInjective(a / 10, b / 10);
      assert Digit(a % 10) == s[|s| - 1] == Digit(b % 10);
    }
  }

  /** No colour name is the decimal text of a number. */
  lemma NumberAndColourTextsDiffer(n: nat, c: Colour)
    ensures DecimalString(n) != ColourName(c)
  {
  }

  /** A bet on the number `k` wins the 35-to-1 payout exactly when `k` is drawn. */
  lemma NumberChoiceWinsOnlyOnItsPocket(k: nat, winning: Pocket)
    ensures Classify(DecimalString(k), winning) == ExactWin <==> winning == k
    ensures Classify(DecimalString(k), winning) != ColourWin
  {
    if DecimalString(k) == DecimalString(winning) {
      DecimalStringInjective(k, winning);
    }
    NumberAndColourTextsDiffer(k, PocketColour(winning));
  }

  /** A bet on a colour wins the even payout exactly when a pocket of that colour is drawn. */
  lemma ColourChoiceWinsOnlyOnItsColour(c: Colour, winning: Pocket)
    ensures Classify(ColourName(c), winning) == ColourWin <==> PocketColour(winning) == c
    ensures Classify(ColourName(c), winning) != ExactWin
  {
  }

  /** A text of two or more characters starting with '0' is no number's decimal text. */
  lemma LeadingZeroIsNoNumber(choice: string)
    requires |choice| >= 2 && choice[0] == '0'
    ensures forall k: nat :: choice != DecimalString(k)
  {
  }

  /** A choice that names no number and no colour always loses. */
  lemma UnmatchedChoiceLoses(choice: string, winning: Pocket)
    requires forall k: nat :: choice != DecimalString(k)
    requires choice != "green" && choice != "red" && choice != "black"
    ensures Classify(choice, winning) == Loss
  {
  }
}
