# Live multiplayer roulette: bet resolution

A Dafny model of the game logic of the Streamlit roulette table in
`Snusnu.py`. One shared state holds a table of players keyed by the id of
each client session. Each record holds a display name, an integer balance, an
optional pending bet (a stake and a choice text) and a single notification
slot. When the wheel stops on a pocket, every pending bet is settled:

- an exact-number choice pays 35 times the stake;
- a colour choice pays even money;
- anything else loses the stake.

A balance that ends at or below zero is replaced by a loan of 1000. The
bankruptcy notification then replaces the win or loss notification. Every bet
is cleared afterwards.

Modules:

- `Roulette` (`Roulette.dfy`): pockets 0..36, the red-number list, the colour
  table and the decimal text of a pocket number (Python's `str`). It also
  classifies a choice against the drawn pocket. The exact number is tested
  first, then the colour.
- `Bets` (`Bets.dfy`): the `Bet`, `Notification` and `Player` records, the
  per-player rule `ResolveOne` and its pointwise lift `ResolveAll` to the
  whole table. Also the lemmas on payouts, on settling only once, and on
  conservation of money.
- `Table` (`Table.dfy`): the class `SharedState`. It holds the player map and
  the insertion order of its keys, which is the order a Python dict is walked
  in. Three methods: `Join`, `TakeNotification` (show and clear the
  notification) and `ResolveBets`. `ResolveBets` is the imperative loop and is
  proved equal to `ResolveAll`; its body for one bettor is the method
  `SettleBet`, proved equal to `ResolveOne`.
- `Scenarios` (`Scenarios.dfy`): worked rounds on concrete players, as examples.
- `Wrappers` (`Wrappers.dfy`): `Option`, standing for Python's `None` or a bet dict.

`resolve_bets` takes the winning number as a parameter, here of type `Pocket`
(0..36); drawing it is not modelled. A number outside 0..36 would fail the
colour-table lookup.

The code pays only exact-number and colour bets. It has no parity and no
third-of-range payouts, so the model has none either. A choice `"green"` is
matched as a colour, so it pays even money when 0 is drawn. The code only
ensures a balance above zero for players who had a bet. Players without a bet
are not touched.

## Model

| member | source | states |
|---|---|---|
| `Roulette.RouletteDataShape` | Snusnu.py:19-23 | The colour table `RouletteData` has an entry exactly for the keys 0..36. It maps 0 to green, every listed red number to red, and every other number in 1..36 to black. |
| `Roulette.ColourRule` | Snusnu.py:19-21 | A number is green if and only if it is 0, red if and only if it is in the red list, and black if and only if it is neither. |
| `Roulette.PocketColour` | Snusnu.py:27 | The colour the table gives a pocket: green exactly for 0, red exactly for the listed numbers, black for every other pocket. |
| `Roulette.DecimalString` | Snusnu.py:36 | The text of a number is non-empty and made of digits. It is one character long exactly for numbers below 10. Its last character is the last decimal digit. Only the text of 0 starts with '0' (no leading zeros). |
| `Roulette.DecimalStringInjective` | Snusnu.py:36 | Two numbers with the same decimal text are equal. |
| `Roulette.NumberAndColourTextsDiffer` | Snusnu.py:36-39 | No colour name equals the text of a number, so the exact-number test and the colour test never both match. |
| `Roulette.Classify` | Snusnu.py:36-43 | A choice is an exact win if and only if it is the drawn pocket's decimal text. It is a colour win if and only if it is the name of the drawn pocket's colour; the exact-number test coming first never hides a colour win. Every other choice is a loss. |
| `Roulette.NumberChoiceWinsOnlyOnItsPocket` | Snusnu.py:36-38 | The text of any natural number k is an exact win if and only if k is drawn. It is never a colour win. |
| `Roulette.ColourChoiceWinsOnlyOnItsColour` | Snusnu.py:27-41 | A colour choice is a colour win if and only if the drawn pocket has that colour in the table. It is never an exact win. |
| `Roulette.LeadingZeroIsNoNumber` | Snusnu.py:36 | A text of two or more characters starting with '0' (such as "07") is the decimal text of no number. |
| `Roulette.UnmatchedChoiceLoses` | Snusnu.py:36-43 | A choice that is neither a number's text nor a colour name always loses. |
| `Bets.ResolveOne` | Snusnu.py:29-54 | A player without a bet is returned unchanged. For a bettor, call old balance plus the bet's effect the pre-correction balance. If it is at or below 0, the balance becomes 1000 and the notification Bankrupt. Otherwise the balance is the pre-correction balance, and the notification is Won(choice) on either kind of win and Lost(stake, choice) on a loss. The bet is cleared and the name kept. Every bettor ends with a positive balance. |
| `Bets.ResolveAll` | Snusnu.py:28-54 | Resolving the table keeps its ids. Every bet is cleared and every name kept. Players without a bet are unchanged. Every bettor has a positive balance. |
| `Bets.NewPlayer` | Snusnu.py:70 | A new record carries the given name, balance 1000, no bet and an empty notification. |
| `Bets.WinningsByChoice` | Snusnu.py:36-43 | The bet's effect before the bankruptcy check (`Winnings`): a bet on the text of number k gains 35 times the stake if k is drawn and loses the stake otherwise; a bet on a colour name gains the stake if the drawn pocket has that colour and loses it otherwise. |
| `Bets.BankruptcyOverridesWin` | Snusnu.py:36-48 | For every player whose exact-number or colour bet wins but leaves the balance at or below 0, the result is balance 1000, bet cleared, name kept and notification Bankrupt. |
| `Bets.GreenPaysEvenMoneyOnZero` | Snusnu.py:27-52 | For every player betting "green" when 0 is drawn: the balance gains the stake with a Won("green") notification, or, if that is still at or below 0, becomes 1000 with Bankrupt. |
| `Bets.NumberBetPayout` | Snusnu.py:36-43 | When no bankruptcy occurs, a bet on number k gains 35 times the stake if k is drawn. On any other pocket it loses the stake. |
| `Bets.ColourBetPayout` | Snusnu.py:39-43 | When no bankruptcy occurs, a colour bet gains the stake on a pocket of that colour. On any other pocket it loses the stake. |
| `Bets.ResolveAllSettlesOnce` | Snusnu.py:28-54 | A second resolution, on any pocket, leaves the table as the first resolution left it. No bet is paid twice. |
| `Bets.ResolveOneSettlement` | Snusnu.py:36-48 | A player's balance moves by the bet's effect plus the bankruptcy grant, which is never negative, and by nothing else. |
| `Bets.ResolveAllConservesMoney` | Snusnu.py:28-48 | Over any list of ids, the total balance after resolution is the old total plus the bets' effects plus the bankruptcy grants. |
| `Bets.GrantsVanish` | Snusnu.py:46-47 | If no player in the list would fall to or below 0, no grant is paid. |
| `Bets.NoBankruptcyNoGrant` | Snusnu.py:28-48 | If nobody goes bankrupt, the total balance moves by exactly the payouts minus the lost stakes. |
| `Table.SharedState.constructor` | Snusnu.py:7-14 | The shared state starts with no players. |
| `Table.SharedState.Join` | Snusnu.py:67-70 | A session id without a record gets balance 1000, no bet and an empty notification under the given name. It is appended to the insertion order, and other records are unchanged. An id already present changes nothing. |
| `Table.SharedState.TakeNotification` | Snusnu.py:72-77 | A non-empty notification is returned and its slot emptied; nothing else changes. Otherwise nothing changes and nothing is shown. |
| `Table.SharedState.ResolveBets` | Snusnu.py:26-54 | The loop visits the players in insertion order, skips those without a bet and replaces each bettor's record. The resulting table is `ResolveAll` of the old one; the order is unchanged. |
| `Table.SettleBet` | Snusnu.py:31-54 | The loop body for one bettor (exact-number test, then colour test, then the bankruptcy check and the notification, then clearing the bet) yields exactly `ResolveOne` of the record. |
| `Scenarios.ExactNumberRound` | Snusnu.py:36-52 | Example: balance 1000 with 500 on "7": drawing 7 gives 18500 with a win notification. Drawing 12 (red) gives 500 with a loss notification. |
| `Scenarios.LeadingZeroChoiceLoses` | Snusnu.py:36-52 | Example: balance 1000 with 100 on "07", drawing 7: "07" is neither 7's text nor a colour, so the balance is 900 with Lost(100, "07"). |
| `Scenarios.BankruptcyRound` | Snusnu.py:42-48 | Example: balance 40 with 40 on "black", drawing 7 (red): 0 is bankrupt, so the balance is 1000 and the notification Bankrupt. |

## Left out

- Streamlit rendering: page setup, sidebar, balance metric, the board grid (`draw_board`) and message texts. These are presentation. The notification is a datatype and its emoji text is not modelled.
- The random session id and the random draw of the winning number. They are inputs here, an arbitrary string id and a `Pocket`.
- Placing a bet is not modelled; `ResolveBets` accepts any table, including ones with bets.
- A bet value that is present but falsy (an empty dict) is skipped by the source. It has no counterpart here, because a bet is either absent or a full `Bet`.
- Player records are values inside the map. The sharing of one record object between the loop and other references (aliasing) is not modelled.
- The unused shared fields `history`, `last_result`, `is_spinning` and `winning_color` are not modelled: `resolve_bets`, joining and clearing a notification never touch them.
- The cached process-wide state and concurrent client sessions are not modelled. The model is single-threaded, and every operation runs to completion.
- The stake is an unbounded integer. The source does not restrict it, and neither does the model (Python integers do not overflow).
