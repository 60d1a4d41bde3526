# Coinflip wager settlement, modelled in Dafny

The repository is a Solana coinflip web page: a user connects a wallet, enters
a bet in SOL, picks heads or tails, sends the bet to a configured recipient
and is told whether they won. A house fee (150 basis points unless configured)
is computed on the bet whatever the outcome: it is deducted from a win's payout
and reported as collected on a loss.
Two pieces of it carry business rules, and this project models exactly those:

- **The house fee** (`calculateFee`, `lib/fee.ts`), module `Fee` in `fee.dfy`:
  the fee is the bet times a rate in basis points divided by 10000, rounded
  down, and the payout after the fee is the rest of the bet. The rate, which
  the source reads from the environment with a default of 150, is an explicit
  argument.
- **The settlement procedure** inside `flipCoin` (`components/Coinflip.tsx`),
  module `Coinflip` in `coinflip.dfy`: a short-circuiting validator (wallet
  connected, amount valid, balance sufficient, recipient configured, recipient
  well-formed, recipient not the sender), then transfer, confirmation, outcome
  and payout. `Flip` is a pure function from the abstracted inputs to the
  result shown to the user and the ordered log of effects (UI updates, the
  balance query, the transfer, the confirmation wait, the outcome draw).
  `FirstFailure` over `CheckOrder` is an independent statement of "the first
  failing check decides".

The properties relating several calls live in `coinflip_properties.dfy`
(module `CoinflipProperties`); `optional.dfy` holds the `Option` type.
Amounts are integers in the smallest unit (lamports). The bet is a natural number inside the fee calculation; the entered amount is an integer, so that values of 0 or less can be refused; fees and payouts are integers because the rate is. The one exception is `Coinflip.SettleAsWritten`, whose fee and payout are whole SOL.

Facts about the code that shape the model:
- The code checks the balance (components/Coinflip.tsx:54-60) before the recipient (:62-85).
- It draws a win flag rather than a side (:111) and derives the landed side from it (:130).
- It has no minimum or maximum bet apart from the input's `min` and `max` attributes (:171-172), which `flipCoin` does not enforce.
- Its result carries no wager id, status, signature or timestamp.
- Settlement charges the fee on the bet in lamports, not on the whole-SOL rounding of line 112; see "## Left out" and "## Findings".

## Model

| member | source | states |
|---|---|---|
| Fee.CalculateFee | lib/fee.ts:6-11 | the fee is the floor of bet × rate / 10000 (its scaled value is within one whole below the product), and fee plus payout equals the bet exactly |
| Fee.CalculateDefaultFee | lib/fee.ts:3-11 | the same two facts at the default rate of 150 basis points |
| Fee.FloorFeeUnique | lib/fee.ts:8 | any number with the floor property is the computed fee, so the fee is exactly the floor of bet × rate / 10000 |
| Fee.FeeBounds | lib/fee.ts:8-9 | with a rate in [0, 10000] the fee and the payout both lie between 0 and the bet |
| Fee.FeeMonotoneInBet | lib/fee.ts:8 | for a non-negative rate a larger bet never pays a smaller fee |
| Fee.PayoutMonotoneInBet | lib/fee.ts:8-9 | for a rate in [0, 10000] a larger bet never gets a smaller payout |
| Fee.FeeMonotoneInRate | lib/fee.ts:8 | a higher rate never charges a smaller fee on the same bet |
| Fee.FeeBelowBet | lib/fee.ts:8-9 | on a positive bet a rate below 10000 leaves a fee strictly below the bet and a positive payout |
| Fee.ZeroRateChargesNothing | lib/fee.ts:8-9 | a zero rate gives fee 0 and payout equal to the bet |
| Fee.FullRateTakesEverything | lib/fee.ts:8-9 | a rate of 10000 takes the whole bet as fee and pays 0 |
| Fee.FeeWaivedIff | lib/fee.ts:8 | for a non-negative rate the fee is 0 exactly when bet × rate is below 10000 |
| Fee.DefaultFeeWaivedIff | lib/fee.ts:3-8 | at 150 basis points the fee is 0 exactly for bets of at most 66 units |
| Fee.DefaultFeeExamples | lib/fee.ts:3-10 | at 150 basis points a bet of 1000 gives (15, 985) and a bet of 7 gives (0, 7) |
| Coinflip.Opposite | components/Coinflip.tsx:130 | the side reported on a loss differs from the chosen side |
| Coinflip.ApplyEvent | components/Coinflip.tsx:41-42 | a single effect changes the spinning flag only if it is a `setIsFlipping` call, which sets it to its argument, and changes the choice only if it is a `setChoice` call; clearing sets the choice to none |
| Coinflip.ApplyEvents | components/Coinflip.tsx:144-147 | a run of effects with no `setIsFlipping` call leaves the spinning flag as it was, and one with no `setChoice` call leaves the choice as it was |
| Coinflip.ReceiverConfigured | components/Coinflip.tsx:63-64 | the recipient counts as not configured exactly when the variable is unset or the empty string, the two falsy values of a string variable |
| Coinflip.Validate | components/Coinflip.tsx:46-85 | a connected flip is accepted exactly when the amount is present and positive, covered by the balance, the recipient is configured and non-empty, well-formed and not the sender; an accepted verdict carries that amount and recipient |
| Coinflip.FirstFailure | components/Coinflip.tsx:47-85 | the index returned is of a failing check all of whose predecessors pass; none is returned only when every check passes |
| Coinflip.Settle | components/Coinflip.tsx:111-113 | a confirmed flip settles; it is won exactly when the landed side is the chosen one; the fee is the floor fee on the bet; a win pays the bet less the fee, a loss pays 0 |
| Coinflip.Transact | components/Coinflip.tsx:92-113 | the transfer of the bet to the recipient comes first; the flip settles and the outcome is drawn exactly when the transfer is confirmed, otherwise it ends in TransferFailed |
| Coinflip.TryBlock | components/Coinflip.tsx:44-143 | the body of the try block rejects exactly when validation rejects |
| Coinflip.Flip | components/Coinflip.tsx:32-151 | the flip is rejected as NotConnected exactly when no wallet is connected; a connected flip's effects start by showing the choice and spinning and end by stopping and clearing the choice |
| Coinflip.RoundToWholeSol | components/Coinflip.tsx:112 | the result is the whole number of SOL nearest to the lamport amount, halves rounded up |
| Coinflip.SettleAsWritten | components/Coinflip.tsx:112-113 | as written, the fee and the payout are computed on the bet rounded to whole SOL, in whole SOL; on a win they add up to that rounded amount, on a loss the payout is 0 |
| CoinflipProperties.NotConnectedRejectsImmediately | components/Coinflip.tsx:35-38 | with no wallet the result is NotConnected and no effect at all happens |
| CoinflipProperties.InvalidAmountBeforeBalance | components/Coinflip.tsx:46-51 | a connected flip is rejected as InvalidAmount exactly when the amount is missing or not positive, and then the balance is never queried |
| CoinflipProperties.InsufficientBalanceIff | components/Coinflip.tsx:54-60 | past the amount check, InsufficientBalance (with the balance) happens exactly when the balance is below the bet; a balance equal to the bet passes |
| CoinflipProperties.SelfTransferRejected | components/Coinflip.tsx:81-85 | once the earlier checks pass, a recipient equal to the sender is always rejected |
| CoinflipProperties.ValidateFollowsCheckOrder | components/Coinflip.tsx:47-85 | validation rejects exactly when some check in the order amount, balance, configured, well-formed, distinct fails, with the reason of the first failing one |
| CoinflipProperties.FlipFollowsCheckOrder | components/Coinflip.tsx:44-85 | a connected flip's result is the first failing check's rejection, and it is not a rejection when all checks pass |
| CoinflipProperties.NoTransferIffRejected | components/Coinflip.tsx:92-105 | the effect log holds no transfer exactly when the flip is rejected |
| CoinflipProperties.TransferMovesTheBetOnce | components/Coinflip.tsx:90-105 | at most one transfer is sent, always as the fourth effect, from the sender to the configured recipient for exactly the bet |
| CoinflipProperties.OutcomeOnlyAfterConfirmation | components/Coinflip.tsx:105-111 | the outcome is drawn exactly when the checks pass and the transfer is confirmed, and only immediately after the confirmation wait that follows the transfer |
| CoinflipProperties.SettledIffDrawn | components/Coinflip.tsx:108-113 | a flip settles exactly when its outcome is drawn |
| CoinflipProperties.TransferFailureNeverSettles | components/Coinflip.tsx:138-143 | TransferFailed happens exactly when the checks pass and the transfer is not confirmed, and then no outcome is drawn |
| CoinflipProperties.PayoutRule | components/Coinflip.tsx:111-135 | on settlement the bet was positive, won equals the drawn flag, the fee is calculateFee's fee on the bet either way, a win pays payoutAfterFee and a loss 0, and a loss reports the opposite side |
| CoinflipProperties.PayoutBounded | components/Coinflip.tsx:112-113 | with a rate in [0, 10000] a settled fee is non-negative and the payout lies between 0 and the bet |
| CoinflipProperties.ApplyEventsAppend | components/Coinflip.tsx:12-13 | applying two logs one after the other equals applying their concatenation |
| CoinflipProperties.FinalUiState | components/Coinflip.tsx:144-147 | after any connected flip the UI is not spinning and has no choice; with no wallet the UI is left as it was |
| CoinflipProperties.ShowsChoiceWhileFlipping | components/Coinflip.tsx:41-42 | after its first two effects a connected flip shows the chosen side and is spinning |
| CoinflipProperties.IdleStaysIdle | components/Coinflip.tsx:35-147 | from an idle UI every flip, connected or not, ends idle |
| CoinflipProperties.WinningScenario | components/Coinflip.tsx:111-124 | a winning 0.1 SOL bet on heads at 150 basis points settles with fee 1500000 and payout 98500000 lamports |
| CoinflipProperties.LosingScenario | components/Coinflip.tsx:125-134 | the same bet lost settles with payout 0 and the coin on tails |
| CoinflipProperties.UnconfirmedScenario | components/Coinflip.tsx:105-111 | the same bet whose confirmation fails ends in TransferFailed with no outcome drawn |
| CoinflipProperties.AsWrittenSmallWinPaysNothing | components/Coinflip.tsx:112-113 | as written, every winning bet below half a SOL pays 0 |
| CoinflipProperties.AsWrittenTenthSolWin | components/Coinflip.tsx:112-113 | as written a winning 0.1 SOL bet gets fee 0 and payout 0; charged on lamports it gets 1500000 and 98500000 |
| CoinflipProperties.WinningPayoutPositive | components/Coinflip.tsx:112-113 | charged on lamports, a win on a positive bet at a rate below 10000 pays more than 0 and at most the bet |

## Left out

- Fee.CalculateFee: the source computes `betAmount * FEE_BASIS_POINTS / 10000`, the floor and the subtraction in IEEE doubles, while the model computes on unbounded integers. The two agree while bet × rate is at most 2^53, where the product is exact and the quotient's rounding error is below the 1/10000 gap to the next integer. Beyond that the source's fee can be off by one: at 150 basis points a bet of 1093733162871000 gets 16405997443064 in doubles against the exact floor 16405997443065, and at 151 basis points a bet of 59650326192649 gets 900719925509 against 900719925508.
- Coinflip.Settle (and through it Coinflip.Flip, CoinflipProperties.PayoutRule, CoinflipProperties.WinningScenario and CoinflipProperties.LosingScenario): settlement charges the fee on the bet in lamports, not on `calculateFee(Math.round(amount))` of line 112, which rounds the bet to whole SOL; the rule as written is Coinflip.SettleAsWritten, and the discrepancy is recorded under "## Findings".
- Floating point: `parseFloat`, `toFixed`, the `potentialWin` display and `Math.round(amount * LAMPORTS_PER_SOL)` are not modelled; the bet and the balance are given in lamports, and a bet that does not parse to a finite number is an absent amount.
- `Math.random()` and the 300 ms `setTimeout`: the outcome is the parameter `outcomeWin`.
- `getBalance`: its result is the parameter `balance`; a failing balance query, which would reach the catch block and show the error's own message (the generic text only when it has none), is not modelled.
- `getLatestBlockhash` is not modelled; its failure, like a transfer failure, would end in the catch block.
- `sendTransaction` and `confirmTransaction` become the parameter `transfer`. `Confirmed` means both calls returned; the source does not inspect the status that `confirmTransaction` returns, and neither does the model.
- `new PublicKey(...)` becomes the flag `receiverWellFormed`. Address equality is equality of the address text. The constructor accepts only base58 text that decodes to exactly 32 bytes, and that decoding is one-to-one, so for a well-formed recipient text equality agrees with `recipientPubkey.equals(publicKey)` as long as the sender is given as its base58 text.
- Reading `process.env`: the fee rate and the recipient are explicit inputs. Parsing the rate with `Number(...)` is not modelled, so a rate that is not a number, and a non-integer rate such as 12.5, which the integer rate parameter cannot take, are out of scope. `FEE_TREASURY` is not used by the core.
- Toasts, `console.error`, the error message text and the JSX rendering: rejection reasons are constructors, not strings.
- Wallet and page wiring (`components/Providers.tsx`, `pages/_app.tsx`, `pages/index.tsx`), `next.config.ts` and `test-server.js` hold no business logic and are not part of this model.

## Findings

| source | as written | input that shows it | evidently intended | confidence | as-written member | corrected member |
|---|---|---|---|---|---|---|
| components/Coinflip.tsx:112 | the fee is computed as `calculateFee(Math.round(amount))` on the bet in SOL, so the bet is rounded to whole SOL before the fee is taken | a winning bet of 0.1 SOL (100000000 lamports) at 150 basis points: fee 0, payout 0 | the fee taken on the bet in lamports, as the transfer uses: fee 1500000, payout 98500000 lamports | high; not executed | Coinflip.SettleAsWritten, CoinflipProperties.AsWrittenSmallWinPaysNothing | Coinflip.Settle, CoinflipProperties.WinningPayoutPositive |
