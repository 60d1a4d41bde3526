/** The wager settlement procedure inside `flipCoin` of components/Coinflip.tsx,
    as a pure function of its abstracted inputs.

    One flip yields the result the user is shown and the log of effects the
    procedure performs on the outside world in order: UI state updates, the
    balance query, the transfer, the confirmation wait and the outcome draw.
    The log is what makes "no transfer on a rejection" and "no outcome before
    confirmation" statable.  Amounts are integers in the smallest unit
    (lamports); the entered amount is an `int` so that values of 0 or less
    can be refused, and only `SettleAsWritten` reports whole SOL. */
module Coinflip {

  import opened Optional
  import Fee

  /** A wallet address in its textual form. */
  type Address = string

  datatype Side = Heads | Tails

  /** The side a losing coin is reported to have landed on. */
  function Opposite(side: Side): (other: Side)
    ensures other != side
  {
    match side
    case Heads => Tails
    case Tails => Heads
  }

  /** Why a flip was refused before any funds moved. */
  datatype Rejection =
    | NotConnected
    | InvalidAmount
    | InsufficientBalance(balance: nat)
    | RecipientNotConfigured
    | RecipientInvalid
    | RecipientIsSender

  /** What the wallet and the RPC node did with the transfer: the wallet's
      `sendTransaction` threw, `confirmTransaction` threw, or both returned. */
  datatype TransferStatus = SendFailed | ConfirmFailed | Confirmed

  datatype FlipResult =
    | Rejected(reason: Rejection)
    | TransferFailed
    | Settled(won: bool, fee: int, payout: int, landedSide: Side)

  /** Everything one flip depends on.
      - `sender`: the connected wallet's key, `None` when no wallet is connected;
      - `amount`: the entered bet, `None` when it does not parse to a finite number;
      - `balance`: what `getBalance` reports for the sender;
      - `betReceiver`: the configured recipient address, `None` when unset;
      - `receiverWellFormed`: whether that text parses as a public key;
      - `transfer`: what happens to the transfer once it is submitted;
      - `outcomeWin`: the coin's verdict, drawn after confirmation;
      - `choice`: the side the user picked;
      - `feeBasisPoints`: the configured house fee rate. */
  datatype FlipInput = FlipInput(
    sender: Option<Address>,
    amount: Option<int>,
    balance: nat,
    betReceiver: Option<string>,
    receiverWellFormed: bool,
    transfer: TransferStatus,
    outcomeWin: bool,
    choice: Side,
    feeBasisPoints: int)

  /** The effects a flip has outside its own computation, in the order it has them.
      `SubmitTransfer` records the call to the wallet's `sendTransaction`
      whatever that call's outcome, so it is present even when the user
      refuses the transfer in the wallet. */
  datatype Event =
    | ShowChoice(side: Side)
    | SetFlipping(on: bool)
    | ClearChoice
    | QueryBalance(owner: Address)
    | SubmitTransfer(from: Address, to: Address, amount: nat)
    | ConfirmTransfer
    | DrawOutcome

  datatype FlipRun = FlipRun(result: FlipResult, log: seq<Event>)

  /** The component's UI state: the spinning flag and the highlighted side. */
  datatype UiState = UiState(isFlipping: bool, choice: Option<Side>)

  const Idle: UiState := UiState(false, None)

  /** One effect applied to the UI state: only the setters touch it, each
      touching its own field. */
  function ApplyEvent(ui: UiState, e: Event): (r: UiState)
    ensures r.isFlipping != ui.isFlipping ==> e.SetFlipping?
    ensures r.choice != ui.choice ==> e.ShowChoice? || e.ClearChoice?
    ensures e.ShowChoice? ==> r.choice == Some(e.side)
    ensures e.SetFlipping? ==> r.isFlipping == e.on
    ensures e.ClearChoice? ==> r.choice == None
  {
    match e
    case ShowChoice(side) => ui.(choice := Some(side))
    case SetFlipping(on) => ui.(isFlipping := on)
    case ClearChoice => ui.(choice := None)
    case _ => ui
  }

  /** The UI state after the events of `log`, applied in order. */
  function ApplyEvents(ui: UiState, log: seq<Event>): (r: UiState)
    ensures (forall i :: 0 <= i < |log| ==> !log[i].SetFlipping?) ==> r.isFlipping == ui.isFlipping
    ensures (forall i :: 0 <= i < |log| ==> !log[i].ShowChoice? && !log[i].ClearChoice?) ==> r.choice == ui.choice
    decreases |log|
  {
    if |log| == 0 then ui else ApplyEvents(ApplyEvent(ui, log[0]), log[1..])
  }

  /** An unset or empty environment variable both count as not configured:
      those are the two falsy values a string variable can take. */
  predicate ReceiverConfigured(betReceiver: Option<string>)
    ensures !ReceiverConfigured(betReceiver) <==> betReceiver == None || betReceiver == Some("")
  {
    betReceiver.Some? && betReceiver.value != ""
  }

  datatype Verdict = Accept(recipient: Address, amount: nat) | Reject(reason: Rejection)

  /** The checks a connected flip runs before building the transfer, in the
      source's order: amount, balance, recipient configured, recipient
      well-formed, recipient distinct from the sender. */
  function Validate(sender: Address, input: FlipInput): (v: Verdict)
    ensures v.Accept? <==>
              && input.amount.Some? && input.amount.value > 0
              && input.amount.value <= input.balance
              && ReceiverConfigured(input.betReceiver)
              && input.receiverWellFormed
              && input.betReceiver.value != sender
    ensures v.Accept? ==>
              && input.amount == Some(v.amount as int)
              && input.betReceiver == Some(v.recipient)
    ensures v.Reject? ==> v.reason != NotConnected
  {
    if input.amount.None? || input.amount.value <= 0 then Reject(InvalidAmount)
    else if input.balance < input.amount.value then Reject(InsufficientBalance(input.balance))
    else if !ReceiverConfigured(input.betReceiver) then Reject(RecipientNotConfigured)
    else if !input.receiverWellFormed then Reject(RecipientInvalid)
    else if input.betReceiver.value == sender then Reject(RecipientIsSender)
    else Accept(input.betReceiver.value, input.amount.value)
  }

  /** The result of a flip whose transfer was confirmed: the fee is charged on
      the bet whatever the outcome, a win pays the bet less the fee, a loss
      pays nothing and reports the side the user did not choose. */
  function Settle(amount: nat, won: bool, choice: Side, feeBasisPoints: int): (r: FlipResult)
    ensures r.Settled? && r.won == won
    ensures r.won <==> r.landedSide == choice
    ensures Fee.IsFloorFee(amount, feeBasisPoints, r.fee)
    ensures won ==> r.fee + r.payout == amount
    ensures !won ==> r.payout == 0
  {
    var quote := Fee.CalculateFee(amount, feeBasisPoints);
    Settled(won, quote.fee, if won then quote.payoutAfterFee else 0,
            if won then choice else Opposite(choice))
  }

  /** The part after validation: submit the transfer, wait for it, and only
      then draw and settle the outcome.  A failure at either step ends the
      flip with `TransferFailed` and no retry. */
  function Transact(sender: Address, recipient: Address, amount: nat, input: FlipInput): (run: FlipRun)
    ensures |run.log| >= 1 && run.log[0] == SubmitTransfer(sender, recipient, amount)
    ensures run.result.Settled? <==> input.transfer == Confirmed
    ensures run.result.TransferFailed? <==> input.transfer != Confirmed
    ensures DrawOutcome in run.log <==> input.transfer == Confirmed
  {
    var send := [SubmitTransfer(sender, recipient, amount)];
    match input.transfer
    case SendFailed => FlipRun(TransferFailed, send)
    case ConfirmFailed => FlipRun(TransferFailed, send + [ConfirmTransfer])
    case Confirmed =>
      FlipRun(Settle(amount, input.outcomeWin, input.choice, input.feeBasisPoints),
              send + [ConfirmTransfer, DrawOutcome])
  }

  /** The body of the `try` block for a connected sender.  A bad amount is
      refused before the balance is queried; every other rejection comes after
      the query.  Each rejection clears the spinning flag itself. */
  function TryBlock(sender: Address, input: FlipInput): (run: FlipRun)
    ensures run.result.Rejected? <==> Validate(sender, input).Reject?
  {
    match Validate(sender, input)
    case Reject(InvalidAmount) => FlipRun(Rejected(InvalidAmount), [SetFlipping(false)])
    case Reject(reason) => FlipRun(Rejected(reason), [QueryBalance(sender), SetFlipping(false)])
    case Accept(recipient, amount) =>
      var rest := Transact(sender, recipient, amount, input);
      FlipRun(rest.result, [QueryBalance(sender)] + rest.log)
  }

  /** `flipCoin`: with no wallet it returns at once; otherwise it shows the
      chosen side, starts spinning, runs the `try` block, and its `finally`
      block stops the spinning and clears the choice. */
  function Flip(input: FlipInput): (run: FlipRun)
    ensures run.result == Rejected(NotConnected) <==> input.sender.None?
    ensures input.sender.Some? ==>
              && |run.log| >= 4
              && run.log[..2] == [ShowChoice(input.choice), SetFlipping(true)]
              && run.log[|run.log| - 2..] == [SetFlipping(false), ClearChoice]
  {
    match input.sender
    case None => FlipRun(Rejected(NotConnected), [])
    case Some(sender) =>
      var body := TryBlock(sender, input);
      FlipRun(body.result,
              [ShowChoice(input.choice), SetFlipping(true)] + body.log + [SetFlipping(false), ClearChoice])
  }

  // ---------------------------------------------------------------------------
  // The check order as data: a reference definition of "the first failing
  // check decides", against which `Validate` is proved.

  datatype Check =
    | AmountCheck
    | BalanceCheck
    | ReceiverConfiguredCheck
    | ReceiverFormatCheck
    | DistinctReceiverCheck

  const CheckOrder: seq<Check> :=
    [AmountCheck, BalanceCheck, ReceiverConfiguredCheck, ReceiverFormatCheck, DistinctReceiverCheck]

  /** Whether check `c` passes, judged on its own. */
  predicate Passes(c: Check, sender: Address, input: FlipInput)
  {
    match c
    case AmountCheck => input.amount.Some? && input.amount.value > 0
    case BalanceCheck => input.amount.Some? ==> input.amount.value <= input.balance
    case ReceiverConfiguredCheck => ReceiverConfigured(input.betReceiver)
    case ReceiverFormatCheck => input.receiverWellFormed
    case DistinctReceiverCheck => input.betReceiver.Some? ==> input.betReceiver.value != sender
  }

  /** The rejection each failing check reports. */
  function ReasonOf(c: Check, input: FlipInput): Rejection
  {
    match c
    case AmountCheck => InvalidAmount
    case BalanceCheck => InsufficientBalance(input.balance)
    case ReceiverConfiguredCheck => RecipientNotConfigured
    case ReceiverFormatCheck => RecipientInvalid
    case DistinctReceiverCheck => RecipientIsSender
  }

  /** The index of the first check in `checks` that fails, if any. */
  function FirstFailure(checks: seq<Check>, sender: Address, input: FlipInput): (r: Option<nat>)
    ensures r.Some? ==>
              && r.value < |checks|
              && !Passes(checks[r.value], sender, input)
              && forall j :: 0 <= j < r.value ==> Passes(checks[j], sender, input)
    ensures r.None? ==> forall j :: 0 <= j < |checks| ==> Passes(checks[j], sender, input)
    decreases |checks|
  {
    if |checks| == 0 then None
    else if !Passes(checks[0], sender, input) then Some(0)
    else match FirstFailure(checks[1..], sender, input)
      case None => None
      case Some(i) => Some(i + 1)
  }

  // ---------------------------------------------------------------------------
  // The fee as the source computes it at settlement time.

  const LamportsPerSol: nat := 1_000_000_000

  /** `Math.round` of an amount of lamports expressed in whole SOL: the
      nearest whole number, halves rounded up. */
  function RoundToWholeSol(lamports: nat): (r: nat)
    ensures r * LamportsPerSol <= lamports + LamportsPerSol / 2 < (r + 1) * LamportsPerSol
  {
    (lamports + LamportsPerSol / 2) / LamportsPerSol
  }

  /** Settlement as written: the fee is charged on the bet rounded to whole
      SOL, so fee and payout are whole SOL, not lamports. */
  function SettleAsWritten(amount: nat, won: bool, choice: Side, feeBasisPoints: int): (r: FlipResult)
    ensures r.Settled? && r.won == won
    ensures Fee.IsFloorFee(RoundToWholeSol(amount), feeBasisPoints, r.fee)
    ensures won ==> r.fee + r.payout == RoundToWholeSol(amount)
    ensures !won ==> r.payout == 0
  {
    var quote := Fee.CalculateFee(RoundToWholeSol(amount), feeBasisPoints);
    Settled(won, quote.fee, if won then quote.payoutAfterFee else 0,
            if won then choice else Opposite(choice))
  }
}
