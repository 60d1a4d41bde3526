/** What a flip promises: the order of its checks, the absence of any
    transfer on a rejection, an outcome only after confirmation, the payout
    rule and the UI state it leaves behind. */
module CoinflipProperties {

  import opened Optional
  import Fee
  import opened Coinflip

  /** True when the log holds no transfer submission. */
  predicate NoTransfer(log: seq<Event>)
  {
    forall i :: 0 <= i < |log| ==> !log[i].SubmitTransfer?
  }

  /** With no wallet the flip is refused at once: no UI update, no balance
      query, no transfer, nothing drawn. */
  lemma NotConnectedRejectsImmediately(input: FlipInput)
    requires input.sender.None?
    ensures Flip(input) == FlipRun(Rejected(NotConnected), [])
  {
  }

  /** A connected flip refuses a missing, zero or negative amount as invalid,
      and does so before the balance is consulted. */
  lemma InvalidAmountBeforeBalance(input: FlipInput)
    requires input.sender.Some?
    ensures Flip(input).result == Rejected(InvalidAmount)
        <==> input.amount.None? || input.amount.value <= 0
    ensures Flip(input).result == Rejected(InvalidAmount) ==>
              forall e :: e in Flip(input).log ==> !e.QueryBalance?
  {
  }

  /** Past the amount check, a balance below the bet is refused, reporting the
      balance; a balance equal to the bet gets through. */
  lemma InsufficientBalanceIff(input: FlipInput)
    requires input.sender.Some?
    requires input.amount.Some? && input.amount.value > 0
    ensures Flip(input).result == Rejected(InsufficientBalance(input.balance))
        <==> input.balance < input.amount.value
    ensures Flip(input).result.Rejected? && Flip(input).result.reason.InsufficientBalance?
        ==> input.balance < input.amount.value
  {
  }

  /** A recipient equal to the sender is always refused once the earlier
      checks pass. */
  lemma SelfTransferRejected(input: FlipInput)
    requires input.sender.Some?
    requires input.amount.Some? && 0 < input.amount.value <= input.balance
    requires ReceiverConfigured(input.betReceiver) && input.receiverWellFormed
    requires input.betReceiver == input.sender
    ensures Flip(input).result == Rejected(RecipientIsSender)
  {
  }

  /** The checks short-circuit in the fixed order of `CheckOrder`: a connected
      flip is refused exactly when some check fails, and then with the reason
      of the first failing one. */
  lemma {:induction false} ValidateFollowsCheckOrder(sender: Address, input: FlipInput)
    ensures match FirstFailure(CheckOrder, sender, input)
            case Some(i) => Validate(sender, input) == Reject(ReasonOf(CheckOrder[i], input))
            case None => Validate(sender, input).Accept?
  {
  }

  /** The same order seen on a whole flip: a connected flip is rejected
      exactly when a check fails, with the first failing check's reason. */
  lemma FlipFollowsCheckOrder(input: FlipInput)
    requires input.sender.Some?
    ensures match FirstFailure(CheckOrder, input.sender.value, input)
            case Some(i) => Flip(input).result == Rejected(ReasonOf(CheckOrder[i], input))
            case None => !Flip(input).result.Rejected?
  {
  }

  /** No transfer is sent on any rejection, and one is sent whenever the flip
      is not rejected. */
  lemma NoTransferIffRejected(input: FlipInput)
    ensures NoTransfer(Flip(input).log) <==> Flip(input).result.Rejected?
  {
    var run := Flip(input);
    if input.sender.Some? {
      var sender := input.sender.value;
      var v := Validate(sender, input);
      if v.Accept? {
        assert run.log[3] == SubmitTransfer(sender, v.recipient, v.amount);
      }
    }
  }

  /** The transfer, when there is one, is the only one, and it moves exactly
      the bet from the sender to the configured recipient. */
  lemma TransferMovesTheBetOnce(input: FlipInput)
    ensures forall i :: 0 <= i < |Flip(input).log| && Flip(input).log[i].SubmitTransfer? ==>
              && i == 3
              && Some(Flip(input).log[i].from) == input.sender
              && Some(Flip(input).log[i].to) == input.betReceiver
              && Some(Flip(input).log[i].amount as int) == input.amount
  {
  }

  /** The outcome is drawn exactly when the checks pass and the transfer is
      confirmed, and it is drawn right after the confirmation wait, which
      itself follows the transfer. */
  lemma OutcomeOnlyAfterConfirmation(input: FlipInput)
    ensures DrawOutcome in Flip(input).log <==>
              input.sender.Some? && Validate(input.sender.value, input).Accept?
              && input.transfer == Confirmed
    ensures forall i :: 0 <= i < |Flip(input).log| && Flip(input).log[i] == DrawOutcome ==>
              && 2 <= i
              && Flip(input).log[i - 1] == ConfirmTransfer
              && Flip(input).log[i - 2].SubmitTransfer?
  {
    var log := Flip(input).log;
    if input.sender.Some? {
      var sender := input.sender.value;
      var v := Validate(sender, input);
      var opening := [ShowChoice(input.choice), SetFlipping(true)];
      var closing := [SetFlipping(false), ClearChoice];
      if v.Reject? {
        assert v.reason == InvalidAmount ==> log == opening + [SetFlipping(false)] + closing;
        assert v.reason != InvalidAmount ==> log == opening + [QueryBalance(sender), SetFlipping(false)] + closing;
      } else {
        var submit := SubmitTransfer(sender, v.recipient, v.amount);
        var prefix := opening + [QueryBalance(sender), submit];
        match input.transfer
        case SendFailed =>
          assert log == prefix + closing;
        case ConfirmFailed =>
          assert log == prefix + [ConfirmTransfer] + closing;
        case Confirmed =>
          assert log == prefix + [ConfirmTransfer, DrawOutcome] + closing;
          assert log[5] == DrawOutcome;
      }
    }
  }

  /** A flip settles exactly when its outcome is drawn. */
  lemma SettledIffDrawn(input: FlipInput)
    ensures Flip(input).result.Settled? <==> DrawOutcome in Flip(input).log
  {
  }

  /** A failed or unconfirmed transfer ends the flip with `TransferFailed`
      and no outcome; it is the only way to get `TransferFailed`. */
  lemma TransferFailureNeverSettles(input: FlipInput)
    ensures Flip(input).result == TransferFailed <==>
              input.sender.Some? && Validate(input.sender.value, input).Accept?
              && input.transfer != Confirmed
    ensures Flip(input).result == TransferFailed ==> DrawOutcome !in Flip(input).log
  {
  }

  /** The payout rule: on settlement the fee is `calculateFee`'s fee on the
      bet in both cases, a win pays `payoutAfterFee`, a loss pays nothing and
      reports the opposite of the chosen side. */
  lemma PayoutRule(input: FlipInput)
    requires Flip(input).result.Settled?
    ensures input.amount.Some? && input.amount.value > 0
    ensures Flip(input).result.won == input.outcomeWin
    ensures Flip(input).result.fee == Fee.CalculateFee(input.amount.value, input.feeBasisPoints).fee
    ensures Flip(input).result.payout ==
              if input.outcomeWin
              then Fee.CalculateFee(input.amount.value, input.feeBasisPoints).payoutAfterFee
              else 0
    ensures Flip(input).result.landedSide ==
              if input.outcomeWin then input.choice else Opposite(input.choice)
  {
  }

  /** With a rate in [0, 10000], a settled payout lies between nothing and the bet. */
  lemma PayoutBounded(input: FlipInput)
    requires Flip(input).result.Settled?
    requires 0 <= input.feeBasisPoints <= Fee.BasisPointsPerWhole
    ensures 0 <= Flip(input).result.fee
    ensures 0 <= Flip(input).result.payout <= input.amount.value
  {
  }

  /** The UI state after a prefix of events followed by more events. */
  lemma {:induction false} ApplyEventsAppend(ui: UiState, a: seq<Event>, b: seq<Event>)
    ensures ApplyEvents(ui, a + b) == ApplyEvents(ApplyEvents(ui, a), b)
    decreases |a|
  {
    if |a| == 0 {
      assert a + b == b;
    } else {
      assert (a + b)[1..] == a[1..] + b;
      ApplyEventsAppend(ApplyEvent(ui, a[0]), a[1..], b);
    }
  }

  /** Whatever path a connected flip takes, the `finally` block leaves the
      coin still and no side chosen; with no wallet the UI is left untouched. */
  lemma {:induction false} FinalUiState(input: FlipInput, ui: UiState)
    ensures input.sender.Some? ==> ApplyEvents(ui, Flip(input).log) == Idle
    ensures input.sender.None? ==> ApplyEvents(ui, Flip(input).log) == ui
  {
    var log := Flip(input).log;
    if input.sender.Some? {
      var closing := [SetFlipping(false), ClearChoice];
      var head := log[..|log| - 2];
      assert log == head + closing;
      ApplyEventsAppend(ui, head, closing);
      var mid := ApplyEvents(ui, head);
      assert ApplyEvents(mid, closing)
          == ApplyEvents(ApplyEvent(ApplyEvent(mid, closing[0]), closing[1]), closing[2..]);
      assert closing[2..] == [];
    }
  }

  /** A connected flip first shows the chosen side and starts spinning. */
  lemma ShowsChoiceWhileFlipping(input: FlipInput, ui: UiState)
    requires input.sender.Some?
    ensures ApplyEvents(ui, Flip(input).log[..2]) == UiState(true, Some(input.choice))
  {
  }

  /** From an idle UI, every flip, connected or not, ends idle. */
  lemma IdleStaysIdle(input: FlipInput)
    ensures ApplyEvents(Idle, Flip(input).log) == Idle
  {
    FinalUiState(input, Idle);
  }

  // ---------------------------------------------------------------------------
  // Scenarios: 0.1 SOL bet on heads against a 1 SOL balance at the default rate.

  function TenthSolOnHeads(outcomeWin: bool): FlipInput
  {
    FlipInput(Some("payer"), Some(100_000_000), 1_000_000_000, Some("house"), true,
              Confirmed, outcomeWin, Heads, Fee.DefaultFeeBasisPoints)
  }

  /** Winning pays the bet less the 1.5% fee. */
  lemma WinningScenario()
    ensures Flip(TenthSolOnHeads(true)).result == Settled(true, 1_500_000, 98_500_000, Heads)
  {
  }

  /** Losing still settles: nothing is paid and the coin shows tails. */
  lemma LosingScenario()
    ensures Flip(TenthSolOnHeads(false)).result == Settled(false, 1_500_000, 0, Tails)
  {
  }

  /** A confirmation that never arrives ends in `TransferFailed`, nothing drawn. */
  lemma UnconfirmedScenario()
    ensures Flip(TenthSolOnHeads(true).(transfer := ConfirmFailed)).result == TransferFailed
    ensures DrawOutcome !in Flip(TenthSolOnHeads(true).(transfer := ConfirmFailed)).log
  {
  }

  // ---------------------------------------------------------------------------
  // The fee base at settlement time.

  /** As written, the fee is taken on the bet rounded to whole SOL: any bet
      below half a SOL rounds to 0, so a win pays nothing at all. */
  lemma AsWrittenSmallWinPaysNothing(amount: nat, choice: Side, feeBasisPoints: int)
    requires amount < LamportsPerSol / 2
    ensures SettleAsWritten(amount, true, choice, feeBasisPoints).payout == 0
  {
  }

  /** The concrete case: a winning 0.1 SOL bet. */
  lemma AsWrittenTenthSolWin()
    ensures SettleAsWritten(100_000_000, true, Heads, Fee.DefaultFeeBasisPoints) == Settled(true, 0, 0, Heads)
    ensures Settle(100_000_000, true, Heads, Fee.DefaultFeeBasisPoints) == Settled(true, 1_500_000, 98_500_000, Heads)
  {
  }

  /** Charged on lamports, a win on a positive bet at a rate below 10000
      always pays something, and never more than the bet. */
  lemma WinningPayoutPositive(amount: nat, choice: Side, feeBasisPoints: int)
    requires amount > 0
    requires 0 <= feeBasisPoints < Fee.BasisPointsPerWhole
    ensures 0 < Settle(amount, true, choice, feeBasisPoints).payout <= amount
  {
    Fee.FeeBelowBet(amount, feeBasisPoints);
  }
}
