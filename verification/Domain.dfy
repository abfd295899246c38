/** Kinds, states and the validation rules of internal/domain. */
module Domain {
  import opened Wrappers
  import opened Failures
  import opened Money
  import Int64

  datatype Kind = Opening | Bet | Win | Loss | Refund | Rollback | Unknown(name: string)

  datatype State = Pending | PendingReference | Processed | Rejected | Failed

  datatype Direction = Debit | Credit

  function KindText(k: Kind): string {
    match k
    case Opening => "OPENING"
    case Bet => "BET"
    case Win => "WIN"
    case Loss => "LOSS"
    case Refund => "REFUND"
    case Rollback => "ROLLBACK"
    case Unknown(name) => name
  }

  predicate IsTerminal(s: State) {
    s == Processed || s == Rejected || s == Failed
  }

  predicate IsWaiting(s: State) {
    s == Pending || s == PendingReference
  }

  predicate CanTransition(s: State, to: State) {
    match s
    case Pending => to == Processed || to == Rejected || to == PendingReference || to == Failed
    case PendingReference => to == Processed || to == Rejected || to == Failed
    case _ => false
  }

  predicate IsReversal(k: Kind) {
    k == Refund || k == Rollback
  }

  /** The zero policy: which amounts a kind accepts. */
  predicate AmountFitsKind(k: Kind, minor: int) {
    match k
    case Bet => minor > 0
    case Win => minor > 0
    case Refund => minor > 0
    case Rollback => minor > 0
    case Loss => minor == 0
    case Opening => minor >= 0
    case Unknown(_) => false
  }

  // ---------------------------------------------------------------- references

  datatype Operation = Operation(
    kind: Kind, amount: Money, provider: string, player: string, wallet: string, round: string)

  datatype Reference = Reference(
    kind: Kind, amount: Money, provider: string, player: string, wallet: string, round: string,
    state: State, reversed: bool)

  /** The operation and its reference concern the same money, party and round. */
  predicate Agrees(op: Operation, ref: Reference) {
    && op.provider == ref.provider
    && op.player == ref.player
    && op.wallet == ref.wallet
    && op.round == ref.round
    && op.amount == ref.amount
  }

  function ValidateReferenceAgreement(op: Operation, ref: Reference): (r: Option<Code>)
    ensures r.None? <==> Agrees(op, ref)
    ensures r == Some(ReferenceProviderMismatch) <==> op.provider != ref.provider
    ensures r == Some(ReferencePlayerMismatch) <==> op.provider == ref.provider && op.player != ref.player
    ensures r == Some(ReferenceWalletMismatch) <==>
            op.provider == ref.provider && op.player == ref.player && op.wallet != ref.wallet
    ensures r == Some(ReferenceCurrencyMismatch) <==>
            && op.provider == ref.provider && op.player == ref.player && op.wallet == ref.wallet
            && op.amount.currency != ref.amount.currency
    ensures r == Some(ReferenceRoundMismatch) <==>
            && op.provider == ref.provider && op.player == ref.player && op.wallet == ref.wallet
            && op.amount.currency == ref.amount.currency && op.round != ref.round
    ensures r == Some(AmountMismatch) <==>
            && op.provider == ref.provider && op.player == ref.player && op.wallet == ref.wallet
            && op.amount.currency == ref.amount.currency && op.round == ref.round
            && op.amount.minor != ref.amount.minor
  {
    if op.provider != ref.provider then Some(ReferenceProviderMismatch)
    else if op.player != ref.player then Some(ReferencePlayerMismatch)
    else if op.wallet != ref.wallet then Some(ReferenceWalletMismatch)
    else if op.amount.currency != ref.amount.currency then Some(ReferenceCurrencyMismatch)
    else if op.round != ref.round then Some(ReferenceRoundMismatch)
    else if op.amount != ref.amount then Some(AmountMismatch)
    else None
  }

  function ValidateWinReference(op: Operation, bet: Reference): (r: Option<Code>)
    ensures r.None? <==> bet.kind == Bet && bet.state == Processed && !bet.reversed && Agrees(op, bet)
    ensures r == Some(InvalidReversal) <==> bet.kind != Bet
    ensures r == Some(ReferenceNotProcessed) <==> bet.kind == Bet && bet.state != Processed
    ensures r == Some(ReferenceReversed) <==> bet.kind == Bet && bet.state == Processed && bet.reversed
    ensures bet.kind == Bet && bet.state == Processed && !bet.reversed ==> r == ValidateReferenceAgreement(op, bet)
  {
    if bet.kind != Bet then Some(InvalidReversal)
    else if bet.state != Processed then Some(ReferenceNotProcessed)
    else if bet.reversed then Some(ReferenceReversed)
    else ValidateReferenceAgreement(op, bet)
  }

  /** The anti-overpayment matrix: which reverser may undo which processed target. */
  predicate MayReverse(reverser: Kind, target: Kind) {
    || (reverser == Refund && target == Bet)
    || (reverser == Rollback && (target == Bet || target == Win || target == Refund))
  }

  function ValidateReversalTarget(reverser: Kind, target: Reference, activeWin: bool): (r: Option<Code>)
    ensures r.None? <==>
            && target.state == Processed
            && MayReverse(reverser, target.kind)
            && !target.reversed
            && !(target.kind == Bet && activeWin)
    ensures r == Some(AlreadyReversed) <==>
            target.state == Processed && MayReverse(reverser, target.kind) && target.reversed
    ensures r == Some(InvalidReversal) <==> target.state != Processed || !MayReverse(reverser, target.kind)
    ensures r == Some(BetHasActiveWin) <==>
            && target.state == Processed && MayReverse(reverser, target.kind) && !target.reversed
            && target.kind == Bet && activeWin
  {
    if target.state != Processed then Some(InvalidReversal)
    else if reverser == Refund && target.kind != Bet then Some(InvalidReversal)
    else if reverser == Rollback && !(target.kind == Bet || target.kind == Win || target.kind == Refund) then
      Some(InvalidReversal)
    else if reverser != Refund && reverser != Rollback then Some(InvalidReversal)
    else if target.reversed then Some(AlreadyReversed)
    else if target.kind == Bet && activeWin then Some(BetHasActiveWin)
    else None
  }

  // ---------------------------------------------------------------- wallets

  datatype WalletRow = WalletRow(player: string, currency: string, balance: int, version: int)

  /** RehydrateWallet accepts the row. */
  predicate Rehydrates(w: WalletRow) {
    ValidCurrency(w.currency) && w.version >= 1
  }

  /** The party check, then the amount, then the money; the first that fails gives the error. */
  function Credited(w: WalletRow, player: string, m: Money): (r: Result<WalletRow, Code>)
    ensures r == Err(WalletPlayerMismatch) <==> player != w.player
    ensures r == Err(CurrencyMismatch) <==> player == w.player && m.currency != w.currency
    ensures r == Err(InvalidAmountForKind) <==> player == w.player && m.currency == w.currency && m.minor <= 0
    ensures r == Err(MoneyOverflow) <==>
            player == w.player && m.currency == w.currency && m.minor > 0 && w.balance + m.minor > Int64.MAX
  {
    if player != w.player then Err(WalletPlayerMismatch)
    else if m.currency != w.currency then Err(CurrencyMismatch)
    else if m.minor <= 0 then Err(InvalidAmountForKind)
    else if w.balance + m.minor > Int64.MAX then Err(MoneyOverflow)
    else Ok(w.(balance := w.balance + m.minor, version := w.version + 1))
  }

  function Debited(w: WalletRow, player: string, m: Money): (r: Result<WalletRow, Code>)
    ensures r == Err(WalletPlayerMismatch) <==> player != w.player
    ensures r == Err(CurrencyMismatch) <==> player == w.player && m.currency != w.currency
    ensures r == Err(InvalidAmountForKind) <==> player == w.player && m.currency == w.currency && m.minor <= 0
    ensures r == Err(InsufficientBalance) <==>
            player == w.player && m.currency == w.currency && m.minor > 0 && w.balance < m.minor
  {
    if player != w.player then Err(WalletPlayerMismatch)
    else if m.currency != w.currency then Err(CurrencyMismatch)
    else if m.minor <= 0 then Err(InvalidAmountForKind)
    else if w.balance < m.minor then Err(InsufficientBalance)
    else Ok(w.(balance := w.balance - m.minor, version := w.version + 1))
  }

  /** The wallet aggregate: Credit and Debit update balance and version in place. */
  class Wallet {
    const player: string
    const currency: string
    var balance: Money
    var version: int

    ghost predicate Valid()
      reads this
    {
      && balance.currency == currency
      && 0 <= balance.minor <= Int64.MAX
    }

    function Row(): WalletRow
      reads this
    {
      WalletRow(player, currency, balance.minor, version)
    }

    constructor (row: WalletRow)
      requires 0 <= row.balance <= Int64.MAX
      ensures Valid() && Row() == row
    {
      player := row.player;
      currency := row.currency;
      balance := Money(row.balance, row.currency);
      version := row.version;
    }

    method Credit(operator: string, amount: Money) returns (r: Result<(Money, Money), Code>)
      requires Valid() && Int64.Fits(amount.minor)
      modifies this
      ensures Valid()
      ensures r.Ok? ==> Credited(old(Row()), operator, amount) == Ok(Row()) && r.value == (old(balance), balance)
      ensures r.Err? ==> Credited(old(Row()), operator, amount) == Err(r.error) && Row() == old(Row())
    {
      if operator != player {
        return Err(WalletPlayerMismatch);
      }
      if amount.currency != currency {
        return Err(CurrencyMismatch);
      }
      if amount.minor <= 0 {
        return Err(InvalidAmountForKind);
      }
      var after := Add(balance, amount);
      if after.Err? {
        return Err(after.error);
      }
      var before := balance;
      balance := after.value;
      version := version + 1;
      return Ok((before, after.value));
    }

    method Debit(operator: string, amount: Money) returns (r: Result<(Money, Money), Code>)
      requires Valid() && Int64.Fits(amount.minor)
      modifies this
      ensures Valid()
      ensures r.Ok? ==> Debited(old(Row()), operator, amount) == Ok(Row()) && r.value == (old(balance), balance)
      ensures r.Err? ==> Debited(old(Row()), operator, amount) == Err(r.error) && Row() == old(Row())
    {
      if operator != player {
        return Err(WalletPlayerMismatch);
      }
      if amount.currency != currency {
        return Err(CurrencyMismatch);
      }
      if amount.minor <= 0 {
        return Err(InvalidAmountForKind);
      }
      if balance.minor < amount.minor {
        return Err(InsufficientBalance);
      }
      var before, after := balance, Sub(balance, amount).value;
      balance := after;
      version := version + 1;
      return Ok((before, after));
    }
  }
}
