/** The stable failure codes of internal/domain/errors.go and internal/wagering. */
module Failures {
  datatype Code =
    | InvalidMoney
    | InvalidAmountForKind
    | CurrencyMismatch
    | WalletPlayerMismatch
    | InsufficientBalance
    | RollbackInsufficientBalance
    | OpeningNotAllowed
    | ReferenceRequired
    | AmountMismatch
    | ReferenceCurrencyMismatch
    | ReferenceWalletMismatch
    | ReferencePlayerMismatch
    | ReferenceRoundMismatch
    | ReferenceProviderMismatch
    | ReferenceReversed
    | ReferenceNotProcessed
    | AlreadyReversed
    | BetHasActiveWin
    | InvalidReversal
    | MoneyOverflow
    | IdempotencyConflict
    | WalletNotFound
    | ReferenceNotFound
    | InvalidRequest
    | InfraExhausted
    | UniqueViolation
    | StatementFailed
}
