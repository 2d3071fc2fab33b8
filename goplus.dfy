/**
 * The GoPlus token-security result, as far as the token normalizer reads it:
 * name, symbol and taxes, and thirteen risk flags, every one a string.
 */
module GoPlus {
  import opened GoStrings

  datatype TokenSecurityResult = TokenSecurityResult(
    TokenName: GoString,
    TokenSymbol: GoString,
    BuyTax: GoString,
    SellTax: GoString,
    CanTakeBackOwnership: GoString,
    CannotBuy: GoString,
    CannotSellAll: GoString,
    ExternalCall: GoString,
    HiddenOwner: GoString,
    IsBlacklisted: GoString,
    IsHoneypot: GoString,
    IsMintable: GoString,
    IsOpenSource: GoString,
    IsWhitelisted: GoString,
    OwnerChangeBalance: GoString,
    TradingCooldown: GoString,
    TransferPausable: GoString)

  /** The zero value, which Scan returns on every error. */
  const ZeroResult := TokenSecurityResult(
    [], [], [], [], [], [], [], [], [], [], [], [], [], [], [], [], [])
}
