/**
 * The QuickIntel scan response (scanners/quickintel/scan.go), reduced to the
 * fields the token normalizer reads plus the dynamic honeypot flag, which it
 * does not read.
 */
module QuickIntel {
  import opened GoStrings

  datatype TokenDetails = TokenDetails(
    TokenName: GoString,
    TokenSymbol: GoString,
    TokenDecimals: int)

  datatype TokenDynamicDetails = TokenDynamicDetails(IsHoneypot: bool)

  datatype QuickiAudit = QuickiAudit(
    HiddenOwner: bool,
    HasExternalContractRisk: bool,
    CanMint: bool,
    CanBlacklist: bool,
    CanWhitelist: bool,
    CanPauseTrading: bool,
    HasTradingCooldown: bool)

  datatype QuickIntelResponse = QuickIntelResponse(
    TokenDetails: TokenDetails,
    TokenDynamicDetails: TokenDynamicDetails,
    QuickiAudit: QuickiAudit)

  /** The zero value `QuickIntelResponse{}`. */
  const ZeroResponse := QuickIntelResponse(
    TokenDetails([], [], 0),
    TokenDynamicDetails(false),
    QuickiAudit(false, false, false, false, false, false, false))
}
