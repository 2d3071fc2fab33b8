/**
 * The multi-provider scan: each provider's report is normalized into a
 * TokenInfo and the three are merged worst-case, GoPlus first, honeypot.is
 * second and QuickIntel third.  When a GoPlus or honeypot.is request fails,
 * that scanner returns its zero-valued response with the error; a failed
 * QuickIntel request returns whatever part of the response was decoded.
 */
module MultiScan {
  import opened GoStrings
  import opened Token
  import TokenProperties
  import GoPlus
  import Honeypot
  import QuickIntel

  /**
   * Scan, with the three provider calls replaced by their responses.  Each
   * result reaches the merge through its own channel, so the merge always sees
   * the GoPlus record first, the honeypot.is record second and the QuickIntel
   * record third, whatever order the goroutines finish in.
   */
  method Scan(goPlus: GoPlus.TokenSecurityResult, honeypot: Honeypot.HoneypotResponse,
              quickIntel: QuickIntel.QuickIntelResponse)
    returns (unified: TokenInfo)
    // Text fields: the longest report wins, earlier providers win ties.
    ensures IsWorstString(goPlus.TokenName, honeypot.Token.Name, quickIntel.TokenDetails.TokenName, unified.TokenName)
    ensures IsWorstString(goPlus.TokenSymbol, honeypot.Token.Symbol, quickIntel.TokenDetails.TokenSymbol,
                          unified.TokenSymbol)
    // Only honeypot.is reports the pair, only GoPlus the taxes.
    ensures unified.UniswapV2Pair == honeypot.Pair.PairAddress
    ensures unified.BuyTax == goPlus.BuyTax && unified.SellTax == goPlus.SellTax
    // GoPlus reports no decimals, so a negative count from the others is raised to 0.
    ensures IsMax3(0, honeypot.Token.Decimals, quickIntel.TokenDetails.TokenDecimals, unified.Decimals)
    ensures unified.Decimals >= 0
    // Flags: raised as soon as one provider raises them.
    ensures unified.IsHoneypot
        == (ParsesTrue(goPlus.IsHoneypot) || honeypot.HoneypotResult.IsHoneypot || quickIntel.QuickiAudit.HiddenOwner)
    ensures unified.IsOpenSource == (ParsesTrue(goPlus.IsOpenSource) || honeypot.ContractCode.OpenSource)
    ensures unified.IsWhitelisted == (ParsesTrue(goPlus.IsWhitelisted) || quickIntel.QuickiAudit.CanWhitelist)
    ensures unified.IsMintable == (ParsesTrue(goPlus.IsMintable) || quickIntel.QuickiAudit.CanMint)
    ensures unified.TransferPausable
        == (ParsesTrue(goPlus.TransferPausable) || quickIntel.QuickiAudit.CanPauseTrading)
    ensures unified.IsBlacklisted == (ParsesTrue(goPlus.IsBlacklisted) || quickIntel.QuickiAudit.CanBlacklist)
    ensures unified.ExternalCall
        == (ParsesTrue(goPlus.ExternalCall) || quickIntel.QuickiAudit.HasExternalContractRisk)
    ensures unified.TradingCooldown
        == (ParsesTrue(goPlus.TradingCooldown) || quickIntel.QuickiAudit.HasTradingCooldown)
    ensures unified.CanTakeBackOwnership == ParsesTrue(goPlus.CanTakeBackOwnership)
    ensures unified.OwnerChangeBalance == ParsesTrue(goPlus.OwnerChangeBalance)
    ensures unified.CannotBuy == ParsesTrue(goPlus.CannotBuy)
    ensures unified.CannotSellAll == ParsesTrue(goPlus.CannotSellAll)
    ensures unified.HiddenOwner == ParsesTrue(goPlus.HiddenOwner)
    ensures !unified.PersonalSlippageModifiable
    // Every provider failed: nothing is reported.
    ensures goPlus == GoPlus.ZeroResult && honeypot == Honeypot.ZeroResponse && quickIntel == QuickIntel.ZeroResponse
            ==> unified == Zero
  {
    var goPlusInfo := InitTokenInfoFromGoPlus(goPlus);
    var honeypotInfo := InitTokenInfoFromHoneypotResponse(honeypot);
    var quickIntelInfo := InitTokenInfoFromQuickIntelResponse(quickIntel);
    unified := UnifyTokenInfo(goPlusInfo, honeypotInfo, quickIntelInfo);
    TokenProperties.UnifiedTexts(goPlusInfo, honeypotInfo, quickIntelInfo, unified);
    if goPlus == GoPlus.ZeroResult && honeypot == Honeypot.ZeroResponse && quickIntel == QuickIntel.ZeroResponse {
      assert !ParsesTrue([]);
      forall f ensures !Bool(goPlusInfo, f) {
        match f
        case IsHoneypot =>
        case IsOpenSource =>
        case IsWhitelisted =>
        case CanTakeBackOwnership =>
        case OwnerChangeBalance =>
        case CannotBuy =>
        case CannotSellAll =>
        case IsMintable =>
        case HiddenOwner =>
        case TransferPausable =>
        case IsBlacklisted =>
        case ExternalCall =>
        case TradingCooldown =>
        case PersonalSlippageModifiable =>
      }
      GoPlusZeroResult(goPlusInfo);
      TokenProperties.HoneypotZeroResponse();
      TokenProperties.QuickIntelZeroResponse();
      TokenProperties.UnifyAllFailures(unified);
    }
  }

  /** A record with the GoPlus normalizer's contract for the zero result is the zero record. */
  lemma GoPlusZeroResult(t: TokenInfo)
    requires t.TokenName == [] && t.TokenSymbol == [] && t.BuyTax == [] && t.SellTax == []
    requires t.Decimals == 0 && t.UniswapV2Pair == [] && !t.PersonalSlippageModifiable
    requires forall f :: !Bool(t, f)
    ensures t == Zero
  {
    forall g ensures Text(t, g) == Text(Zero, g) {
      match g
      case TokenName =>
      case TokenSymbol =>
      case UniswapV2Pair =>
      case BuyTax =>
      case SellTax =>
    }
    TokenInfoExt(t, Zero);
  }
}
