/**
 * Properties of the normalizers and of the worst-case merge that relate
 * several calls: the merge specification pins down one result; merging a
 * record with itself gives it back with PersonalSlippageModifiable cleared,
 * and merging it with two failed (zero) reports does the same and also raises
 * a negative Decimals to 0; the argument order matters only for ties between
 * equally long strings.
 */
module TokenProperties {
  import opened GoStrings
  import opened Token
  import QuickIntel
  import Honeypot

  // ---------------------------------------------------------------------------
  // Normalizers
  // ---------------------------------------------------------------------------

  /** A zero-valued QuickIntel response normalizes to the zero record. */
  lemma QuickIntelZeroResponse()
    ensures InitTokenInfoFromQuickIntelResponse(QuickIntel.ZeroResponse) == Zero
  {
  }

  /** The QuickIntel normalizer does not read the dynamic honeypot flag. */
  lemma QuickIntelIgnoresDynamicDetails(response: QuickIntel.QuickIntelResponse, d: QuickIntel.TokenDynamicDetails)
    ensures InitTokenInfoFromQuickIntelResponse(response.(TokenDynamicDetails := d))
         == InitTokenInfoFromQuickIntelResponse(response)
  {
  }

  /** A zero-valued honeypot.is response normalizes to the zero record. */
  lemma HoneypotZeroResponse()
    ensures InitTokenInfoFromHoneypotResponse(Honeypot.ZeroResponse) == Zero
  {
  }

  /** The honeypot.is normalizer does not read the top-level PairAddress. */
  lemma HoneypotIgnoresTopLevelPairAddress(response: Honeypot.HoneypotResponse, p: GoString)
    ensures InitTokenInfoFromHoneypotResponse(response.(PairAddress := p))
         == InitTokenInfoFromHoneypotResponse(response)
  {
  }

  // ---------------------------------------------------------------------------
  // The merge specification determines its result
  // ---------------------------------------------------------------------------

  lemma WorstStringUnique(a: GoString, b: GoString, c: GoString, r1: GoString, r2: GoString)
    requires IsWorstString(a, b, c, r1) && IsWorstString(a, b, c, r2)
    ensures r1 == r2
  {
  }

  /** At most one record satisfies IsUnified, so UnifyTokenInfo is deterministic. */
  lemma UnifiedUnique(info1: TokenInfo, info2: TokenInfo, info3: TokenInfo, u: TokenInfo, v: TokenInfo)
    requires IsUnified(info1, info2, info3, u) && IsUnified(info1, info2, info3, v)
    ensures u == v
  {
    UnifiedFlags(info1, info2, info3, u);
    UnifiedFlags(info1, info2, info3, v);
    forall g ensures Text(u, g) == Text(v, g) {
      WorstStringUnique(Text(info1, g), Text(info2, g), Text(info3, g), Text(u, g), Text(v, g));
    }
    TokenInfoExt(u, v);
  }

  /** The flag half of IsUnified, over every flag selector at once. */
  lemma UnifiedFlags(info1: TokenInfo, info2: TokenInfo, info3: TokenInfo, u: TokenInfo)
    requires IsUnified(info1, info2, info3, u)
    ensures forall f :: Bool(u, f) <==> f != PersonalSlippageModifiable && (Bool(info1, f) || Bool(info2, f) || Bool(info3, f))
  {
    forall f ensures Bool(u, f) <==> f != PersonalSlippageModifiable && (Bool(info1, f) || Bool(info2, f) || Bool(info3, f)) {
      match f
      case IsHoneypot =>
      case IsOpenSource =>
      case IsWhitelisted =>
      case CanTakeBackOwnership =>
      case OwnerChangeBalance =>
      case CannotBuy =>
      case CannotSellAll =>
      case IsMintable =>
      case HiddenOwner =>
      case TransferPausable =>
      case IsBlacklisted =>
      case ExternalCall =>
      case TradingCooldown =>
      case PersonalSlippageModifiable =>
    }
  }

  /** The text and Decimals half of IsUnified, read field by field. */
  lemma UnifiedTexts(info1: TokenInfo, info2: TokenInfo, info3: TokenInfo, u: TokenInfo)
    requires IsUnified(info1, info2, info3, u)
    ensures IsWorstString(info1.TokenName, info2.TokenName, info3.TokenName, u.TokenName)
    ensures IsWorstString(info1.TokenSymbol, info2.TokenSymbol, info3.TokenSymbol, u.TokenSymbol)
    ensures IsMax3(info1.Decimals, info2.Decimals, info3.Decimals, u.Decimals)
    ensures IsWorstString(info1.UniswapV2Pair, info2.UniswapV2Pair, info3.UniswapV2Pair, u.UniswapV2Pair)
    ensures IsWorstString(info1.BuyTax, info2.BuyTax, info3.BuyTax, u.BuyTax)
    ensures IsWorstString(info1.SellTax, info2.SellTax, info3.SellTax, u.SellTax)
  {
    assert IsWorstString(Text(info1, TokenName), Text(info2, TokenName), Text(info3, TokenName), Text(u, TokenName));
    assert IsWorstString(Text(info1, TokenSymbol), Text(info2, TokenSymbol), Text(info3, TokenSymbol), Text(u, TokenSymbol));
    assert IsWorstString(Text(info1, UniswapV2Pair), Text(info2, UniswapV2Pair), Text(info3, UniswapV2Pair), Text(u, UniswapV2Pair));
    assert IsWorstString(Text(info1, BuyTax), Text(info2, BuyTax), Text(info3, BuyTax), Text(u, BuyTax));
    assert IsWorstString(Text(info1, SellTax), Text(info2, SellTax), Text(info3, SellTax), Text(u, SellTax));
  }

  // ---------------------------------------------------------------------------
  // Idempotence and failed reports
  // ---------------------------------------------------------------------------

  /**
   * Merging a record with itself gives it back, except that
   * PersonalSlippageModifiable is forced to false.
   */
  lemma UnifyIdempotent(x: TokenInfo, u: TokenInfo)
    requires IsUnified(x, x, x, u)
    ensures u == x.(PersonalSlippageModifiable := false)
    ensures !x.PersonalSlippageModifiable ==> u == x
  {
    forall g ensures Text(u, g) == Text(x, g) {
      WorstStringOfSame(Text(x, g), Text(u, g));
    }
    assert Text(u, TokenName) == Text(x, TokenName);
    assert Text(u, TokenSymbol) == Text(x, TokenSymbol);
    assert Text(u, UniswapV2Pair) == Text(x, UniswapV2Pair);
    assert Text(u, BuyTax) == Text(x, BuyTax);
    assert Text(u, SellTax) == Text(x, SellTax);
  }

  lemma WorstStringOfSame(a: GoString, r: GoString)
    requires IsWorstString(a, a, a, r)
    ensures r == a
  {
  }

  /**
   * When two of the three reports are zero records (their providers failed),
   * the merge gives back the third, with PersonalSlippageModifiable false and
   * a negative Decimals raised to the zero records' 0.
   */
  lemma UnifyWithTwoFailures(x: TokenInfo, u: TokenInfo)
    requires IsUnified(x, Zero, Zero, u) || IsUnified(Zero, x, Zero, u) || IsUnified(Zero, Zero, x, u)
    ensures u == x.(PersonalSlippageModifiable := false, Decimals := if x.Decimals < 0 then 0 else x.Decimals)
  {
    forall g ensures Text(u, g) == Text(x, g) {
      assert Text(Zero, g) == [];
      if IsUnified(x, Zero, Zero, u) {
        WorstStringOfOne(Text(x, g), Text(Zero, g), Text(Zero, g), Text(u, g));
      } else if IsUnified(Zero, x, Zero, u) {
        WorstStringOfOne(Text(Zero, g), Text(x, g), Text(Zero, g), Text(u, g));
      } else {
        WorstStringOfOne(Text(Zero, g), Text(Zero, g), Text(x, g), Text(u, g));
      }
    }
    assert Text(u, TokenName) == Text(x, TokenName);
    assert Text(u, TokenSymbol) == Text(x, TokenSymbol);
    assert Text(u, UniswapV2Pair) == Text(x, UniswapV2Pair);
    assert Text(u, BuyTax) == Text(x, BuyTax);
    assert Text(u, SellTax) == Text(x, SellTax);
  }

  /** Two of the three strings are empty: the worst string is the third. */
  lemma WorstStringOfOne(a: GoString, b: GoString, c: GoString, r: GoString)
    requires IsWorstString(a, b, c, r)
    requires (a == [] && b == []) || (a == [] && c == []) || (b == [] && c == [])
    ensures r == a + b + c
  {
  }

  /** When every provider failed, the unified record is the zero record. */
  lemma UnifyAllFailures(u: TokenInfo)
    requires IsUnified(Zero, Zero, Zero, u)
    ensures u == Zero
  {
    UnifyIdempotent(Zero, u);
  }

  // ---------------------------------------------------------------------------
  // Argument order
  // ---------------------------------------------------------------------------

  /**
   * Swapping the first two reports changes no flag and not Decimals; every
   * text field keeps its length, and its value too unless two of the inputs
   * tie on length.
   */
  lemma UnifySwapFirstTwo(a: TokenInfo, b: TokenInfo, c: TokenInfo, u: TokenInfo, v: TokenInfo)
    requires IsUnified(a, b, c, u) && IsUnified(b, a, c, v)
    ensures forall f :: Bool(u, f) == Bool(v, f)
    ensures u.Decimals == v.Decimals
    ensures forall g :: |Text(u, g)| == |Text(v, g)|
    ensures forall g :: |Text(a, g)| != |Text(b, g)| && |Text(a, g)| != |Text(c, g)| && |Text(b, g)| != |Text(c, g)|
                        ==> Text(u, g) == Text(v, g)
  {
    UnifiedFlags(a, b, c, u);
    UnifiedFlags(b, a, c, v);
  }

  /** Rotating the three reports: the same as for a swap. */
  lemma UnifyRotate(a: TokenInfo, b: TokenInfo, c: TokenInfo, u: TokenInfo, v: TokenInfo)
    requires IsUnified(a, b, c, u) && IsUnified(b, c, a, v)
    ensures forall f :: Bool(u, f) == Bool(v, f)
    ensures u.Decimals == v.Decimals
    ensures forall g :: |Text(u, g)| == |Text(v, g)|
    ensures forall g :: |Text(a, g)| != |Text(b, g)| && |Text(a, g)| != |Text(c, g)| && |Text(b, g)| != |Text(c, g)|
                        ==> Text(u, g) == Text(v, g)
  {
    UnifiedFlags(a, b, c, u);
    UnifiedFlags(b, c, a, v);
  }

  /** Two names of equal length: whichever report comes first wins. */
  lemma TieGoesToFirstArgument(u: TokenInfo, v: TokenInfo)
    requires IsUnified(Zero.(TokenName := Ascii("AB")), Zero.(TokenName := Ascii("CD")), Zero, u)
    requires IsUnified(Zero.(TokenName := Ascii("CD")), Zero.(TokenName := Ascii("AB")), Zero, v)
    ensures u.TokenName == Ascii("AB") && v.TokenName == Ascii("CD")
    ensures u != v
  {
    assert Text(u, TokenName) == Ascii("AB");
    assert Text(v, TokenName) == Ascii("CD");
    assert Ascii("AB")[0] != Ascii("CD")[0];
  }

  // ---------------------------------------------------------------------------
  // Worked examples
  // ---------------------------------------------------------------------------

  /** One report of three flags the token as a honeypot: so does the merge. */
  lemma OneHoneypotReportSuffices(u: TokenInfo)
    requires IsUnified(Zero, Zero.(IsHoneypot := true), Zero, u)
    ensures u.IsHoneypot
  {
    assert Bool(u, IsHoneypot);
  }

  /** Names of 0, 3 and 5 bytes: the 5-byte one is chosen, wherever it stands. */
  lemma LongestNameWins(u: TokenInfo)
    requires IsUnified(Zero, Zero.(TokenName := Ascii("ABC")), Zero.(TokenName := Ascii("ABCDE")), u)
    ensures u.TokenName == Ascii("ABCDE")
  {
    assert Text(u, TokenName) == Ascii("ABCDE");
  }
}
