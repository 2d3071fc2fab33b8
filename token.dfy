/**
 * token/model.go: the shared TokenInfo record, the lenient boolean coercion
 * used by the GoPlus normalizer, the three provider normalizers and the
 * worst-case merge of three records.
 *
 * Text is GoString (bytes), so every length below is a byte length, as Go's
 * `len` on a string is.
 */
module Token {
  import opened GoStrings
  import opened StrConv
  import QuickIntel
  import Honeypot
  import GoPlus

  datatype TokenInfo = TokenInfo(
    TokenName: GoString,
    TokenSymbol: GoString,
    Decimals: int,
    UniswapV2Pair: GoString,
    IsHoneypot: bool,
    IsOpenSource: bool,
    IsWhitelisted: bool,
    CanTakeBackOwnership: bool,
    OwnerChangeBalance: bool,
    CannotBuy: bool,
    CannotSellAll: bool,
    IsMintable: bool,
    HiddenOwner: bool,
    TransferPausable: bool,
    IsBlacklisted: bool,
    BuyTax: GoString,
    SellTax: GoString,
    ExternalCall: bool,
    TradingCooldown: bool,
    PersonalSlippageModifiable: bool)

  /** The zero value `TokenInfo{}`: empty text, zero decimals, every flag false. */
  const Zero := TokenInfo(
    [], [], 0, [],
    false, false, false, false, false, false, false, false, false, false, false,
    [], [],
    false, false, false)

  /** Names the boolean fields of a TokenInfo. */
  datatype BoolField =
    | IsHoneypot | IsOpenSource | IsWhitelisted | CanTakeBackOwnership
    | OwnerChangeBalance | CannotBuy | CannotSellAll | IsMintable | HiddenOwner
    | TransferPausable | IsBlacklisted | ExternalCall | TradingCooldown
    | PersonalSlippageModifiable

  /** Names the text fields of a TokenInfo. */
  datatype StringField = TokenName | TokenSymbol | UniswapV2Pair | BuyTax | SellTax

  function Bool(t: TokenInfo, f: BoolField): bool
  {
    match f
    case IsHoneypot => t.IsHoneypot
    case IsOpenSource => t.IsOpenSource
    case IsWhitelisted => t.IsWhitelisted
    case CanTakeBackOwnership => t.CanTakeBackOwnership
    case OwnerChangeBalance => t.OwnerChangeBalance
    case CannotBuy => t.CannotBuy
    case CannotSellAll => t.CannotSellAll
    case IsMintable => t.IsMintable
    case HiddenOwner => t.HiddenOwner
    case TransferPausable => t.TransferPausable
    case IsBlacklisted => t.IsBlacklisted
    case ExternalCall => t.ExternalCall
    case TradingCooldown => t.TradingCooldown
    case PersonalSlippageModifiable => t.PersonalSlippageModifiable
  }

  function Text(t: TokenInfo, g: StringField): GoString
  {
    match g
    case TokenName => t.TokenName
    case TokenSymbol => t.TokenSymbol
    case UniswapV2Pair => t.UniswapV2Pair
    case BuyTax => t.BuyTax
    case SellTax => t.SellTax
  }

  /** Two records that agree on every field, read through the selectors, are equal. */
  lemma TokenInfoExt(t: TokenInfo, t': TokenInfo)
    requires forall f :: Bool(t, f) == Bool(t', f)
    requires forall g :: Text(t, g) == Text(t', g)
    requires t.Decimals == t'.Decimals
    ensures t == t'
  {
    assert Bool(t, IsHoneypot) == Bool(t', IsHoneypot);
    assert Bool(t, IsOpenSource) == Bool(t', IsOpenSource);
    assert Bool(t, IsWhitelisted) == Bool(t', IsWhitelisted);
    assert Bool(t, CanTakeBackOwnership) == Bool(t', CanTakeBackOwnership);
    assert Bool(t, OwnerChangeBalance) == Bool(t', OwnerChangeBalance);
    assert Bool(t, CannotBuy) == Bool(t', CannotBuy);
    assert Bool(t, CannotSellAll) == Bool(t', CannotSellAll);
    assert Bool(t, IsMintable) == Bool(t', IsMintable);
    assert Bool(t, HiddenOwner) == Bool(t', HiddenOwner);
    assert Bool(t, TransferPausable) == Bool(t', TransferPausable);
    assert Bool(t, IsBlacklisted) == Bool(t', IsBlacklisted);
    assert Bool(t, ExternalCall) == Bool(t', ExternalCall);
    assert Bool(t, TradingCooldown) == Bool(t', TradingCooldown);
    assert Bool(t, PersonalSlippageModifiable) == Bool(t', PersonalSlippageModifiable);
    assert Text(t, TokenName) == Text(t', TokenName);
    assert Text(t, TokenSymbol) == Text(t', TokenSymbol);
    assert Text(t, UniswapV2Pair) == Text(t', UniswapV2Pair);
    assert Text(t, BuyTax) == Text(t', BuyTax);
    assert Text(t, SellTax) == Text(t', SellTax);
  }

  // ---------------------------------------------------------------------------
  // Lenient boolean coercion
  // ---------------------------------------------------------------------------

  /** True exactly when strconv.ParseBool accepts `value` as true. */
  predicate ParsesTrue(value: GoString)
  {
    ParseBool(value) == Some(true)
  }

  /**
   * setBoolField: the value stored through the `*bool` it is given. The empty
   * string and any string ParseBool rejects store false; it never fails.
   * The diagnostic it prints on a rejected string is not modelled.
   */
  method SetBoolField(value: GoString) returns (field: bool)
    ensures value == [] ==> !field
    ensures ParseBool(value).None? ==> !field
    ensures ParseBool(value).Some? ==> field == ParseBool(value).value
    ensures field == ParsesTrue(value)
  {
    if value == [] {
      field := false;
    } else {
      var parsed := ParseBool(value);
      if parsed.None? {
        field := false;
      } else {
        field := parsed.value;
      }
    }
  }

  // ---------------------------------------------------------------------------
  // Normalizers
  // ---------------------------------------------------------------------------

  /**
   * InitTokenInfoFromQuickIntelResponse. IsHoneypot is taken from the audit's
   * hidden-owner flag; the dynamic honeypot flag is not read.
   */
  function InitTokenInfoFromQuickIntelResponse(response: QuickIntel.QuickIntelResponse): (t: TokenInfo)
    ensures t.TokenName == response.TokenDetails.TokenName
    ensures t.TokenSymbol == response.TokenDetails.TokenSymbol
    ensures t.Decimals == response.TokenDetails.TokenDecimals
    ensures t.IsHoneypot == response.QuickiAudit.HiddenOwner
    ensures t.IsWhitelisted == response.QuickiAudit.CanWhitelist
    ensures t.IsMintable == response.QuickiAudit.CanMint
    ensures t.TransferPausable == response.QuickiAudit.CanPauseTrading
    ensures t.IsBlacklisted == response.QuickiAudit.CanBlacklist
    ensures t.ExternalCall == response.QuickiAudit.HasExternalContractRisk
    ensures t.TradingCooldown == response.QuickiAudit.HasTradingCooldown
    // only these seven flags can ever be raised by a QuickIntel response
    ensures forall f :: Bool(t, f) ==>
      f in {IsHoneypot, IsWhitelisted, IsMintable, TransferPausable, IsBlacklisted, ExternalCall, TradingCooldown}
    ensures t.UniswapV2Pair == [] && t.BuyTax == [] && t.SellTax == []
  {
    Zero.(
      TokenName := response.TokenDetails.TokenName,
      TokenSymbol := response.TokenDetails.TokenSymbol,
      Decimals := response.TokenDetails.TokenDecimals,
      IsHoneypot := response.QuickiAudit.HiddenOwner,
      IsWhitelisted := response.QuickiAudit.CanWhitelist,
      IsMintable := response.QuickiAudit.CanMint,
      TransferPausable := response.QuickiAudit.CanPauseTrading,
      IsBlacklisted := response.QuickiAudit.CanBlacklist,
      ExternalCall := response.QuickiAudit.HasExternalContractRisk,
      TradingCooldown := response.QuickiAudit.HasTradingCooldown,
      PersonalSlippageModifiable := false)
  }

  /**
   * InitTokenInfoFromGoPlus: copies name, symbol and taxes, then coerces each
   * of the thirteen flag strings into the same-named field, one at a time.
   */
  method InitTokenInfoFromGoPlus(r: GoPlus.TokenSecurityResult) returns (t: TokenInfo)
    ensures t.TokenName == r.TokenName && t.TokenSymbol == r.TokenSymbol
    ensures t.BuyTax == r.BuyTax && t.SellTax == r.SellTax
    ensures t.CanTakeBackOwnership == ParsesTrue(r.CanTakeBackOwnership)
    ensures t.CannotBuy == ParsesTrue(r.CannotBuy)
    ensures t.CannotSellAll == ParsesTrue(r.CannotSellAll)
    ensures t.ExternalCall == ParsesTrue(r.ExternalCall)
    ensures t.HiddenOwner == ParsesTrue(r.HiddenOwner)
    ensures t.IsBlacklisted == ParsesTrue(r.IsBlacklisted)
    ensures t.IsHoneypot == ParsesTrue(r.IsHoneypot)
    ensures t.IsMintable == ParsesTrue(r.IsMintable)
    ensures t.IsOpenSource == ParsesTrue(r.IsOpenSource)
    ensures t.IsWhitelisted == ParsesTrue(r.IsWhitelisted)
    ensures t.OwnerChangeBalance == ParsesTrue(r.OwnerChangeBalance)
    ensures t.TradingCooldown == ParsesTrue(r.TradingCooldown)
    ensures t.TransferPausable == ParsesTrue(r.TransferPausable)
    ensures t.Decimals == 0 && t.UniswapV2Pair == [] && !t.PersonalSlippageModifiable
  {
    var canTakeBackOwnership := SetBoolField(r.CanTakeBackOwnership);
    var cannotBuy := SetBoolField(r.CannotBuy);
    var cannotSellAll := SetBoolField(r.CannotSellAll);
    var externalCall := SetBoolField(r.ExternalCall);
    var hiddenOwner := SetBoolField(r.HiddenOwner);
    var isBlacklisted := SetBoolField(r.IsBlacklisted);
    var isHoneypot := SetBoolField(r.IsHoneypot);
    var isMintable := SetBoolField(r.IsMintable);
    var isOpenSource := SetBoolField(r.IsOpenSource);
    var isWhitelisted := SetBoolField(r.IsWhitelisted);
    var ownerChangeBalance := SetBoolField(r.OwnerChangeBalance);
    var tradingCooldown := SetBoolField(r.TradingCooldown);
    var transferPausable := SetBoolField(r.TransferPausable);
    t := Zero.(TokenName := r.TokenName, TokenSymbol := r.TokenSymbol, BuyTax := r.BuyTax, SellTax := r.SellTax,
      CanTakeBackOwnership := canTakeBackOwnership,
      CannotBuy := cannotBuy,
      CannotSellAll := cannotSellAll,
      ExternalCall := externalCall,
      HiddenOwner := hiddenOwner,
      IsBlacklisted := isBlacklisted,
      IsHoneypot := isHoneypot,
      IsMintable := isMintable,
      IsOpenSource := isOpenSource,
      IsWhitelisted := isWhitelisted,
      OwnerChangeBalance := ownerChangeBalance,
      TradingCooldown := tradingCooldown,
      TransferPausable := transferPausable);
  }

  /**
   * InitTokenInfoFromHoneypotResponse. The pair address comes from the nested
   * pair record; the response's top-level PairAddress is not read.
   */
  function InitTokenInfoFromHoneypotResponse(response: Honeypot.HoneypotResponse): (t: TokenInfo)
    ensures t.TokenName == response.Token.Name && t.TokenSymbol == response.Token.Symbol
    ensures t.Decimals == response.Token.Decimals
    ensures t.UniswapV2Pair == response.Pair.PairAddress
    ensures t.IsHoneypot == response.HoneypotResult.IsHoneypot
    ensures t.IsOpenSource == response.ContractCode.OpenSource
    // every other field keeps its zero value
    ensures forall f :: f != IsHoneypot && f != IsOpenSource ==> !Bool(t, f)
    ensures t.BuyTax == [] && t.SellTax == []
  {
    Zero.(
      TokenName := response.Token.Name,
      TokenSymbol := response.Token.Symbol,
      Decimals := response.Token.Decimals,
      UniswapV2Pair := response.Pair.PairAddress,
      IsHoneypot := response.HoneypotResult.IsHoneypot,
      IsOpenSource := response.ContractCode.OpenSource)
  }

  // ---------------------------------------------------------------------------
  // Worst-case merge
  // ---------------------------------------------------------------------------

  /**
   * What worstString picks: a string at least as long (in bytes) as each
   * argument, and the earliest argument of that length.
   */
  ghost predicate IsWorstString(a: GoString, b: GoString, c: GoString, r: GoString)
  {
    && |a| <= |r| && |b| <= |r| && |c| <= |r|
    && (r == a || (|a| < |r| && (r == b || (|b| < |r| && r == c))))
  }

  /** What worstInt picks: one of the arguments, at least as large as each. */
  ghost predicate IsMax3(a: int, b: int, c: int, r: int)
  {
    (r == a || r == b || r == c) && a <= r && b <= r && c <= r
  }

  /**
   * The merge policy, field by field: each text field is the worst string of
   * the three, Decimals the maximum, every flag but PersonalSlippageModifiable
   * the OR of the three, and PersonalSlippageModifiable false.
   */
  ghost predicate IsUnified(info1: TokenInfo, info2: TokenInfo, info3: TokenInfo, u: TokenInfo)
  {
    && (forall g :: IsWorstString(Text(info1, g), Text(info2, g), Text(info3, g), Text(u, g)))
    && IsMax3(info1.Decimals, info2.Decimals, info3.Decimals, u.Decimals)
    && (u.IsHoneypot <==> info1.IsHoneypot || info2.IsHoneypot || info3.IsHoneypot)
    && (u.IsOpenSource <==> info1.IsOpenSource || info2.IsOpenSource || info3.IsOpenSource)
    && (u.IsWhitelisted <==> info1.IsWhitelisted || info2.IsWhitelisted || info3.IsWhitelisted)
    && (u.CanTakeBackOwnership <==> info1.CanTakeBackOwnership || info2.CanTakeBackOwnership || info3.CanTakeBackOwnership)
    && (u.OwnerChangeBalance <==> info1.OwnerChangeBalance || info2.OwnerChangeBalance || info3.OwnerChangeBalance)
    && (u.CannotBuy <==> info1.CannotBuy || info2.CannotBuy || info3.CannotBuy)
    && (u.CannotSellAll <==> info1.CannotSellAll || info2.CannotSellAll || info3.CannotSellAll)
    && (u.IsMintable <==> info1.IsMintable || info2.IsMintable || info3.IsMintable)
    && (u.HiddenOwner <==> info1.HiddenOwner || info2.HiddenOwner || info3.HiddenOwner)
    && (u.TransferPausable <==> info1.TransferPausable || info2.TransferPausable || info3.TransferPausable)
    && (u.IsBlacklisted <==> info1.IsBlacklisted || info2.IsBlacklisted || info3.IsBlacklisted)
    && (u.ExternalCall <==> info1.ExternalCall || info2.ExternalCall || info3.ExternalCall)
    && (u.TradingCooldown <==> info1.TradingCooldown || info2.TradingCooldown || info3.TradingCooldown)
    && !u.PersonalSlippageModifiable
  }

  /** worstBool: a flag is raised as soon as one of the three reports raises it. */
  function WorstBool(a: bool, b: bool, c: bool): (r: bool)
    ensures r <==> a || b || c
  {
    a || b || c
  }

  /** worstString: only a strictly longer string replaces the current one. */
  method WorstString(a: GoString, b: GoString, c: GoString) returns (max: GoString)
    ensures IsWorstString(a, b, c, max)
  {
    max := a;
    if |b| > |max| {
      max := b;
    }
    if |c| > |max| {
      max := c;
    }
  }

  /** worstInt */
  method WorstInt(a: int, b: int, c: int) returns (max: int)
    ensures IsMax3(a, b, c, max)
  {
    max := a;
    if b > max {
      max := b;
    }
    if c > max {
      max := c;
    }
  }

  /**
   * UnifyTokenInfo: every field of the result is computed in turn by its
   * worst-case helper; PersonalSlippageModifiable is always false.
   */
  method UnifyTokenInfo(info1: TokenInfo, info2: TokenInfo, info3: TokenInfo) returns (unified: TokenInfo)
    ensures IsUnified(info1, info2, info3, unified)
  {
    var name := WorstString(info1.TokenName, info2.TokenName, info3.TokenName);
    var symbol := WorstString(info1.TokenSymbol, info2.TokenSymbol, info3.TokenSymbol);
    var decimals := WorstInt(info1.Decimals, info2.Decimals, info3.Decimals);
    var pair := WorstString(info1.UniswapV2Pair, info2.UniswapV2Pair, info3.UniswapV2Pair);
    var buyTax := WorstString(info1.BuyTax, info2.BuyTax, info3.BuyTax);
    var sellTax := WorstString(info1.SellTax, info2.SellTax, info3.SellTax);
    unified := TokenInfo(
      TokenName := name,
      TokenSymbol := symbol,
      Decimals := decimals,
      UniswapV2Pair := pair,
      IsHoneypot := WorstBool(info1.IsHoneypot, info2.IsHoneypot, info3.IsHoneypot),
      IsOpenSource := WorstBool(info1.IsOpenSource, info2.IsOpenSource, info3.IsOpenSource),
      IsWhitelisted := WorstBool(info1.IsWhitelisted, info2.IsWhitelisted, info3.IsWhitelisted),
      CanTakeBackOwnership := WorstBool(info1.CanTakeBackOwnership, info2.CanTakeBackOwnership, info3.CanTakeBackOwnership),
      OwnerChangeBalance := WorstBool(info1.OwnerChangeBalance, info2.OwnerChangeBalance, info3.OwnerChangeBalance),
      CannotBuy := WorstBool(info1.CannotBuy, info2.CannotBuy, info3.CannotBuy),
      CannotSellAll := WorstBool(info1.CannotSellAll, info2.CannotSellAll, info3.CannotSellAll),
      IsMintable := WorstBool(info1.IsMintable, info2.IsMintable, info3.IsMintable),
      HiddenOwner := WorstBool(info1.HiddenOwner, info2.HiddenOwner, info3.HiddenOwner),
      TransferPausable := WorstBool(info1.TransferPausable, info2.TransferPausable, info3.TransferPausable),
      IsBlacklisted := WorstBool(info1.IsBlacklisted, info2.IsBlacklisted, info3.IsBlacklisted),
      BuyTax := buyTax,
      SellTax := sellTax,
      ExternalCall := WorstBool(info1.ExternalCall, info2.ExternalCall, info3.ExternalCall),
      TradingCooldown := WorstBool(info1.TradingCooldown, info2.TradingCooldown, info3.TradingCooldown),
      PersonalSlippageModifiable := false);
    forall g ensures IsWorstString(Text(info1, g), Text(info2, g), Text(info3, g), Text(unified, g)) {
      match g
      case TokenName =>
      case TokenSymbol =>
      case UniswapV2Pair =>
      case BuyTax =>
      case SellTax =>
    }
  }
}
