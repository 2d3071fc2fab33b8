/**
 * The honeypot.is scan response (scanners/ishoneypot/scan.go), reduced to the
 * fields the token normalizer reads plus the top-level pair address, which
 * it does not read.
 */
module Honeypot {
  import opened GoStrings

  datatype TokenInfo = TokenInfo(Name: GoString, Symbol: GoString, Decimals: int)

  datatype HoneypotResult = HoneypotResult(IsHoneypot: bool)

  datatype ContractCode = ContractCode(OpenSource: bool)

  datatype PairInfo = PairInfo(PairAddress: GoString)

  datatype HoneypotResponse = HoneypotResponse(
    Token: TokenInfo,
    HoneypotResult: HoneypotResult,
    ContractCode: ContractCode,
    Pair: PairInfo,
    PairAddress: GoString)

  /** The zero value `HoneypotResponse{}`, which Scan returns on every error. */
  const ZeroResponse := HoneypotResponse(
    TokenInfo([], [], 0), HoneypotResult(false), ContractCode(false), PairInfo([]), [])
}
