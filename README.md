# token-scan: normalization and worst-case merge

token-scan asks three security providers (GoPlus, honeypot.is and QuickIntel)
about an ERC-20 token. Each provider's report is normalized into one shared
record, `TokenInfo`. The three records are then merged field by field under a
conservative "worst case" policy:

- a risk flag is raised if any provider raises it;
- `Decimals` is the largest reported value;
- each text field takes the longest report, and the earlier provider wins ties;
- `PersonalSlippageModifiable` is always false.

This project models that policy (`token/model.go`) in Dafny and proves its
properties. It also models the fixed order in which the multi-provider scan
hands the three records to the merge.

Modules:

- `GoStrings` (gostrings.dfy): a Go string is a sequence of bytes (`GoString`).
  Every length in the model is a byte length, as Go's `len` is.
- `StrConv` (strconv.dfy): `strconv.ParseBool`, written as its table of six
  true and six false spellings. It returns `None` where Go returns a syntax error.
- `QuickIntel`, `Honeypot`, `GoPlus` (quickintel.dfy, honeypot.dfy, goplus.dfy):
  the provider records. They hold the fields the normalizers read, plus
  QuickIntel's `TokenDynamicDetails` and honeypot.is's top-level `PairAddress`,
  which no normalizer reads. Each record has a zero value. The GoPlus and
  honeypot.is scanners return that zero value when their request fails.
- `Token` (token.dfy): `TokenInfo`, `setBoolField`, the three normalizers and
  `UnifyTokenInfo` with its `worstString`/`worstInt` helpers.
  - The merge's meaning is the predicate `IsUnified`. It uses `IsWorstString`
    for text fields and `IsMax3` for `Decimals`.
  - `BoolField` and `StringField` name the record's flag and text fields, so
    that one statement can cover every field.
- `TokenProperties` (token_properties.dfy): lemmas relating several calls:
  - the merge specification determines one record;
  - merging a record with itself gives it back with PersonalSlippageModifiable
    cleared;
  - merging it with two failed (zero) reports does the same, and also raises a
    negative Decimals to 0;
  - argument order matters only when two strings tie on length;
  - zero responses normalize to the zero record.
- `MultiScan` (multiscan.dfy): `multiscan.Scan` as the composition of the
  three normalizers and the merge, in the order GoPlus, honeypot.is, QuickIntel.

## Behaviour worth noting

- Text fields are compared by byte length (`len`), not by character count.
- `multiscan.Scan` matches each result to its provider. Each provider has its
  own channel, so whatever order the goroutines finish in, the records are
  passed to the merge as GoPlus, honeypot.is, QuickIntel
  (scanners/multiscan/scan.go:53). This order decides string ties.
- A failed provider does not always yield a zero record. `quickintel.Scan`
  returns the response as far as it was decoded when unmarshalling fails
  (scanners/quickintel/scan.go:125-128). `MultiScan.Scan`'s "every provider
  failed" clause is stated for zero responses only.

## Model

| member | source | states |
|---|---|---|
| StrConv.ParseBool | token/model.go:51 | only 1-, 4- and 5-byte strings are accepted; true only from 1 or 4 bytes, false only from 1 or 5; the first byte of an accepted string decides its value ('1', 't', 'T' for true, '0', 'f', 'F' for false) |
| StrConv.ParseBoolRejects | token/model.go:51-54 | the empty string, "yes", "not-a-bool", "tRUE" and "00" are rejected |
| StrConv.ParseBoolAccepts | token/model.go:51-56 | all twelve spellings of the table parse: "1", "t", "T", "TRUE", "true" and "True" as true, "0", "f", "F", "FALSE", "false" and "False" as false |
| Token.SetBoolField | token/model.go:47-59 | the stored flag is false for the empty string and for every string ParseBool rejects, ParseBool's value otherwise, i.e. true exactly when the string parses as true; only the given field is written |
| Token.InitTokenInfoFromQuickIntelResponse | token/model.go:62-78 | name, symbol and decimals are copied from the token details; IsHoneypot is taken from the audit's HiddenOwner; six more flags are copied from their audit counterparts; no other flag can be true; pair and taxes stay empty |
| Token.InitTokenInfoFromGoPlus | token/model.go:81-104 | name, symbol and both taxes are copied verbatim; each of the 13 flags is true exactly when its same-named string parses as true; Decimals 0, empty pair, PersonalSlippageModifiable false |
| Token.InitTokenInfoFromHoneypotResponse | token/model.go:107-118 | name, symbol, decimals, the nested pair address, the honeypot verdict and the open-source flag are copied; every other flag is false and both taxes are empty |
| Token.WorstBool | token/model.go:125-127 | the combined flag is true exactly when at least one of the three flags is true |
| Token.WorstString | token/model.go:130-139 | the result is at least as long as each argument and is the earliest argument of that length: a later argument wins only if strictly longer |
| Token.WorstInt | token/model.go:142-151 | the result is one of the three arguments and at least each of them |
| Token.UnifyTokenInfo | token/model.go:121-176 | every text field is the worst string of the three, Decimals their maximum, each of 13 flags true iff some input has it true, PersonalSlippageModifiable false |
| TokenProperties.UnifiedFlags | token/model.go:158-173 | over every flag selector: the merged flag is true iff it is not PersonalSlippageModifiable and some input has it true |
| TokenProperties.UnifiedTexts | token/model.go:154-170 | each of TokenName, TokenSymbol, UniswapV2Pair, BuyTax and SellTax is the worst string of the three inputs, and Decimals their maximum |
| TokenProperties.WorstStringUnique | token/model.go:130-139 | at most one string satisfies the worst-string rule for given arguments |
| TokenProperties.UnifiedUnique | token/model.go:121-176 | at most one record satisfies the merge specification, so the merge is deterministic |
| TokenProperties.UnifyIdempotent | token/model.go:121-176 | merging a record with itself gives it back with PersonalSlippageModifiable cleared, and gives it back unchanged if that flag is already false |
| TokenProperties.WorstStringOfSame | token/model.go:130-139 | the worst of three copies of a string is that string |
| TokenProperties.WorstStringOfOne | token/model.go:130-139 | when two of the three strings are empty the worst string is the third |
| TokenProperties.UnifyWithTwoFailures | token/model.go:121-176 | a record merged with two zero records, in any position, comes back with PersonalSlippageModifiable false and a negative Decimals raised to 0 |
| TokenProperties.UnifyAllFailures | token/model.go:121-176 | merging three zero records gives the zero record |
| TokenProperties.UnifySwapFirstTwo | token/model.go:121-176 | swapping the first two inputs changes no flag and not Decimals; every text field keeps its length, and its value when the three lengths differ |
| TokenProperties.UnifyRotate | token/model.go:121-176 | the same invariants hold as for a swap: rotating the inputs changes no flag and not Decimals, and keeps every text field's length, and its value too when no two lengths tie |
| TokenProperties.TieGoesToFirstArgument | token/model.go:131-134 | of two equally long names, whichever comes first wins, so the merge depends on argument order |
| TokenProperties.OneHoneypotReportSuffices | token/model.go:125-127 | one provider raising IsHoneypot is enough for the merged record to raise it |
| TokenProperties.LongestNameWins | token/model.go:130-139 | names of 0, 3 and 5 bytes merge to the 5-byte name even when it comes last |
| TokenProperties.QuickIntelZeroResponse | token/model.go:62-78 | a zero QuickIntel response normalizes to the zero record |
| TokenProperties.QuickIntelIgnoresDynamicDetails | token/model.go:67 | the QuickIntel normalizer does not read TokenDynamicDetails.IsHoneypot |
| TokenProperties.HoneypotZeroResponse | token/model.go:107-118 | a zero honeypot.is response normalizes to the zero record |
| TokenProperties.HoneypotIgnoresTopLevelPairAddress | token/model.go:112 | the honeypot.is normalizer reads the nested Pair.PairAddress, not the top-level PairAddress |
| MultiScan.Scan | scanners/multiscan/scan.go:11-56 | end to end, per field: names and symbols are the worst string in the order GoPlus, honeypot.is, QuickIntel; the pair comes from honeypot.is and the taxes from GoPlus; Decimals is the maximum of 0 and the other two providers' counts; each flag is the OR of the providers that report it; three zero responses give the zero record |

## Left out

- The provider adapters (`goplus.Scan`, `ishoneypot.Scan`, `quickintel.Scan`): they are HTTP and SDK calls. `MultiScan.Scan` takes their responses as parameters.
- The goroutines, channels and `select` loop of `multiscan.Scan`: they only add concurrency. Only the order in which the three results reach the merge is modelled.
- MultiScan.Scan: the token hash it is called with is not modelled, since it is only passed on to the adapters.
- The command line, mode dispatch and `printJSON` in `main.go`: they are process I/O.
- `ToJSON` (token/model.go:38-44): it depends on `encoding/json` marshalling, which is not part of this model.
- The diagnostic `fmt.Printf` in `setBoolField` (token/model.go:53): it is a logging side effect.
- Token.SetBoolField: the `*bool` it writes through is modelled as the method's result, and the caller stores it. Every pointer it receives in the source points into a freshly allocated record, so nothing else can observe the write.
- Token.InitTokenInfoFromGoPlus: the thirteen in-place writes to the fresh record are modelled as thirteen coerced values gathered into one record value. The record is not shared before it is returned, so the final state is the same.
- Token.UnifyTokenInfo: the field-by-field assignments into a fresh zero record are modelled as one record construction. `TokenInfo` is a value, and the `*TokenInfo` pointers are never aliased. Nil inputs, on which the Go function panics, are not modelled; its only caller (scanners/multiscan/scan.go:53) always passes three records.
- Provider fields that no normalizer reads, among them the floating-point `AverageGas` and `Liquidity` of honeypot.is: none of them reaches `TokenInfo`.
- The GoPlus SDK's response type is not part of this model. Its fields are modelled as strings, as their use in token/model.go:83-101 shows.
- Go's `int` width: the merge only compares integers and never does arithmetic on them, so unbounded integers behave the same.
