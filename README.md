# Bitfinex ledger classification, modelled in Dafny

`bitfinexledger.py` reads a Bitfinex ledger export and classifies each row by
its free-text description. This project models the core of that program.

**The catalog `BITFINEX_RE`.** It holds 34 entries of (type name, pattern) in
insertion order. Every pattern is start-anchored and compiled with
`re.IGNORECASE`. Most patterns end with the shared wallet suffix `OW`, which
is ` on wallet (\w+)$`.

**The generator `load`.** It works row by row:
- The first row becomes the header, with its names lower-cased.
- Every later row is zipped with the header into a record, and the record's
  `date` gets the prefix `"20"`.
- The catalog is walked in insertion order, and the first pattern whose
  `match` succeeds on the description wins. The record gains `type` (the
  entry's name) and `meta` (the match's `groupdict()`) and is yielded.
- A row that no pattern matches is printed to standard error and not yielded.
- A row without a `date` or `description` field makes `load` raise
  `KeyError`, which ends the stream.

**Modules:**
- `Regex`: the part of Python's `re` that the catalog uses.
  - It covers case-insensitive literals, greedy `cls{min,max}` over the five
    character classes in use, greedy optional groups, alternation, named and
    unnamed groups, and `$`.
  - `MatchSeq` lists every way a pattern can match, in the engine's
    backtracking order.
  - `Match` is `re.match`: the first of those ways, reported as
    `groupdict()`.
- `Classifier`: first-match-wins over any catalog (`FirstMatch`,
  `Classify`), with precedence lemmas that hold for every catalog.
- `BitfinexCatalog`: the 34 patterns, written in the `Regex` syntax. It also
  holds round-trip lemmas for the `OW` suffix and for the `deposit`,
  `adjustment`, `crypto-withdrawal-fee`, `close`, `claimed` and `fees`
  entries, and the proof that `crypto-withdrawal-fees` is never selected.
- `Ledger`:
  - The row semantics (`ProcessRow`) and the stream semantics (`Process`)
    are stated for any classifier function. `LoadSpec` is the whole `load`
    with the catalog classifier.
  - The imperative loop is `LoadWith`, with `LoadStep` and `LoadRow`. It is
    proved equal to `LoadSpec`.
  - `FindEntry` is the catalog walk with `break`, proved equal to
    `FirstMatch`.
- `BitfinexLedger`: `load` with `BITFINEX_RE`, and the consequence that no
  yielded record has type `crypto-withdrawal-fees`.

Two behaviours of the code shape the model:
- A row lacking `date` or `description` raises `KeyError` at line 190 or
  191, so `load` can fail part-way. The model carries the raise as
  `Output.raised` and stops processing there.
- The catalog is a dictionary literal, so two type names may share one
  pattern, and nothing rejects that: `crypto-withdrawal-fee` and
  `crypto-withdrawal-fees` do.

## Model

| member | source | states |
|---|---|---|
| `Ascii.LowerString` | bitfinexledger.py:185 | lower-casing keeps the length, leaves no ASCII capital, and changes each character only within its case pair |
| `Ascii.LowerStringIdempotent` | bitfinexledger.py:185 | lower-casing an already lower-cased name changes nothing |
| `Ledger.LowerHeader` | bitfinexledger.py:185 | every header name keeps its position and length, agrees with the original up to case, and holds no capital |
| `Regex.MatchLit` | bitfinexledger.py:20 | a literal matches in at most one way, consuming exactly its own length and capturing nothing |
| `Regex.LitIgnoresCase` | bitfinexledger.py:20 | under `re.I`, two literals that agree up to letter case match every text in exactly the same way |
| `Regex.LitTextIgnoresCase` | bitfinexledger.py:20 | under `re.I`, a literal matches two texts that agree up to letter case in exactly the same way |
| `Regex.MatchRep` | bitfinexledger.py:19 | every way a greedy repeat can match stays inside the text, adds no group keys, and covers only characters of its class |
| `Regex.MatchEnd` | bitfinexledger.py:19 | `$` matches in at most one way, only at the end of the text or one character before it, consuming and capturing nothing |
| `Regex.EndBeforeNewline` | bitfinexledger.py:19 | `$` also matches just before a final newline |
| `Regex.Backoff` | bitfinexledger.py:19 | a greedy repeat such as `\w+` offers its end positions from the longest run down to the shortest allowed, one character at a time, with the captures unchanged |
| `Regex.OptFallsBack` | bitfinexledger.py:79 | an optional group always has a way to match, and its last way skips the group with the captures unchanged |
| `Regex.MatchNode` | bitfinexledger.py:195 | every outcome of a node ends inside the text, keeps the keys it was given, and adds only the node's own named groups |
| `Regex.MatchSeq` | bitfinexledger.py:195 | every outcome of a pattern ends inside the text, keeps the keys it was given, and adds only the pattern's own named groups |
| `Regex.Match` | bitfinexledger.py:198 | a successful `rex.match(memo).groupdict()` has exactly the pattern's named groups as keys; unnamed groups are never keys |
| `Regex.InitialCaptures` | bitfinexledger.py:198 | before matching, the keys are exactly the pattern's named groups, and every one of them is unset |
| `Regex.NodeKeeps` | bitfinexledger.py:198 | no way of matching a node changes a capture outside the node's own named groups |
| `Regex.SeqKeeps` | bitfinexledger.py:198 | no way of matching a pattern changes a capture outside the pattern's own named groups: each keeps the value it had before the pattern ran, so a group never set stays `None` |
| `Regex.ContinueKeeps` | bitfinexledger.py:198 | continuing a set of partial matches with the rest of a pattern changes no capture outside the groups of both parts |
| `BitfinexCatalog.WalletSuffix` | bitfinexledger.py:19 | for the constant `OW`: wherever the text continues with ` on wallet ` in any case and then only word characters, `OW` matches to the end and captures no named group |
| `Classifier.FirstMatchFrom` | bitfinexledger.py:194-196 | the index found from a start position matches, and no entry between the start and it matches; none is found exactly when no entry from the start on matches |
| `Classifier.FirstMatch` | bitfinexledger.py:194-200 | the winning index matches, and no earlier entry matches; there is no winner exactly when no entry matches |
| `Classifier.Classify` | bitfinexledger.py:194-200 | the description is unmatched exactly when no entry matches; otherwise some entry is the winner, supplying the name and the `groupdict()` whose keys are its pattern's named groups |
| `Classifier.FirstMatchCharacterized` | bitfinexledger.py:194-200 | entry k is the first match if and only if it matches and no earlier entry does |
| `Classifier.EarlierEntryWins` | bitfinexledger.py:194-200 | when two entries both match, the later one never wins |
| `Classifier.ShadowedEntryNeverWins` | bitfinexledger.py:194-200 | an entry that repeats an earlier entry's pattern is never selected, for any description |
| `Classifier.AppendKeepsEarlierWinner` | bitfinexledger.py:23-24 | adding entries at the end of the catalog never changes the winner or the classification of a description that already had a winner |
| `BitfinexCatalog.WalletSuffixGroups` | bitfinexledger.py:19 | the wallet capture in `OW` is unnamed, so `OW` contributes no key to `meta` |
| `BitfinexCatalog.DepositGroups` | bitfinexledger.py:122-125 | the named groups of `deposit` are exactly `coin` and `id` |
| `BitfinexCatalog.IdThenWallet` | bitfinexledger.py:123 | `(?P<id>\d+)` followed by `OW` captures the whole digit run as `id` and matches to the end |
| `BitfinexCatalog.DepositAfterCoin` | bitfinexledger.py:123 | after the coin, `\) #(?P<id>\d+)` and `OW` match to the end, capturing the digits as `id` |
| `BitfinexCatalog.DepositMatchAt` | bitfinexledger.py:122-125 | on a deposit-shaped text, the first way of matching `deposit` reaches the end, capturing the coin and the id |
| `BitfinexCatalog.DepositRoundTrip` | bitfinexledger.py:122-125 | for a word-character coin `c`, digits `d` and a word-character wallet `w`, `Deposit (c) #d on wallet w` (literals in any case) matches with meta exactly `{coin: c, id: d}` |
| `BitfinexCatalog.AdjustmentGroups` | bitfinexledger.py:29-32 | the only named group of `adjustment` is `id` |
| `BitfinexCatalog.AdjustmentMatchAt` | bitfinexledger.py:29-32 | on an adjustment-shaped text, the first way of matching `adjustment` reaches the end, capturing the id |
| `BitfinexCatalog.AdjustmentRoundTrip` | bitfinexledger.py:29-32 | `Adjustment #d on wallet w` (literals in any case) matches with meta exactly `{id: d}` |
| `BitfinexCatalog.CryptoWithdrawalFeeRoundTrip` | bitfinexledger.py:114-117 | `Crypto Withdrawal fee on wallet w` matches with an empty meta |
| `BitfinexCatalog.WholeNumber` | bitfinexledger.py:79 | on a whole number not followed by `.`, `\d+(\.\d+)?` first stops after the digits, with the optional fraction skipped |
| `BitfinexCatalog.NamedWholeNumber` | bitfinexledger.py:79 | a named `\d+(\.\d+)?` group such as `(?P<amount>…)`, on a whole number followed by a space, captures exactly the digits |
| `BitfinexCatalog.TradeSkipped` | bitfinexledger.py:79 | where the text continues with ` on wallet`, the optional `(?P<method> \(TRADE\))` is skipped and `OW` matches to the end |
| `BitfinexCatalog.CloseAfterLiteral` | bitfinexledger.py:79 | after `Position closed @ `, a whole amount without ` (TRADE)` followed by `OW` matches to the end, capturing only `amount` |
| `BitfinexCatalog.CloseGroups` | bitfinexledger.py:78-81 | the named groups of `close` are exactly `amount` and `method` |
| `BitfinexCatalog.CloseMatchAt` | bitfinexledger.py:78-81 | on a close-shaped text with a whole-number amount and without ` (TRADE)`, the first way of matching `close` reaches the end, capturing the amount |
| `BitfinexCatalog.CloseWithoutTradeRoundTrip` | bitfinexledger.py:78-81 | for a whole-number amount `n`, `Position closed @ n on wallet w` matches with meta `{amount: n, method: None}`: a group that did not take part is present and unset |
| `BitfinexCatalog.NamedDecimal` | bitfinexledger.py:83 | `(?P<price>\d+\.\d+)`, on digits, a dot and digits followed by a non-digit, captures exactly that decimal |
| `BitfinexCatalog.ClaimedGroups` | bitfinexledger.py:82-85 | the named groups of `claimed` are exactly `id` and `price` |
| `BitfinexCatalog.ClaimedMatchAt` | bitfinexledger.py:82-85 | on a claimed text without `#id `, the first way of matching `claimed` reaches the end, capturing only the price |
| `BitfinexCatalog.ClaimedWithoutIdRoundTrip` | bitfinexledger.py:82-85 | `Position claimed @ d1.d2 on wallet w` (literals in any case) matches with meta exactly `{id: None, price: d1.d2}` |
| `BitfinexCatalog.FeesGroups` | bitfinexledger.py:94-98 | the named groups of `fees` are exactly `amount`, `currency`, `pair`, `rate`, `exchange` and `fee_rate` |
| `BitfinexCatalog.FeesMatchAt` | bitfinexledger.py:94-98 | on a fee line without `(pair) `, the first way of matching `fees` reaches the end, capturing every group but `pair` |
| `BitfinexCatalog.FeesWithoutPair` | bitfinexledger.py:94-98 | a fee line with whole amount and rate and no `(pair) ` matches with meta holding each part's text and `pair: None` |
| `BitfinexCatalog.CatalogNamesDistinct` | bitfinexledger.py:24-163 | the 34 type names are pairwise distinct, as the keys of a dictionary literal are |
| `BitfinexCatalog.CatalogLayout` | bitfinexledger.py:24-163 | for the constant `BITFINEX_RE` (`Bitfinex`): the catalog has 34 entries; `crypto-withdrawal-fee` (22) and `crypto-withdrawal-fees` (28) share one pattern, and no other entry has the latter name |
| `BitfinexCatalog.CryptoWithdrawalFeesNeverSelected` | bitfinexledger.py:137-140 | entry `crypto-withdrawal-fees` is never the first match and never the classification of any description |
| `Ledger.ZipFirst` | bitfinexledger.py:187 | zipping the first n columns yields exactly the header names at positions below n as keys |
| `Ledger.Zip` | bitfinexledger.py:187 | the record's keys are exactly the first n header names, n the shorter of the header and the row; surplus names or values are dropped |
| `Ledger.ZipFirstLastWins` | bitfinexledger.py:187 | within the first n columns, a name that does not recur further right keeps its own value |
| `Ledger.ZipLastWins` | bitfinexledger.py:187 | a column whose name does not recur further right holds its own row value in the record, so a repeated name keeps its last value |
| `Ledger.Normalize` | bitfinexledger.py:190 | the record has exactly the zipped fields, `date` gains the prefix `"20"`, and every other field is unchanged |
| `Ledger.RowOutcome` | bitfinexledger.py:187-204 | for `ProcessRow`: a row raises exactly when `date` or `description` is missing, naming the first one missing; otherwise it is emitted exactly when classified, with every zipped field unchanged except `date` (prefixed `"20"`), plus `type` and `meta`; an unclassified row is reported with the raw row and its description |
| `Ledger.ProcessSize` | bitfinexledger.py:183-204 | for the stream `Process`: each data row contributes at most one record or diagnostic, and exactly one when no `KeyError` occurred |
| `Ledger.ProcessSnoc` | bitfinexledger.py:183-204 | one more row appends that row's result to the output, unless the stream has already raised |
| `Ledger.ProcessAppend` | bitfinexledger.py:183-204 | processing `a + b` yields the output of `a` followed by that of `b`, in order, cut off if `a` raised |
| `Ledger.ProcessStopsAtError` | bitfinexledger.py:190-191 | after a `KeyError`, further rows change nothing |
| `Ledger.ProcessCounts` | bitfinexledger.py:183-204 | over well-formed rows nothing raises, the diagnostics number the unclassified rows, and the records number the data rows minus the unclassified rows |
| `Ledger.RecordOrigin` | bitfinexledger.py:194-199 | every yielded record is the record that some data row emits |
| `Ledger.DataRowOrigin` | bitfinexledger.py:183-186 | with rows numbered from the header row, every yielded record comes from a row after the header |
| `Ledger.RowEmits` | bitfinexledger.py:194-199 | a well-formed row whose description is first matched by entry k becomes the normalised record with that entry's name as `type` and its captures as `meta` |
| `Ledger.RowReports` | bitfinexledger.py:202-204 | a well-formed row that no entry matches is reported with the raw row and its description |
| `Ledger.EmittedRecord` | bitfinexledger.py:194-198 | an emitted row is well formed, its `type` names the first matching entry, and its `meta` holds that entry's captures, with exactly the pattern's named groups as keys |
| `Ledger.LoadRecordOrigin` | bitfinexledger.py:183-186 | every record `load` yields is built from a row after the header; the header row is never emitted |
| `Ledger.LoadSpecSize` | bitfinexledger.py:179-204 | for `LoadSpec`, the whole of `load`: an empty or header-only input yields no records and no diagnostics; otherwise each data row yields at most one record or diagnostic, and exactly one when nothing raised |
| `Ledger.FindEntry` | bitfinexledger.py:194-200 | the walk with `break` returns the first matching entry and its captures, or nothing exactly when no entry matches |
| `Ledger.LoadWith` | bitfinexledger.py:179-204 | the loop yields, reports and raises exactly what `LoadSpec` does for the catalog it is given |
| `Ledger.AllConsumed` | bitfinexledger.py:183-204 | once the loop has taken every row, its state is the whole output of `load` |
| `Ledger.LoadStep` | bitfinexledger.py:183-187 | one loop pass takes the first row as the header and processes later rows; a raise ends `load` with its whole output |
| `Ledger.LoadRow` | bitfinexledger.py:187-204 | processing one data row in place extends the output exactly as one more row of `Process` does |
| `BitfinexLedger.Load` | bitfinexledger.py:179-204 | `load` over the `BITFINEX_RE` catalog produces exactly `LoadSpec` for that catalog |
| `BitfinexLedger.NoCryptoWithdrawalFeesRecord` | bitfinexledger.py:137-140 | no record `load` yields has type `crypto-withdrawal-fees` |

## Left out

- `main`, lines 207-235: argument parsing and YAML/JSON output go through external libraries.
- `load_file`, lines 168-176: it reads the filesystem.
- CSV tokenising by `csv.reader`, line 181: the rows are given already split into fields.
- `DATE_RE`, line 165: it is defined but never used.
- Generator laziness. The yielded records and the standard-error prints are collected into two sequences. A `KeyError` is recorded as the key that raised, and it ends both sequences.
- The printed text of a diagnostic, lines 203-204: the model keeps the row and the description it shows, not the exact format.
- Python's Unicode rules. `\w`, `\d`, IGNORECASE and `str.lower` are modelled on ASCII only, so non-ASCII letters, digits and case pairs (such as the Kelvin sign) are not covered.
- `LoadWith` takes the catalog as a parameter. `BitfinexLedger.Load` fixes it to `BITFINEX_RE`.
- Concrete round trips are proved for `OW`, `deposit`, `adjustment`, `crypto-withdrawal-fee`, `close`, `claimed` without `#id` and `fees` without a pair. For the other 28 entries, only what holds for every pattern is proved: the meta keys are the named groups, they all start unset, and a match changes no capture outside the groups of the parts it passes through.
- A general lemma that every group not on the matched path reports `None` is not stated. It is proved for the three round trips that skip a group: `method` in `close`, `id` in `claimed` and `pair` in `fees`.
- BitfinexCatalog.FeesMatchAt: covers whole amounts and rates only, not their optional fractions `(\.\d+)?`, which line 95 also accepts.
- BitfinexCatalog.FeesWithoutPair: covers whole amounts and rates only, for the same reason.
- BitfinexCatalog.CloseMatchAt: covers a whole-number amount only. `Position closed @ 1.5 on wallet x`, whose fraction line 79 also accepts, is not covered.
- BitfinexCatalog.CloseWithoutTradeRoundTrip: covers a whole-number amount only, for the same reason.
- Key order. The catalog is a sequence, so its order is kept, but a record and its `meta` are maps. The order of a record's keys (the header's columns, then `type` and `meta`) and of the groups in `groupdict()`, which the output at line 235 writes out, is not modelled.
- The catalog's precedence is proved for the two identical crypto-withdrawal-fee entries only. Whether other entries overlap, for example `snapshot` or `token-redemption`, whose `.*` can swallow text that a later entry expects, is not worked out.
- `Regex.Match` supports only the pattern syntax the catalog uses. A general regular-expression engine and pattern compilation errors are not part of this model.
