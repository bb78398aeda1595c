# crypto-cli decision logic in Dafny

`crypto-cli` is a command-line client for a cryptocurrency market-data API.
It has three subcommands:

- `get-currency-data --name X | --symbol X` prints a one-row quote table.
- `get-market-data` prints the market table.
- `get-currency-symbol --name X` prints currency symbols.

Most of the program is HTTP, JSON decoding and table rendering. This project
models the decision logic that sits between those layers. It takes the
decoded `Data` arrays as input sequences.

- **Resolution** (`resolver.dfy`, module `Resolver`). `get_id` finds an id by
  scanning the identifier map for the first record whose lower-cased name,
  slug or symbol equals the lower-cased query. If no record matches, it
  returns the zero id. The listing lookup inside `get_currency_data` returns
  the first listing that carries that id, or a zero-valued listing.
- **Presentation** (`presenter.dfy`, module `Presenter`). A listing becomes a
  ten-cell row that matches the header. The row loop of `display_market_data`
  is an imperative method, `MarketRows`. It is proved against the
  specification function `MarketTable`, which gives one row for each listing
  before the first listing of rank 101.
- **Symbol lookup** (`symbols.dfy`, module `Symbols`). `get_currency_symbol`
  prints the symbol of every listing whose lower-cased name or slug equals the
  query. The query is compared exactly as typed.
- **Dispatch** (`dispatch.dfy`, module `Dispatcher`). This covers `main`,
  `get_currency_data_func` and `get_currency_symbol_func`. The model records
  which flag set receives the parsed flag values and which flag variables are
  read afterwards. The outcome is a display by name, a display by symbol, the
  market data, a symbol lookup, or a usage message with exit status 1.
- **One invocation** (`cli.dfy`, module `Cli`). Composes a dispatch outcome
  with the operations above.
- **Text** (`text.dfy`, module `AsciiText`). ASCII lower-casing stands in for
  `strings.ToLower`. The rank cell is rendered as decimal text, and a decimal
  parser serves as its inverse. `records.dfy` (module `Records`) holds the
  decoded record types.

Where the code falls short of its own stated intent, the model follows the
code:

- The comment at crypto-cli.go:169 promises "top 100 coins". The loop only
  stops at the first listing whose rank is exactly 101. With no such listing,
  every listing gets a row (`Presenter.NoCutoffWithoutRank101`).
- The flag help at crypto-cli.go:251 and the message at crypto-cli.go:228
  describe `get-currency-symbol --name X` as a lookup. The code always exits
  with status 1 (see Findings).
- The identifier scan at crypto-cli.go:83 compares the symbol as well as the
  name and slug. So a ticker such as "BTC" resolves whenever a record's
  symbol is `BTC` (`Resolver.GetIdBySymbol`).

## Model

| member | source | states |
|---|---|---|
| AsciiText.ToLower | crypto-cli.go:65 | lower-casing keeps the length, lower-cases each ASCII letter and nothing else, leaves no upper-case letter, and is the identity on strings with no upper-case letter |
| AsciiText.ToLowerEqualIff | crypto-cli.go:83 | two strings lower-case to the same string exactly when they differ only in the case of their letters (both directions) |
| AsciiText.UpperNeverLowered | crypto-cli.go:207 | a query with an upper-case letter never equals a lower-cased field |
| AsciiText.DecimalRoundTrip | crypto-cli.go:187 | the rank rendered as `%v` decimal text parses back to the rank, negative ranks included |
| AsciiText.DecimalText | crypto-cli.go:187 | the `%v` text of an int is canonical: a minus sign exactly for negatives, then at least one digit, with no leading zero |
| Resolver.ScanIds | crypto-cli.go:82-87 | the scan returns the id of the first record whose name, slug or symbol matches, and 0 when none matches |
| Resolver.GetId | crypto-cli.go:61-88 | `get_id` returns the id of the first record matching the lower-cased query on any of the three fields; no earlier record matches; no match gives the zero id |
| Resolver.GetIdZeroIff | crypto-cli.go:61-87 | the result is 0 exactly when nothing matches or the first match has id 0, so "not found" cannot be told apart from a genuine id 0 |
| Resolver.GetIdCaseInsensitive | crypto-cli.go:65-85 | two queries that differ only in letter case resolve to the same id on the same data |
| Resolver.GetIdByNameAnyCase | crypto-cli.go:82-85 | on a two-record map, "bitcoin" and "Bitcoin" both resolve to id 1 |
| Resolver.GetIdBySymbol | crypto-cli.go:83 | the symbol field is compared too: on the same two-record map, "BTC" resolves to id 1 |
| Resolver.FindListing | crypto-cli.go:110-116 | the lookup returns the first listing with the id; with no such listing it returns the zero-valued listing; any non-zero result is a listing of the input that carries the id |
| Resolver.FindListingUnique | crypto-cli.go:110-114 | when listing ids are unique, the lookup of a present id returns that one listing |
| Resolver.GetCurrencyData | crypto-cli.go:90-117 | `get_currency_data` returns the first listing that carries the resolved id, and the zero listing when no listing carries it, including when the query matched an identifier whose id no listing has |
| Resolver.GetCurrencyDataFound | crypto-cli.go:93-114 | when the first matching identifier's id is carried by a listing and listing ids are unique, that listing is returned |
| Resolver.GetCurrencyDataNotFound | crypto-cli.go:87-116 | a query that matches no identifier resolves to the listing carrying id 0, or to the zero listing when there is none |
| Presenter.ListingRow | crypto-cli.go:186-190 | a row has as many cells as the header (ten); its first cell is the canonical `%v` text of the rank (optional minus sign, no leading zero), which parses back to the rank; then come the name and the symbol, and the last cell is the listing's timestamp |
| Presenter.UntilCutoff | crypto-cli.go:178-181 | the listings shown form a prefix of the input, none of them has rank 101, and the prefix is either the whole input or stops at a listing of rank 101 |
| Presenter.MarketTable | crypto-cli.go:178-192 | one row per listing before the cutoff, row i built from listing i |
| Presenter.MarketRows | crypto-cli.go:170-192 | the loop yields exactly `MarketTable`: row i is the row of listing i, in input order, for the prefix before the first rank 101; the count is at most the input length |
| Presenter.CutoffIsFirst | crypto-cli.go:178-181 | the table's length is the position of the first listing of rank 101, or the input length if there is none |
| Presenter.TopHundredWhenRanked | crypto-cli.go:169-181 | with ranks 1, 2, 3, ... in order, the table holds min(n, 100) listings, ranked 1 upward |
| Presenter.NoCutoffWithoutRank101 | crypto-cli.go:178-181 | with no listing of rank 101 every listing is shown, however many there are |
| Symbols.CurrencySymbols | crypto-cli.go:203-211 | at most one printed line per listing |
| Symbols.CurrencySymbolsMembers | crypto-cli.go:206-210 | a symbol is printed exactly when a listing whose lower-cased name or slug equals the query carries it; the symbol itself is never compared |
| Symbols.CurrencySymbolsAppend | crypto-cli.go:206-210 | the output for a concatenation is the outputs of the parts in order: every match prints, in input order, not just the first |
| Symbols.UppercaseQueryPrintsNothing | crypto-cli.go:207 | the query is not lower-cased, so a query with an upper-case letter prints nothing |
| Dispatcher.Parse | crypto-cli.go:246-251 | parsing with a flag set writes the given values into that set's own variables and leaves the other set's variable unchanged |
| Dispatcher.CurrencyDataFunc | crypto-cli.go:213-223 | a non-empty `--name` displays by that name; otherwise a non-empty `--symbol` displays by that symbol; with both empty, usage and exit 1; never the market data or a symbol lookup |
| Dispatcher.Dispatch | crypto-cli.go:245-277 | as written: fewer than two arguments gives the help usage; an unknown subcommand gives its usage; get-currency-data displays by a non-empty `--name`, else by a non-empty `--symbol`, else gives usage; get-market-data gives the market data; get-currency-symbol always gives the missing-name usage; no invocation ever reaches the symbol lookup |
| Dispatcher.SymbolSubcommandAlwaysFails | crypto-cli.go:272 | as written, get-currency-symbol ends in usage and exit 1 whatever flags are given, and never reaches the symbol lookup |
| Dispatcher.SymbolSubcommandWitness | crypto-cli.go:271-272 | `get-currency-symbol --name bitcoin` ends in the missing-name usage as written and looks up "bitcoin" once corrected |
| Dispatcher.DispatchFixed | crypto-cli.go:265-276 | corrected: get-currency-symbol looks up exactly the given non-empty name and gives the missing-name usage only when it is empty; every other subcommand keeps the same outcome and usage reason as before |
| Dispatcher.FixAffectsOnlySymbolSubcommand | crypto-cli.go:265-276 | the corrected and as-written dispatchers agree on every invocation other than get-currency-symbol |
| Cli.Perform | crypto-cli.go:119-143 | a display shows one row, built from the listing the query resolves to; the market table and the symbol lines are no longer than the listings; usage outcomes exit with status 1 |
| Cli.UsageReadsNoData | crypto-cli.go:261-275 | a usage failure does not depend on the identifier map or the listings, so no data is needed |
| Cli.RunAsWrittenExits | crypto-cli.go:261-276 | as written, an invocation exits with status 1 exactly when it has no subcommand, an unknown one, get-currency-symbol, or get-currency-data with both flags empty; it never prints symbol lines |
| Cli.CurrencyDataNeedsAFlag | crypto-cli.go:215-222 | get-currency-data with neither flag exits with status 1 |
| Cli.MarketDataShowsTopHundred | crypto-cli.go:168-192 | listings ranked 1 to 150 in order give exactly 100 rows, whose rank cells read 1 to 100 in order |
| Cli.SymbolLookupEndToEnd | crypto-cli.go:225-233 | corrected, get-currency-symbol with a non-empty name prints the symbols of the matching listings; as written it exits with status 1 |

## Left out

- HTTP request construction, the API-key header and `client.Do`, with their exits on failure (crypto-cli.go:66-79, 94-107, 149-162). These are network I/O. The decoded `Data` arrays are inputs, and every network call is assumed to succeed.
- `json.Unmarshal`, whose errors are ignored (crypto-cli.go:81, 109, 164). A response that does not decode leaves `Data` empty, which the model treats as an empty input sequence.
- The API key taken from the environment (crypto-cli.go:59). It is process environment and has no logic.
- Float64 figures and their locale formatting (crypto-cli.go:133-136, 187-190). Figures are exact reals. Their cells are symbolic (`Dollars`, `Percent`, `Count`), so the rendered text, rounding and thousands separators are not modelled.
- Time-zone lookup and RFC 3339 parsing (crypto-cli.go:122-130, 172-185). The last cell is `LocalTime(stamp)`. A stamp that fails to parse, which Go prints and then renders as the zero time, is not distinguished.
- `tablewriter` rendering, `PrintDefaults` and the help and usage texts (crypto-cli.go:138-143, 193-200, 235-243, 252-259). A usage outcome carries its reason, not its message.
- Standard-output side effects: the "Retrieving Id..." line (63), the debug print of the found listing (112), and the printed error messages. The symbol lines are the output of the symbol lookup.
- Go's flag library. The values it binds to `--name` and `--symbol` after the subcommand are an input (`FlagArgs`). Its own behaviour is not modelled: exit status 2 on an unknown flag, exit 0 on `-h`, the `--` terminator, and the top-level `flag.Parse()` (crypto-cli.go:260).
- `os.Exit` is modelled as an outcome value and an exit status.
- Unicode case folding. `strings.ToLower` is modelled on ASCII letters only.
- Go's 64-bit `int` for ids and ranks is an unbounded `int`. Ids and ranks are only compared and printed, never computed with.
- Cli.Perform: states only the row-count bound for the market table and the symbol lines. Their exact contents are stated by `Presenter.MarketRows` and `Symbols.CurrencySymbolsMembers`.

## Findings

| source | as written | input that shows it | evidently intended | confidence | as-written member | corrected member |
|---|---|---|---|---|---|---|
| crypto-cli.go:272 | `get_currency_symbol_func` is passed the get-currency-data flag set. The given `--name` therefore lands in `currency_name`, and `cur_name` keeps its default "". | `crypto-cli get-currency-symbol --name bitcoin`: prints the missing-name message and exits with status 1 | pass `get_currency_symbol_cmd`, the parameter's own name, so that `cur_name` receives the name | high; not executed | Dispatcher.SymbolSubcommandAlwaysFails | Dispatcher.DispatchFixed |

`Cli.Run` uses the corrected dispatcher. `Cli.RunAsWritten` keeps the program's own behaviour.
