/** One invocation end to end, without its network calls: the dispatch
    outcome, then what the chosen command produces from the decoded
    identifier map and listings. Every command reads one snapshot of each. */
module Cli {
  import opened AsciiText
  import opened Records
  import opened Resolver
  import opened Presenter
  import opened Symbols
  import opened Dispatcher

  /** What an invocation shows: a table of rows under `Header`, plain lines,
      or a usage message followed by an exit status. */
  datatype Effect =
    | Table(rows: seq<Row>)
    | Lines(lines: seq<string>)
    | Exit(status: int, reason: UsageReason)

  /** Carries out a dispatch outcome. */
  function Perform(o: Outcome, ids: seq<IdRecord>, listings: seq<Listing>): (e: Effect)
    ensures o.Usage? <==> e.Exit?
    ensures e.Exit? ==> e.status == 1 && e.reason == o.reason
    ensures (o.DisplayByName? || o.DisplayBySymbol?) ==>
      e == Table([ListingRow(GetCurrencyData(ids, listings, o.query))])
    ensures o.MarketData? ==> e.Table? && |e.rows| <= |listings|
    ensures o.SymbolLookup? ==> e.Lines? && |e.lines| <= |listings|
  {
    match o
    case DisplayByName(q) => Table([ListingRow(GetCurrencyData(ids, listings, q))])
    case DisplayBySymbol(q) => Table([ListingRow(GetCurrencyData(ids, listings, q))])
    case MarketData => Table(MarketTable(listings))
    case SymbolLookup(name) => Lines(CurrencySymbols(listings, name))
    case Usage(reason) => Exit(1, reason)
  }

  /** The program as written. */
  function RunAsWritten(args: seq<string>, given: FlagArgs, ids: seq<IdRecord>, listings: seq<Listing>): Effect {
    Perform(Dispatch(args, given), ids, listings)
  }

  /** The program with get-currency-symbol parsing its own flag set. */
  function Run(args: seq<string>, given: FlagArgs, ids: seq<IdRecord>, listings: seq<Listing>): Effect {
    Perform(DispatchFixed(args, given), ids, listings)
  }

  /** A usage failure is decided before any data is read: the result does
      not depend on the identifier map or the listings. */
  lemma UsageReadsNoData(args: seq<string>, given: FlagArgs,
                         ids1: seq<IdRecord>, listings1: seq<Listing>,
                         ids2: seq<IdRecord>, listings2: seq<Listing>)
    requires DispatchFixed(args, given).Usage?
    ensures Run(args, given, ids1, listings1) == Run(args, given, ids2, listings2)
    ensures Run(args, given, ids1, listings1).Exit?
  {
  }

  /** As written, an invocation exits with status 1 exactly when it has no
      subcommand, an unknown one, get-currency-symbol, or get-currency-data
      with both flags empty; whatever the data, it never prints symbols. */
  lemma RunAsWrittenExits(args: seq<string>, given: FlagArgs, ids: seq<IdRecord>, listings: seq<Listing>)
    ensures RunAsWritten(args, given, ids, listings).Exit? <==>
      |args| < 2 || args[1] !in Subcommands || args[1] == "get-currency-symbol"
      || (args[1] == "get-currency-data" && given.name == "" && given.symbol == "")
    ensures RunAsWritten(args, given, ids, listings).Exit? ==> RunAsWritten(args, given, ids, listings).status == 1
    ensures !RunAsWritten(args, given, ids, listings).Lines?
  {
  }

  /** get-currency-data without --name or --symbol exits with status 1. */
  lemma CurrencyDataNeedsAFlag(args: seq<string>, ids: seq<IdRecord>, listings: seq<Listing>)
    requires |args| >= 2 && args[1] == "get-currency-data"
    ensures Run(args, FlagArgs("", ""), ids, listings) == Exit(1, NoNameOrSymbol)
  {
  }

  /** get-market-data over listings ranked 1 to 150 in order shows exactly
      the rows of ranks 1 to 100, in ascending rank order. */
  lemma MarketDataShowsTopHundred(args: seq<string>, given: FlagArgs, ids: seq<IdRecord>, listings: seq<Listing>)
    requires |args| >= 2 && args[1] == "get-market-data"
    requires |listings| == 150 && RankedInOrder(listings)
    ensures Run(args, given, ids, listings).Table?
    ensures |Run(args, given, ids, listings).rows| == 100
    ensures forall i :: 0 <= i < 100 ==>
      ParseDecimal(Run(args, given, ids, listings).rows[i][0].text) == Some(i + 1)
  {
    TopHundredWhenRanked(listings);
  }

  /** get-currency-symbol prints the symbols of all listings whose name or
      slug matches, as intended; as written it exits with status 1. */
  lemma SymbolLookupEndToEnd(args: seq<string>, name: string, ids: seq<IdRecord>, listings: seq<Listing>)
    requires |args| >= 2 && args[1] == "get-currency-symbol" && name != ""
    ensures Run(args, FlagArgs(name, ""), ids, listings) == Lines(CurrencySymbols(listings, name))
    ensures RunAsWritten(args, FlagArgs(name, ""), ids, listings) == Exit(1, NoName)
  {
  }
}
