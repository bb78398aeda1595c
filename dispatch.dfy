/** Subcommand dispatch of `main`, `get_currency_data_func` and
    `get_currency_symbol_func`. Parsing of the flags themselves is done by
    Go's flag library and is not modelled: its result, the values given to
    `--name` and `--symbol` after the subcommand, is an input here. What is
    modelled is which flag set receives those values and which variables the
    dispatcher reads afterwards. */
module Dispatcher {

  /** The two flag sets that main defines and may parse. */
  datatype FlagSet = CurrencyDataCmd | CurrencySymbolCmd

  /** The values given on the command line after the subcommand; "" when absent. */
  datatype FlagArgs = FlagArgs(name: string, symbol: string)

  /** The three flag variables of main: `currency_name` and `currency_symbol`
      belong to the get-currency-data set, `cur_name` to the
      get-currency-symbol set. */
  datatype FlagVars = FlagVars(currencyName: string, currencySymbol: string, curName: string)

  /** Every flag is declared with the default "". */
  const Defaults := FlagVars("", "", "")

  /** Parsing with one flag set writes the given values into that set's
      variables only; the other set's variables keep their values. */
  function Parse(fs: FlagSet, given: FlagArgs, vars: FlagVars): (r: FlagVars)
    ensures fs == CurrencyDataCmd ==>
      r.currencyName == given.name && r.currencySymbol == given.symbol && r.curName == vars.curName
    ensures fs == CurrencySymbolCmd ==>
      r.curName == given.name && r.currencyName == vars.currencyName && r.currencySymbol == vars.currencySymbol
  {
    match fs
    case CurrencyDataCmd => vars.(currencyName := given.name, currencySymbol := given.symbol)
    case CurrencySymbolCmd => vars.(curName := given.name)
  }

  /** Why the program printed a usage message and exited with status 1. */
  datatype UsageReason =
    | NoSubcommand        // fewer than two arguments: the help message
    | UnknownSubcommand   // the subcommand is none of the three
    | NoNameOrSymbol      // get-currency-data without a non-empty --name or --symbol
    | NoName              // get-currency-symbol without a non-empty name

  /** What the invocation goes on to do. */
  datatype Outcome =
    | DisplayByName(query: string)      // display_currency_data(--name)
    | DisplayBySymbol(query: string)    // display_currency_data(--symbol)
    | MarketData                        // display_market_data()
    | SymbolLookup(name: string)        // get_currency_symbol(cur_name)
    | Usage(reason: UsageReason)        // message, then os.Exit(1)

  const Subcommands: set<string> := {"get-currency-data", "get-market-data", "get-currency-symbol"}

  /** `get_currency_data_func` after its parse: --name wins over --symbol. */
  function CurrencyDataFunc(vars: FlagVars): (o: Outcome)
    ensures o.Usage? <==> vars.currencyName == "" && vars.currencySymbol == ""
    ensures o.Usage? ==> o.reason == NoNameOrSymbol
    ensures vars.currencyName != "" ==> o == DisplayByName(vars.currencyName)
    ensures vars.currencyName == "" && vars.currencySymbol != "" ==> o == DisplayBySymbol(vars.currencySymbol)
    ensures o.DisplayBySymbol? ==> vars.currencyName == "" && o.query == vars.currencySymbol != ""
    ensures !o.MarketData? && !o.SymbolLookup?
  {
    if vars.currencyName != "" then DisplayByName(vars.currencyName)
    else if vars.currencySymbol != "" then DisplayBySymbol(vars.currencySymbol)
    else Usage(NoNameOrSymbol)
  }

  /** `get_currency_symbol_func` after its parse. */
  function CurrencySymbolFunc(vars: FlagVars): (o: Outcome)
    ensures o.Usage? <==> vars.curName == ""
    ensures o.Usage? ==> o.reason == NoName
    ensures !o.Usage? ==> o == SymbolLookup(vars.curName) && vars.curName != ""
  {
    if vars.curName == "" then Usage(NoName) else SymbolLookup(vars.curName)
  }

  /** `main` as written: `args` is os.Args, program name first. The
      get-currency-symbol branch hands the get-currency-data flag set to
      `get_currency_symbol_func`, so the given name lands in
      `currency_name` and `cur_name` keeps its default. */
  function Dispatch(args: seq<string>, given: FlagArgs): (o: Outcome)
    ensures o.Usage? <==>
      |args| < 2 || args[1] !in Subcommands || args[1] == "get-currency-symbol"
      || (args[1] == "get-currency-data" && given.name == "" && given.symbol == "")
    ensures o.DisplayByName? ==> o.query == given.name != ""
    ensures o.DisplayBySymbol? ==> given.name == "" && o.query == given.symbol != ""
    ensures o == MarketData <==> |args| >= 2 && args[1] == "get-market-data"
    ensures |args| < 2 ==> o == Usage(NoSubcommand)
    ensures |args| >= 2 && args[1] !in Subcommands ==> o == Usage(UnknownSubcommand)
    ensures |args| >= 2 && args[1] == "get-currency-data" && given.name != "" ==> o == DisplayByName(given.name)
    ensures |args| >= 2 && args[1] == "get-currency-data" && given.name == "" && given.symbol != "" ==>
      o == DisplayBySymbol(given.symbol)
    ensures |args| >= 2 && args[1] == "get-currency-data" && given.name == "" && given.symbol == "" ==>
      o == Usage(NoNameOrSymbol)
    ensures |args| >= 2 && args[1] == "get-currency-symbol" ==> o == Usage(NoName)
    ensures !o.SymbolLookup?
  {
    if |args| < 2 then Usage(NoSubcommand)
    else if args[1] == "get-currency-data" then CurrencyDataFunc(Parse(CurrencyDataCmd, given, Defaults))
    else if args[1] == "get-market-data" then MarketData
    else if args[1] == "get-currency-symbol" then CurrencySymbolFunc(Parse(CurrencyDataCmd, given, Defaults))
    else Usage(UnknownSubcommand)
  }

  /** As written, get-currency-symbol fails whatever is given: it never
      reaches the symbol lookup. */
  lemma SymbolSubcommandAlwaysFails(args: seq<string>, given: FlagArgs)
    requires |args| >= 2 && args[1] == "get-currency-symbol"
    ensures Dispatch(args, given) == Usage(NoName)
    ensures forall q :: Dispatch(args, given) != SymbolLookup(q)
  {
  }

  /** A concrete invocation that shows the defect: the documented use of
      get-currency-symbol ends in the missing-name usage as written, and looks the name
      up once the intended flag set is parsed. */
  lemma SymbolSubcommandWitness()
    ensures Dispatch(["crypto-cli", "get-currency-symbol", "--name", "bitcoin"], FlagArgs("bitcoin", "")) == Usage(NoName)
    ensures DispatchFixed(["crypto-cli", "get-currency-symbol", "--name", "bitcoin"], FlagArgs("bitcoin", "")) == SymbolLookup("bitcoin")
  {
  }

  /** `main` with the get-currency-symbol branch parsing its own flag set, as
      its parameter name `get_currency_symbol_cmd` intends. */
  function DispatchFixed(args: seq<string>, given: FlagArgs): (o: Outcome)
    ensures o.Usage? <==>
      |args| < 2 || args[1] !in Subcommands
      || (args[1] == "get-currency-symbol" && given.name == "")
      || (args[1] == "get-currency-data" && given.name == "" && given.symbol == "")
    ensures o.SymbolLookup? <==> |args| >= 2 && args[1] == "get-currency-symbol" && given.name != ""
    ensures o.SymbolLookup? ==> o.name == given.name
    ensures o.DisplayByName? ==> o.query == given.name != ""
    ensures o.DisplayBySymbol? ==> given.name == "" && o.query == given.symbol != ""
    ensures o == MarketData <==> |args| >= 2 && args[1] == "get-market-data"
    ensures |args| < 2 ==> o == Usage(NoSubcommand)
    ensures |args| >= 2 && args[1] !in Subcommands ==> o == Usage(UnknownSubcommand)
    ensures |args| >= 2 && args[1] == "get-currency-data" && given.name != "" ==> o == DisplayByName(given.name)
    ensures |args| >= 2 && args[1] == "get-currency-data" && given.name == "" && given.symbol != "" ==>
      o == DisplayBySymbol(given.symbol)
    ensures |args| >= 2 && args[1] == "get-currency-data" && given.name == "" && given.symbol == "" ==>
      o == Usage(NoNameOrSymbol)
    ensures |args| >= 2 && args[1] == "get-currency-symbol" && given.name == "" ==> o == Usage(NoName)
  {
    if |args| < 2 then Usage(NoSubcommand)
    else if args[1] == "get-currency-data" then CurrencyDataFunc(Parse(CurrencyDataCmd, given, Defaults))
    else if args[1] == "get-market-data" then MarketData
    else if args[1] == "get-currency-symbol" then CurrencySymbolFunc(Parse(CurrencySymbolCmd, given, Defaults))
    else Usage(UnknownSubcommand)
  }

  /** The two dispatchers differ only on get-currency-symbol. */
  lemma FixAffectsOnlySymbolSubcommand(args: seq<string>, given: FlagArgs)
    requires |args| < 2 || args[1] != "get-currency-symbol"
    ensures DispatchFixed(args, given) == Dispatch(args, given)
  {
  }
}
