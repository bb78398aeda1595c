/** `get_currency_symbol`: print the symbol of every listing whose name or
    slug, lower-cased, equals the query. The query itself is compared as the
    user typed it, without lower-casing. */
module Symbols {
  import opened AsciiText
  import opened Records

  /** The per-listing test of `get_currency_symbol`. The symbol is not compared. */
  predicate NameOrSlugMatches(l: Listing, name: string) {
    ToLower(l.name) == name || ToLower(l.slug) == name
  }

  /** The lines `get_currency_symbol` prints, in order. */
  function CurrencySymbols(listings: seq<Listing>, name: string): (out: seq<string>)
    ensures |out| <= |listings|
  {
    if listings == [] then []
    else (if NameOrSlugMatches(listings[0], name) then [listings[0].symbol] else []) + CurrencySymbols(listings[1..], name)
  }

  /** A symbol is printed exactly when some listing that matches on name or
      slug carries it. */
  lemma {:induction false} CurrencySymbolsMembers(listings: seq<Listing>, name: string, s: string)
    ensures s in CurrencySymbols(listings, name) <==>
      exists i :: 0 <= i < |listings| && NameOrSlugMatches(listings[i], name) && listings[i].symbol == s
    decreases |listings|
  {
    if listings != [] {
      var tail := listings[1..];
      CurrencySymbolsMembers(tail, name, s);
      if s in CurrencySymbols(tail, name) {
        var i :| 0 <= i < |tail| && NameOrSlugMatches(tail[i], name) && tail[i].symbol == s;
        assert listings[i + 1] == tail[i];
      }
      if i :| 1 <= i < |listings| && NameOrSlugMatches(listings[i], name) && listings[i].symbol == s {
        assert tail[i - 1] == listings[i];
      }
    }
  }

  /** The output for a concatenation is the output for each part, in order:
      every matching listing contributes its symbol at its own position. */
  lemma {:induction false} CurrencySymbolsAppend(a: seq<Listing>, b: seq<Listing>, name: string)
    ensures CurrencySymbols(a + b, name) == CurrencySymbols(a, name) + CurrencySymbols(b, name)
    decreases |a|
  {
    if a == [] {
      assert a + b == b;
    } else {
      var head := if NameOrSlugMatches(a[0], name) then [a[0].symbol] else [];
      assert (a + b)[0] == a[0];
      assert (a + b)[1..] == a[1..] + b;
      CurrencySymbolsAppend(a[1..], b, name);
      calc {
        CurrencySymbols(a + b, name);
        head + CurrencySymbols(a[1..] + b, name);
        head + (CurrencySymbols(a[1..], name) + CurrencySymbols(b, name));
        (head + CurrencySymbols(a[1..], name)) + CurrencySymbols(b, name);
        CurrencySymbols(a, name) + CurrencySymbols(b, name);
      }
    }
  }

  /** The query is not lower-cased, so a query holding an upper-case letter
      never matches anything and nothing is printed. */
  lemma UppercaseQueryPrintsNothing(listings: seq<Listing>, name: string)
    requires HasUpper(name)
    ensures CurrencySymbols(listings, name) == []
  {
    forall i | 0 <= i < |listings|
      ensures !NameOrSlugMatches(listings[i], name)
    {
      UpperNeverLowered(listings[i].name, name);
      UpperNeverLowered(listings[i].slug, name);
    }
    if CurrencySymbols(listings, name) != [] {
      var s := CurrencySymbols(listings, name)[0];
      CurrencySymbolsMembers(listings, name, s);
    }
  }
}
