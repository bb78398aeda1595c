/** The rows the client hands to the table writer: one per listing, ten
    cells each, in the order of the header. Only the rank, name and symbol
    cells are plain text; the other cells are kept symbolic (which figure,
    formatted how), since float and locale formatting are not modelled. */
module Presenter {
  import opened AsciiText
  import opened Records

  /** A table cell before rendering. */
  datatype Cell =
    | Text(text: string)          // printed verbatim
    | Dollars(amount: real)       // `p.Sprintf("$%.2f", ·)`, with thousands separators
    | Percent(change: real)       // `fmt.Sprintf("%.2f", ·)`
    | Count(amount: real)         // `p.Sprintf("%.f", ·)`, with thousands separators
    | LocalTime(stamp: string)    // an RFC 3339 stamp re-rendered in the local zone

  type Row = seq<Cell>

  /** The table header shared by both table commands. */
  const Header: seq<string> := ["CMC Rank", "Name", "Symbol", "Price", "1h %", "24h %", "7d %",
                                "Market Cap", "Circulating Supply", "Last Updated"]

  /** The row built for one listing. */
  function ListingRow(l: Listing): (r: Row)
    ensures |r| == |Header|
    ensures r[0] == Text(DecimalText(l.rank)) && ParseDecimal(r[0].text) == Some(l.rank)
    ensures r[1] == Text(l.name) && r[2] == Text(l.symbol)
    ensures r[9] == LocalTime(l.quote.lastUpdated)
  {
    DecimalRoundTrip(l.rank);
    [Text(DecimalText(l.rank)), Text(l.name), Text(l.symbol),
     Dollars(l.quote.price),
     Percent(l.quote.percentChange1h), Percent(l.quote.percentChange24h), Percent(l.quote.percentChange7d),
     Dollars(l.quote.marketCap), Count(l.circulatingSupply), LocalTime(l.quote.lastUpdated)]
  }

  /** The rank at which the market table stops. */
  const CutoffRank := 101

  /** The listings the market table shows: the longest prefix that holds no
      listing of rank 101. */
  function UntilCutoff(listings: seq<Listing>): (p: seq<Listing>)
    ensures |p| <= |listings| && p == listings[..|p|]
    ensures forall i :: 0 <= i < |p| ==> p[i].rank != CutoffRank
    ensures |p| == |listings| || listings[|p|].rank == CutoffRank
  {
    if listings == [] || listings[0].rank == CutoffRank then []
    else
      var rest := UntilCutoff(listings[1..]);
      assert listings[..|rest| + 1] == [listings[0]] + listings[1..][..|rest|];
      [listings[0]] + rest
  }

  /** One row per listing, in order. */
  function RowsOf(listings: seq<Listing>): (rows: seq<Row>)
    ensures |rows| == |listings|
    ensures forall i :: 0 <= i < |rows| ==> rows[i] == ListingRow(listings[i])
  {
    seq(|listings|, i requires 0 <= i < |listings| => ListingRow(listings[i]))
  }

  lemma RowsOfSnoc(listings: seq<Listing>, l: Listing)
    ensures RowsOf(listings + [l]) == RowsOf(listings) + [ListingRow(l)]
  {
    var a, b := RowsOf(listings + [l]), RowsOf(listings) + [ListingRow(l)];
    forall k | 0 <= k < |a|
      ensures a[k] == b[k]
    {
      if k < |listings| {
        assert (listings + [l])[k] == listings[k];
      }
    }
  }

  /** The rows of the market table: one per listing before the cutoff. */
  function MarketTable(listings: seq<Listing>): (rows: seq<Row>)
    ensures |rows| == |UntilCutoff(listings)|
    ensures forall i :: 0 <= i < |rows| ==> rows[i] == ListingRow(listings[i])
  {
    RowsOf(UntilCutoff(listings))
  }

  /** The row-building loop of `display_market_data`: walks the listings in
      order, stops at the first listing of rank 101, and appends one row for
      every listing before it. */
  method MarketRows(listings: seq<Listing>) returns (rows: seq<Row>)
    ensures rows == MarketTable(listings)
    ensures |rows| <= |listings|
    ensures forall i :: 0 <= i < |rows| ==> rows[i] == ListingRow(listings[i])
    ensures forall i :: 0 <= i < |rows| ==> listings[i].rank != CutoffRank
    ensures |rows| == |listings| || listings[|rows|].rank == CutoffRank
  {
    rows := [];
    var i := 0;
    while i < |listings|
      invariant 0 <= i <= |listings|
      invariant rows == RowsOf(listings[..i])
      invariant forall k :: 0 <= k < i ==> listings[k].rank != CutoffRank
    {
      if listings[i].rank == CutoffRank {
        break;
      }
      RowsOfSnoc(listings[..i], listings[i]);
      assert listings[..i + 1] == listings[..i] + [listings[i]];
      rows := rows + [ListingRow(listings[i])];
      i := i + 1;
    }
    CutoffIsFirst(listings, i);
  }

  /** The prefix the table shows ends exactly at the first listing of rank
      101, so its length is determined by where that listing sits. */
  lemma CutoffIsFirst(listings: seq<Listing>, n: int)
    requires 0 <= n <= |listings|
    requires forall k :: 0 <= k < n ==> listings[k].rank != CutoffRank
    requires n == |listings| || listings[n].rank == CutoffRank
    ensures |UntilCutoff(listings)| == n
  {
  }

  /** Listings whose ranks run 1, 2, 3, ... in input order. */
  predicate RankedInOrder(listings: seq<Listing>) {
    forall i :: 0 <= i < |listings| ==> listings[i].rank == i + 1
  }

  /** With ranks 1, 2, 3, ... in order, the table holds ranks 1 to 100, or
      every listing when there are fewer than 101. */
  lemma TopHundredWhenRanked(listings: seq<Listing>)
    requires RankedInOrder(listings)
    ensures |UntilCutoff(listings)| == if |listings| <= 100 then |listings| else 100
    ensures forall i :: 0 <= i < |UntilCutoff(listings)| ==> UntilCutoff(listings)[i].rank == i + 1
  {
    CutoffIsFirst(listings, if |listings| <= 100 then |listings| else 100);
  }

  /** Without a listing of rank 101 nothing is cut, whatever the input size:
      the table is not otherwise limited to 100 rows. */
  lemma NoCutoffWithoutRank101(listings: seq<Listing>)
    requires forall i :: 0 <= i < |listings| ==> listings[i].rank != CutoffRank
    ensures UntilCutoff(listings) == listings
  {
    CutoffIsFirst(listings, |listings|);
  }
}
