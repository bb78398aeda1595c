/** Resolution of a user-supplied currency name, slug or symbol: first to a
    numeric id through the identifier map (`get_id`), then to a listing
    through the latest listings (`get_currency_data`). Both steps are
    first-match linear scans. */
module Resolver {
  import opened AsciiText
  import opened Records

  /** A record matches a lower-cased key when its lower-cased name, slug or
      symbol equals the key. */
  predicate IdMatches(r: IdRecord, key: string) {
    ToLower(r.name) == key || ToLower(r.slug) == key || ToLower(r.symbol) == key
  }

  /** Index `i` holds the first record of `ids` that matches `key`. */
  predicate FirstIdMatchAt(ids: seq<IdRecord>, key: string, i: int) {
    0 <= i < |ids| && IdMatches(ids[i], key) && forall j :: 0 <= j < i ==> !IdMatches(ids[j], key)
  }

  /** The scan of the identifier map: the id of the first matching record,
      or the zero id when no record matches. */
  function ScanIds(ids: seq<IdRecord>, key: string): (v: int)
    ensures (forall i :: 0 <= i < |ids| ==> !IdMatches(ids[i], key)) ==> v == 0
    ensures forall i :: FirstIdMatchAt(ids, key, i) ==> v == ids[i].id
  {
    if ids == [] then 0
    else if IdMatches(ids[0], key) then ids[0].id
    else
      var v := ScanIds(ids[1..], key);
      assert forall i :: FirstIdMatchAt(ids, key, i) ==> FirstIdMatchAt(ids[1..], key, i - 1);
      v
  }

  /** `get_id`: lower-cases the query, then scans the identifier map. */
  function GetId(ids: seq<IdRecord>, query: string): (v: int)
    ensures (forall i :: 0 <= i < |ids| ==> !IdMatches(ids[i], ToLower(query))) ==> v == 0
    ensures forall i :: FirstIdMatchAt(ids, ToLower(query), i) ==> v == ids[i].id
  {
    ScanIds(ids, ToLower(query))
  }

  /** Whenever some record matches, there is a first one. */
  lemma {:induction false} FirstIdMatchExists(ids: seq<IdRecord>, key: string, k: int)
    requires 0 <= k < |ids| && IdMatches(ids[k], key)
    ensures exists i :: FirstIdMatchAt(ids, key, i) && i <= k
    decreases k
  {
    if !FirstIdMatchAt(ids, key, k) {
      var j :| 0 <= j < k && IdMatches(ids[j], key);
      FirstIdMatchExists(ids, key, j);
    }
  }

  /** The result of `get_id` is the zero id exactly when no record matches or
      the first match itself carries the id 0: callers cannot tell "not found"
      from a genuine id 0. */
  lemma {:induction false} GetIdZeroIff(ids: seq<IdRecord>, query: string)
    ensures GetId(ids, query) == 0 <==>
      (forall i :: 0 <= i < |ids| ==> !IdMatches(ids[i], ToLower(query)))
      || (exists i :: FirstIdMatchAt(ids, ToLower(query), i) && ids[i].id == 0)
  {
    var key := ToLower(query);
    if k :| 0 <= k < |ids| && IdMatches(ids[k], key) {
      FirstIdMatchExists(ids, key, k);
    }
  }

  /** `get_id` ignores the letter case of the query. */
  lemma {:induction false} GetIdCaseInsensitive(ids: seq<IdRecord>, q1: string, q2: string)
    requires CaseVariants(q1, q2)
    ensures GetId(ids, q1) == GetId(ids, q2)
  {
    ToLowerEqualIff(q1, q2);
  }

  /** Index `i` holds the first listing of `listings` whose id is `id`. */
  predicate FirstListingAt(listings: seq<Listing>, id: int, i: int) {
    0 <= i < |listings| && listings[i].id == id && forall j :: 0 <= j < i ==> listings[j].id != id
  }

  /** The scan inside `get_currency_data`: the first listing with the given
      id, or the zero-valued listing when none has it. */
  function FindListing(listings: seq<Listing>, id: int): (l: Listing)
    ensures (forall i :: 0 <= i < |listings| ==> listings[i].id != id) ==> l == ZeroListing
    ensures forall i :: FirstListingAt(listings, id, i) ==> l == listings[i]
    ensures l == ZeroListing || (l in listings && l.id == id)
  {
    if listings == [] then ZeroListing
    else if listings[0].id == id then listings[0]
    else
      var l := FindListing(listings[1..], id);
      assert forall i :: FirstListingAt(listings, id, i) ==> FirstListingAt(listings[1..], id, i - 1);
      l
  }

  /** No two listings share an id. */
  predicate UniqueIds(listings: seq<Listing>) {
    forall i, j :: 0 <= i < j < |listings| ==> listings[i].id != listings[j].id
  }

  /** With unique ids, the lookup returns the one listing carrying the id. */
  lemma FindListingUnique(listings: seq<Listing>, i: int)
    requires UniqueIds(listings) && 0 <= i < |listings|
    ensures FindListing(listings, listings[i].id) == listings[i]
  {
    assert FirstListingAt(listings, listings[i].id, i);
  }

  /** `get_currency_data` without its network calls: resolve the query to an
      id, then look the id up among the listings. */
  function GetCurrencyData(ids: seq<IdRecord>, listings: seq<Listing>, query: string): (l: Listing)
    ensures l == ZeroListing || (l in listings && l.id == GetId(ids, query))
    ensures (forall i :: 0 <= i < |listings| ==> listings[i].id != GetId(ids, query)) ==> l == ZeroListing
    ensures forall i :: FirstListingAt(listings, GetId(ids, query), i) ==> l == listings[i]
  {
    FindListing(listings, GetId(ids, query))
  }

  /** End to end: when the first matching identifier's id is carried by a
      listing, and listing ids are unique, the resolved listing is that one. */
  lemma GetCurrencyDataFound(ids: seq<IdRecord>, listings: seq<Listing>, query: string, i: int, j: int)
    requires FirstIdMatchAt(ids, ToLower(query), i)
    requires UniqueIds(listings) && 0 <= j < |listings| && listings[j].id == ids[i].id
    ensures GetCurrencyData(ids, listings, query) == listings[j]
  {
    FindListingUnique(listings, j);
  }

  /** A query that matches no identifier falls back to the zero id, so it
      resolves to whatever listing carries id 0, or to the zero listing. */
  lemma GetCurrencyDataNotFound(ids: seq<IdRecord>, listings: seq<Listing>, query: string)
    requires forall i :: 0 <= i < |ids| ==> !IdMatches(ids[i], ToLower(query))
    ensures GetCurrencyData(ids, listings, query) == FindListing(listings, 0)
    ensures (forall j :: 0 <= j < |listings| ==> listings[j].id != 0) ==>
      GetCurrencyData(ids, listings, query) == ZeroListing
  {
  }

  /** A small identifier map for the scenarios below. */
  const SampleIds := [IdRecord(1, "Bitcoin", "BTC", "bitcoin"), IdRecord(1027, "Ethereum", "ETH", "ethereum")]

  /** A name resolves in any letter case. */
  lemma GetIdByNameAnyCase()
    ensures GetId(SampleIds, "bitcoin") == 1 && GetId(SampleIds, "Bitcoin") == 1
  {
    assert ToLower("bitcoin") == "bitcoin";
    assert ToLower("Bitcoin") == "bitcoin";
    assert FirstIdMatchAt(SampleIds, "bitcoin", 0);
  }

  /** The symbol is compared too: "BTC" resolves through the symbol field. */
  lemma GetIdBySymbol()
    ensures GetId(SampleIds, "BTC") == 1
  {
    assert ToLower("BTC") == "btc";
    assert FirstIdMatchAt(SampleIds, "btc", 0);
  }
}
