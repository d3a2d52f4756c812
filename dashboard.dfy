/**
 * The public search page: the listing filter, the initial and reset filter
 * values, and the headline counts over the listing collection.
 */
module Dashboard {
  import opened PGTypes
  import Seqs

  /** The three conditions a listing must meet, each stated on its own. */
  predicate GenderPasses(f: SearchFilters, pg: Listing) {
    f.genderPreference == Any || f.genderPreference == Only(pg.genderPreference)
  }

  predicate PricePasses(f: SearchFilters, pg: Listing) {
    f.priceRange.min <= pg.monthlyRent <= f.priceRange.max
  }

  predicate LocationPasses(f: SearchFilters, pg: Listing) {
    f.location == "" || pg.location == f.location
  }

  /**
   * The page's filter callback: a chain of early rejections that compares the
   * string spellings of the genders and treats an empty location as unset.
   * It accepts exactly the listings that meet all three conditions.
   */
  function Matches(f: SearchFilters, pg: Listing): (ok: bool)
    ensures ok <==> GenderPasses(f, pg) && PricePasses(f, pg) && LocationPasses(f, pg)
  {
    AnyHasNoListingCounterpart(f.genderPreference, pg.genderPreference);
    if GenderFilterLabel(f.genderPreference) != "Any"
       && GenderLabel(pg.genderPreference) != GenderFilterLabel(f.genderPreference) then false
    else if pg.monthlyRent < f.priceRange.min || pg.monthlyRent > f.priceRange.max then false
    else if f.location != "" && pg.location != f.location then false
    else true
  }

  function MatchesOf(f: SearchFilters): Listing -> bool {
    pg => Matches(f, pg)
  }

  /** The listings shown for the filters `f`, in their original order. */
  function FilterListings(pgs: seq<Listing>, f: SearchFilters): (r: seq<Listing>)
    ensures forall pg :: pg in r <==>
      pg in pgs && GenderPasses(f, pg) && PricePasses(f, pg) && LocationPasses(f, pg)
    ensures Seqs.IsSubsequence(r, pgs)
  {
    Seqs.FilterIsSubsequence(MatchesOf(f), pgs);
    Seqs.Filter(MatchesOf(f), pgs)
  }

  /** The result is determined listing by listing: each listing contributes
      itself when it matches and nothing otherwise, in input order. */
  lemma FilterListingsByParts(a: seq<Listing>, b: seq<Listing>, pg: Listing, f: SearchFilters)
    ensures FilterListings(a + b, f) == FilterListings(a, f) + FilterListings(b, f)
    ensures FilterListings([pg], f) == if Matches(f, pg) then [pg] else []
  {
    Seqs.FilterAppend(MatchesOf(f), a, b);
    assert [pg][1..] == [];
  }

  lemma FilterListingsIdempotent(pgs: seq<Listing>, f: SearchFilters)
    ensures FilterListings(FilterListings(pgs, f), f) == FilterListings(pgs, f)
  {
    Seqs.FilterIdempotent(MatchesOf(f), pgs);
  }

  /** The student name is carried by the filters but never consulted. */
  lemma StudentNameIgnored(pgs: seq<Listing>, f: SearchFilters, name: string)
    ensures FilterListings(pgs, f.(studentName := name)) == FilterListings(pgs, f)
  {
    Seqs.FilterCongruent(MatchesOf(f.(studentName := name)), MatchesOf(f), pgs);
  }

  /** An inverted price range matches nothing. */
  lemma InvertedRangeMatchesNothing(pgs: seq<Listing>, f: SearchFilters)
    requires f.priceRange.min > f.priceRange.max
    ensures FilterListings(pgs, f) == []
  {
    Seqs.FilterDropsAll(MatchesOf(f), pgs);
  }

  /** With an empty location only gender and price decide. */
  lemma EmptyLocationIsNoConstraint(pgs: seq<Listing>, f: SearchFilters)
    requires f.location == ""
    ensures FilterListings(pgs, f) == Seqs.Filter(pg => GenderPasses(f, pg) && PricePasses(f, pg), pgs)
  {
    Seqs.FilterCongruent(MatchesOf(f), pg => GenderPasses(f, pg) && PricePasses(f, pg), pgs);
  }

  /** The filters the page starts with: no gender or location constraint, so
      a listing matches exactly when its rent is in the 5000 to 20000 band. */
  function InitialFilters(): (r: SearchFilters)
    ensures forall pg :: Matches(r, pg) <==> 5000 <= pg.monthlyRent <= 20000
  {
    SearchFilters("", Any, PriceRange(5000, 20000), "")
  }

  /** The "Reset Filters" button: whatever the current filters, the page
      returns to its initial ones. */
  function ResetFilters(current: SearchFilters): (r: SearchFilters)
    ensures r == InitialFilters()
  {
    SearchFilters("", Any, PriceRange(5000, 20000), "")
  }

  /** The initial (and reset) filters show exactly the listings whose rent is
      in the 5000 to 20000 band, inclusive. */
  lemma InitialFiltersSelectRentBand(pgs: seq<Listing>)
    ensures FilterListings(pgs, InitialFilters()) ==
            Seqs.Filter((pg: Listing) => 5000 <= pg.monthlyRent <= 20000, pgs)
  {
    Seqs.FilterCongruent(MatchesOf(InitialFilters()), (pg: Listing) => 5000 <= pg.monthlyRent <= 20000, pgs);
  }

  predicate IsAvailable(pg: Listing) { pg.availability == Available }
  predicate IsLimited(pg: Listing) { pg.availability == Limited }
  predicate IsVerified(pg: Listing) { pg.verified }

  /** Number of listings marked available. */
  function AvailableCount(pgs: seq<Listing>): (n: nat)
    ensures n <= |pgs|
    ensures n == 0 <==> forall pg :: pg in pgs ==> !IsAvailable(pg)
  {
    var r := Seqs.Filter(IsAvailable, pgs);
    assert r != [] ==> r[0] in r;
    |r|
  }

  /** Number of listings marked limited. */
  function LimitedCount(pgs: seq<Listing>): (n: nat)
    ensures n <= |pgs|
    ensures n == 0 <==> forall pg :: pg in pgs ==> !IsLimited(pg)
  {
    var r := Seqs.Filter(IsLimited, pgs);
    assert r != [] ==> r[0] in r;
    |r|
  }

  /** Number of verified listings. */
  function VerifiedCount(pgs: seq<Listing>): (n: nat)
    ensures n <= |pgs|
    ensures n == 0 <==> forall pg :: pg in pgs ==> !IsVerified(pg)
  {
    var r := Seqs.Filter(IsVerified, pgs);
    assert r != [] ==> r[0] in r;
    |r|
  }

  /** A listing is never both available and limited, so the two counts
      together stay within the total. */
  lemma StatusCountsWithinTotal(pgs: seq<Listing>)
    ensures AvailableCount(pgs) + LimitedCount(pgs) <= |pgs|
  {
    Seqs.FilterLengthsDisjoint(IsAvailable, IsLimited, pgs);
  }
}
