/** The counselor directory: the filter bar, the query the directory is
    fetched with, the active-filter badge, and the saved
    counselors list a signed-in student edits from the cards. The "All
    Countries" and "All Languages" entries set the filter to the text "all",
    which is sent and counted like any other value. The page keeps a price
    range, but no control on it changes it: it starts at, and is only ever
    reset to, the full 0 to 500 range, so neither price bound is ever sent
    or counted. */
module BrowseCounselors {
  import opened Common
  import opened Query

  /** The rating select: "0", "4" or "4.5". */
  datatype MinRating = AnyRating | FourPlus | FourHalfPlus

  datatype Filters = Filters(specialization: string, language: string, minRating: MinRating, sortBy: string)

  /** The page's price range state, in whole currency units. Only "Clear
      Filters" sets it, and only to the default. */
  datatype PriceRange = PriceRange(low: nat, high: nat)

  const MaxPrice: nat := 500

  const DefaultFilters: Filters := Filters("", "", AnyRating, "rating")

  const DefaultPrice: PriceRange := PriceRange(0, MaxPrice)

  /** How a rating threshold prints in the query. */
  function RatingText(r: MinRating): string
  {
    match r
    case AnyRating => "0"
    case FourPlus => "4"
    case FourHalfPlus => "4.5"
  }

  /** The first three appends of `fetchCounselors`: the two text filters
      and the rating, each only when set, and no other name. */
  method FilterParams(f: Filters) returns (ps: seq<Param>)
    ensures DistinctNames(ps)
    ensures |ps| == Bit(f.specialization != "") + Bit(f.language != "") + Bit(f.minRating != AnyRating)
    ensures ValueOf(ps, "specialization") == if f.specialization != "" then Some(f.specialization) else None
    ensures ValueOf(ps, "language") == if f.language != "" then Some(f.language) else None
    ensures ValueOf(ps, "min_rating") == if f.minRating != AnyRating then Some(RatingText(f.minRating)) else None
    ensures forall n :: n != "specialization" && n != "language" && n != "min_rating" ==> ValueOf(ps, n).None?
  {
    ps := [];
    ps := AppendIf(ps, f.specialization != "", Param("specialization", f.specialization));
    ps := AppendIf(ps, f.language != "", Param("language", f.language));
    ps := AppendIf(ps, f.minRating != AnyRating, Param("min_rating", RatingText(f.minRating)));
  }

  /** `fetchCounselors`' query: each filter is appended only when set, the
      price bounds only when they narrow the default range, and the sort key
      always, last; nothing else is sent. */
  method QueryParams(f: Filters, price: PriceRange) returns (ps: seq<Param>)
    ensures DistinctNames(ps)
    ensures |ps| >= 1 && ps[|ps| - 1] == Param("sort_by", f.sortBy)
    ensures ValueOf(ps, "specialization") == if f.specialization != "" then Some(f.specialization) else None
    ensures ValueOf(ps, "language") == if f.language != "" then Some(f.language) else None
    ensures ValueOf(ps, "min_rating") == if f.minRating != AnyRating then Some(RatingText(f.minRating)) else None
    ensures ValueOf(ps, "min_price") == if price.low > 0 then Some(DecimalString(price.low)) else None
    ensures ValueOf(ps, "max_price") == if price.high < MaxPrice then Some(DecimalString(price.high)) else None
    ensures |ps| == Bit(f.specialization != "") + Bit(f.language != "") + Bit(f.minRating != AnyRating) +
                    Bit(price.low > 0) + Bit(price.high < MaxPrice) + 1
  {
    ps := FilterParams(f);
    ps := AppendIf(ps, price.low > 0, Param("min_price", DecimalString(price.low)));
    ps := AppendIf(ps, price.high < MaxPrice, Param("max_price", DecimalString(price.high)));
    ps := Append(ps, Param("sort_by", f.sortBy));
  }

  /** `activeFiltersCount`: the truthy entries among the two text filters,
      a non-zero rating and a narrowed price range. */
  function ActiveFiltersCount(f: Filters, price: PriceRange): (n: nat)
    ensures n <= 4
    ensures n == 0 <==>
              f.specialization == "" && f.language == "" && f.minRating == AnyRating &&
              price.low == 0 && price.high >= MaxPrice
  {
    Bit(f.specialization != "") + Bit(f.language != "") + Bit(f.minRating != AnyRating) +
    Bit(price.low > 0 || price.high < MaxPrice)
  }

  /** With the price range the page always holds, only the two text
      filters and the rating can count. */
  lemma DefaultPriceNeverCounts(f: Filters)
    ensures ActiveFiltersCount(f, DefaultPrice) ==
              Bit(f.specialization != "") + Bit(f.language != "") + Bit(f.minRating != AnyRating)
    ensures ActiveFiltersCount(f, DefaultPrice) <= 3
  {
  }

  /** Clearing leaves no active filter, while choosing "all" counts as one. */
  lemma ClearAndAll()
    ensures ActiveFiltersCount(DefaultFilters, DefaultPrice) == 0
    ensures ActiveFiltersCount(DefaultFilters.(specialization := "all"), DefaultPrice) == 1
  {
  }

  /** The saved-list requests the page issues. */
  datatype SaveRequest = Unsave(counselorId: string) | Save(counselorId: string)

  class BrowsePage {
    var filters: Filters
    var price: PriceRange
    var saved: seq<string>
    var requests: seq<SaveRequest>

    constructor ()
      ensures filters == DefaultFilters && price == DefaultPrice && saved == [] && requests == []
    {
      filters := DefaultFilters;
      price := DefaultPrice;
      saved := [];
      requests := [];
    }

    /** `clearFilters`. */
    method ClearFilters()
      modifies this
      ensures filters == DefaultFilters && price == DefaultPrice
      ensures ActiveFiltersCount(filters, price) == 0
      ensures saved == old(saved) && requests == old(requests)
    {
      filters := DefaultFilters;
      price := DefaultPrice;
    }

    /** `handleSave` with the outcome of its request: without a user nothing
        happens; otherwise a saved id is deleted and an unsaved one posted,
        and the list follows only when the request succeeds. */
    method HandleSave(counselorId: string, signedIn: bool, ok: bool)
      modifies this
      ensures !signedIn ==> saved == old(saved) && requests == old(requests)
      ensures signedIn ==>
                requests == old(requests) + [if counselorId in old(saved) then Unsave(counselorId) else Save(counselorId)]
      ensures signedIn && ok ==> saved == Toggle(old(saved), counselorId)
      ensures !ok ==> saved == old(saved)
      ensures filters == old(filters) && price == old(price)
    {
      if !signedIn {
        return;
      }
      var isSaved := counselorId in saved;
      if isSaved {
        requests := requests + [Unsave(counselorId)];
        if ok {
          saved := Without(saved, counselorId);
        }
      } else {
        requests := requests + [Save(counselorId)];
        if ok {
          saved := saved + [counselorId];
        }
      }
    }
  }
}
