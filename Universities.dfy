/** The university directory: the query built from the filters and the
    search box, the active-filter badge, and the two result views: a flat
    grid when a country or search text narrows the list, otherwise one
    section per country in order of first appearance, each showing at most
    six universities. */
module Universities {
  import opened Common
  import opened Query

  datatype University = University(universityId: string, name: string, country: string)

  datatype Filters = Filters(country: string, program: string, maxRanking: nat)

  const DefaultFilters: Filters := Filters("", "", 0)

  /** How many universities a country section shows. */
  const PerCountry: nat := 6

  // ---------------------------------------------------------------------------
  // Query and badge

  /** `fetchUniversities`' query: every filter and the search text are
      appended only when set. */
  method QueryParams(f: Filters, search: string) returns (ps: seq<Param>)
    ensures DistinctNames(ps)
    ensures ValueOf(ps, "country") == if f.country != "" then Some(f.country) else None
    ensures ValueOf(ps, "program") == if f.program != "" then Some(f.program) else None
    ensures ValueOf(ps, "max_ranking") == if f.maxRanking != 0 then Some(DecimalString(f.maxRanking)) else None
    ensures ValueOf(ps, "search") == if search != "" then Some(search) else None
    ensures |ps| == Bit(f.country != "") + Bit(f.program != "") + Bit(f.maxRanking != 0) + Bit(search != "")
  {
    ps := [];
    ps := AppendIf(ps, f.country != "", Param("country", f.country));
    ps := AppendIf(ps, f.program != "", Param("program", f.program));
    ps := AppendIf(ps, f.maxRanking != 0, Param("max_ranking", DecimalString(f.maxRanking)));
    ps := AppendIf(ps, search != "", Param("search", search));
  }

  /** `activeFiltersCount`: the truthy entries among country, program, a
      positive ranking cap and the search text. */
  function ActiveFiltersCount(f: Filters, search: string): (n: nat)
    ensures n <= 4
    ensures n == 0 <==> f == DefaultFilters && search == ""
  {
    Bit(f.country != "") + Bit(f.program != "") + Bit(f.maxRanking > 0) + Bit(search != "")
  }

  // ---------------------------------------------------------------------------
  // Grouping

  /** The universities of one country, in list order. */
  function OfCountry(us: seq<University>, country: string): seq<University>
  {
    Filter(us, InCountry(country))
  }

  function InCountry(country: string): University -> bool
  {
    (u: University) => u.country == country
  }

  /** The countries in order of first appearance. */
  function Countries(us: seq<University>): seq<string>
    decreases |us|
  {
    if us == [] then []
    else
      var ks := Countries(us[..|us| - 1]);
      if us[|us| - 1].country in ks then ks else ks + [us[|us| - 1].country]
  }

  /** Some university of `us` is in `c`. */
  predicate HasCountry(us: seq<University>, c: string)
  {
    exists k :: 0 <= k < |us| && us[k].country == c
  }

  /** Each country is listed once, and exactly the countries that occur are. */
  lemma {:induction false} CountriesExact(us: seq<University>)
    ensures forall i, j :: 0 <= i < j < |Countries(us)| ==> Countries(us)[i] != Countries(us)[j]
    ensures forall c :: c in Countries(us) <==> HasCountry(us, c)
    decreases |us|
  {
    if us != [] {
      var p := us[..|us| - 1];
      CountriesExact(p);
      forall c ensures HasCountry(us, c) <==> HasCountry(p, c) || us[|us| - 1].country == c {
        if HasCountry(p, c) {
          var k :| 0 <= k < |p| && p[k].country == c;
          assert us[k].country == c;
        }
        if HasCountry(us, c) && us[|us| - 1].country != c {
          var k :| 0 <= k < |us| && us[k].country == c;
          assert p[k].country == c;
        }
      }
    }
  }

  /** Appending a university extends its country's list and no other. */
  lemma OfCountryAppend(us: seq<University>, u: University, c: string)
    ensures OfCountry(us + [u], c) == OfCountry(us, c) + (if u.country == c then [u] else [])
  {
    FilterAppend(us, [u], InCountry(c));
  }

  /** Appending a university lists its country if it is new. */
  lemma CountriesAppend(us: seq<University>, u: University)
    ensures Countries(us + [u]) ==
              if u.country in Countries(us) then Countries(us) else Countries(us) + [u.country]
  {
    assert (us + [u])[..|us|] == us;
  }

  /** `groupedByCountry`: the keys in insertion order and each key's list. */
  method GroupByCountry(us: seq<University>) returns (keys: seq<string>, groups: map<string, seq<University>>)
    ensures keys == Countries(us)
    ensures forall c :: c in groups <==> c in keys
    ensures forall c :: c in groups ==> groups[c] == OfCountry(us, c)
  {
    keys := [];
    groups := map[];
    var i := 0;
    while i < |us|
      invariant 0 <= i <= |us|
      invariant keys == Countries(us[..i])
      invariant forall c :: c in groups <==> c in keys
      invariant forall c :: c in groups ==> groups[c] == OfCountry(us[..i], c)
    {
      var u := us[i];
      ghost var prefix := us[..i];
      assert us[..i + 1] == prefix + [u];
      forall c ensures OfCountry(us[..i + 1], c) == OfCountry(prefix, c) + (if u.country == c then [u] else []) {
        OfCountryAppend(prefix, u, c);
      }
      CountriesAppend(prefix, u);
      if u.country !in groups {
        NoneOfCountry(prefix, u.country);
        keys := keys + [u.country];
        groups := groups[u.country := [u]];
      } else {
        groups := groups[u.country := groups[u.country] + [u]];
      }
      i := i + 1;
    }
    assert us[..|us|] == us;
  }

  /** A country that is not listed has no universities. */
  lemma {:induction false} NoneOfCountry(us: seq<University>, c: string)
    requires c !in Countries(us)
    ensures OfCountry(us, c) == []
    decreases |us|
  {
    if us != [] {
      var p := us[..|us| - 1];
      var u := us[|us| - 1];
      assert us == p + [u];
      CountriesAppend(p, u);
      NoneOfCountry(p, c);
      OfCountryAppend(p, u, c);
    }
  }

  /** Every university sits in exactly the section of its own country. */
  lemma InOwnGroupOnly(us: seq<University>, k: nat, c: string)
    requires k < |us|
    ensures us[k] in OfCountry(us, us[k].country)
    ensures us[k] in OfCountry(us, c) ==> c == us[k].country
  {
    FilterMembers(us, InCountry(us[k].country));
    FilterMembers(us, InCountry(c));
    if us[k] in OfCountry(us, c) {
      var j :| 0 <= j < |OfCountry(us, c)| && OfCountry(us, c)[j] == us[k];
    }
  }

  /** The sum of the sizes of the sections named by `keys`. */
  function SectionTotal(keys: seq<string>, us: seq<University>): nat
  {
    if keys == [] then 0 else |OfCountry(us, keys[0])| + SectionTotal(keys[1..], us)
  }

  /** Adding one university grows the total by the number of keys naming its
      country. */
  lemma {:induction false} SectionTotalGrows(keys: seq<string>, us: seq<University>, u: University)
    ensures SectionTotal(keys, us + [u]) == SectionTotal(keys, us) + Occurrences(keys, u.country)
  {
    if keys != [] {
      SectionTotalGrows(keys[1..], us, u);
      FilterAppend(us, [u], InCountry(keys[0]));
    }
  }

  function Occurrences(keys: seq<string>, c: string): nat
  {
    if keys == [] then 0 else Bit(keys[0] == c) + Occurrences(keys[1..], c)
  }

  lemma {:induction false} OccurrencesDistinct(keys: seq<string>, c: string)
    requires forall i, j :: 0 <= i < j < |keys| ==> keys[i] != keys[j]
    ensures Occurrences(keys, c) == Bit(c in keys)
  {
    if keys != [] {
      OccurrencesDistinct(keys[1..], c);
      if keys[0] == c {
        assert c !in keys[1..] by {
          forall j | 0 <= j < |keys| - 1 ensures keys[1..][j] != c {
            assert keys[1..][j] == keys[j + 1];
          }
        }
      }
    }
  }

  lemma {:induction false} SectionTotalAppendKey(keys: seq<string>, k: string, us: seq<University>)
    ensures SectionTotal(keys + [k], us) == SectionTotal(keys, us) + |OfCountry(us, k)|
  {
    if keys != [] {
      assert (keys + [k])[1..] == keys[1..] + [k];
      SectionTotalAppendKey(keys[1..], k, us);
    } else {
      assert [k][1..] == [];
    }
  }

  /** The section sizes add up to the number of universities: nothing is
      dropped and nothing is counted twice. */
  lemma {:induction false} SectionsPartition(us: seq<University>)
    ensures SectionTotal(Countries(us), us) == |us|
    decreases |us|
  {
    if us != [] {
      var p := us[..|us| - 1];
      var u := us[|us| - 1];
      assert us == p + [u];
      SectionsPartition(p);
      var ks := Countries(p);
      CountriesExact(p);
      SectionTotalGrows(ks, p, u);
      OccurrencesDistinct(ks, u.country);
      if u.country !in ks {
        SectionTotalAppendKey(ks, u.country, us);
        NoneOfCountry(p, u.country);
        FilterAppend(p, [u], InCountry(u.country));
      }
    }
  }

  /** A section shows its first six universities, or all of them when fewer. */
  function Shown(section: seq<University>): (r: seq<University>)
    ensures |r| <= PerCountry && |r| <= |section| && r == section[..|r|]
    ensures |section| <= PerCountry ==> r == section
  {
    Take(section, PerCountry)
  }

  // ---------------------------------------------------------------------------
  // View choice

  datatype View = NoResults | Grid | Grouped

  function ViewFor(count: nat, f: Filters, search: string): (v: View)
    ensures v == NoResults <==> count == 0
    ensures v == Grid <==> count > 0 && (f.country != "" || search != "")
  {
    if count == 0 then NoResults
    else if f.country != "" || search != "" then Grid
    else Grouped
  }

  class UniversitiesPage {
    var filters: Filters
    var search: string

    constructor ()
      ensures filters == DefaultFilters && search == ""
    {
      filters := DefaultFilters;
      search := "";
    }

    /** `clearFilters`. */
    method ClearFilters()
      modifies this
      ensures filters == DefaultFilters && search == ""
      ensures ActiveFiltersCount(filters, search) == 0
    {
      filters := DefaultFilters;
      search := "";
    }
  }
}
