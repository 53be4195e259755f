/** A counselor's card in the directory: the "from" price, the truncated
    specialization badges and language line, and the save button. Lists the
    server may omit are `Option`s, as `?.` reads them. */
module CounselorCard {
  import opened Common

  datatype Card = Card(
    counselorId: string,
    servicePrices: Option<seq<nat>>,
    specializations: Option<seq<string>>,
    languages: Option<seq<string>>)

  /** How many specialization badges are shown before the "+N" badge. */
  const MaxBadges: nat := 3

  /** How many languages the card lists. */
  const MaxLanguages: nat := 2

  /** `Math.min(...prices)` over a non-empty list. */
  function Min(prices: seq<nat>): (r: nat)
    requires |prices| > 0
    ensures r in prices
    ensures forall i :: 0 <= i < |prices| ==> r <= prices[i]
  {
    if |prices| == 1 then prices[0]
    else
      var rest := Min(prices[1..]);
      if prices[0] <= rest then prices[0] else rest
  }

  /** `minPrice`: the cheapest service, or 0 when there are none. */
  function MinPrice(c: Card): (r: nat)
    ensures c.servicePrices.None? || c.servicePrices.value == [] ==> r == 0
    ensures c.servicePrices.Some? && c.servicePrices.value != [] ==>
              r in c.servicePrices.value && forall p :: p in c.servicePrices.value ==> r <= p
  {
    if c.servicePrices.Some? && |c.servicePrices.value| > 0 then Min(c.servicePrices.value) else 0
  }

  /** The badge row: the first three specializations, then "+N" for the
      rest when there are more than three. */
  datatype BadgeRow = BadgeRow(shown: seq<string>, more: Option<nat>)

  function Badges(c: Card): (r: BadgeRow)
    ensures |r.shown| <= MaxBadges
    ensures c.specializations.None? ==> r == BadgeRow([], None)
    ensures c.specializations.Some? ==>
              var s := c.specializations.value;
              && |r.shown| <= |s| && r.shown == s[..|r.shown|]
              && (r.more.Some? <==> |s| > MaxBadges)
              && |r.shown| + (if r.more.Some? then r.more.value else 0) == |s|
              && (r.more.Some? ==> r.more.value >= 1)
  {
    if c.specializations.None? then BadgeRow([], None)
    else
      var s := c.specializations.value;
      BadgeRow(Take(s, MaxBadges), if |s| > MaxBadges then Some(|s| - MaxBadges) else None)
  }

  /** The languages listed: the first two. */
  function ShownLanguages(c: Card): (r: seq<string>)
    ensures |r| <= MaxLanguages
    ensures c.languages.None? ==> r == []
    ensures c.languages.Some? ==> |r| <= |c.languages.value| && r == c.languages.value[..|r|] &&
                                  (|c.languages.value| <= MaxLanguages ==> r == c.languages.value)
  {
    if c.languages.None? then [] else Take(c.languages.value, MaxLanguages)
  }

  /** The save button: present only with an `onSave` callback, and a click
      passes the card's own counselor id to it. */
  function SaveClick(hasOnSave: bool, c: Card): (r: Option<string>)
    ensures r.Some? <==> hasOnSave
    ensures r.Some? ==> r.value == c.counselorId
  {
    if hasOnSave then Some(c.counselorId) else None
  }
}
