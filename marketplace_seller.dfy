/**
 * The seller dashboard's pure logic: the unit labels, the conjunctive listing
 * filter, the sorted city and target lists, and the target-segment toggle of
 * the filter bar and of the add-listing form.
 */
module MarketplaceSeller {
  import opened Wrappers
  import opened Lists
  import opened Text
  import opened SalesStore
  import opened DemoText

  /** `priceUnitLabel`: the suffix shown after a price. */
  function PriceUnitLabel(u: string): (r: string)
    ensures r in ["/kg", "/ton", "/L", " total"]
    ensures r == " total" <==> u !in ["per_kg", "per_ton", "per_liter"]
    ensures u == "per_kg" ==> r == "/kg"
    ensures u == "per_ton" ==> r == "/ton"
    ensures u == "per_liter" ==> r == "/L"
  {
    if u == "per_kg" then "/kg"
    else if u == "per_ton" then "/ton"
    else if u == "per_liter" then "/L"
    else " total"
  }

  /** `qtyUnitLabel`: the unit shown after a quantity. */
  function QtyUnitLabel(u: string): (r: string)
    ensures r in ["kg", "ton", "L", "head", "unit"]
    ensures r == u <==> u in ["kg", "ton", "L", "head", "unit"]
    ensures u !in ["kg", "ton", "L", "head"] ==> r == "unit"
  {
    if u == "kg" then "kg"
    else if u == "ton" then "ton"
    else if u == "L" then "L"
    else if u == "head" then "head"
    else "unit"
  }

  /** The label tells every price unit of the store apart. */
  lemma PriceUnitLabelsDistinct(a: PriceUnit, b: PriceUnit)
    requires a != b
    ensures PriceUnitLabel(PriceUnitName(a)) != PriceUnitLabel(PriceUnitName(b))
  {
  }

  /** Every quantity unit of the store is shown as itself, and labelling is idempotent. */
  lemma QtyUnitLabelFixesStoreUnits(q: QtyUnit, u: string)
    ensures QtyUnitLabel(QtyUnitName(q)) == QtyUnitName(q)
    ensures QtyUnitLabel(QtyUnitLabel(u)) == QtyUnitLabel(u)
  {
  }

  datatype StatusFilter = AnyStatus | PostedOnly | NotPosted

  /** The filter bar: `"all"` is the city sentinel; `None` stands for `'all'` elsewhere. */
  datatype SellerFilters = SellerFilters(
    q: string, typeFilter: Option<ItemType>, cityFilter: string,
    status: StatusFilter, targetFilter: seq<string>, channelFilter: Option<int>)

  const NoFilters := SellerFilters("", None, "all", AnyStatus, [], None)

  /** The ids of listings that some posting refers to (`byIdPosted`). */
  function PostedIds(postings: seq<Posting>): (r: set<int>)
    ensures forall id :: id in r <==> exists p :: p in postings && p.fields.listingId == id
  {
    set p | p in postings :: p.fields.listingId
  }

  /** The search text: the query trimmed and lower-cased. */
  function SearchText(q: string): string {
    Lower(Trim(q))
  }

  /** The search box: an empty search matches everything, otherwise product or city must contain it. */
  predicate TextMatches(l: Listing, q: string) {
    var text := SearchText(q);
    text == [] || Includes(Lower(l.fields.product), text) || Includes(Lower(l.fields.city), text)
  }

  predicate StatusMatches(l: Listing, status: StatusFilter, postings: seq<Posting>) {
    match status
    case AnyStatus => true
    case PostedOnly => l.id in PostedIds(postings)
    case NotPosted => l.id !in PostedIds(postings)
  }

  /** With targets selected, the listing must name at least one of them. */
  predicate TargetsMatch(l: Listing, targetFilter: seq<string>) {
    targetFilter == [] || exists t :: t in l.fields.targets.GetOr([]) && t in targetFilter
  }

  /** With a channel selected, the listing must be posted there or have a lead from there. */
  predicate ChannelMatches(l: Listing, channelFilter: Option<int>, postings: seq<Posting>, leads: seq<Lead>) {
    || channelFilter.None?
    || (exists p :: p in postings && p.fields.listingId == l.id && p.fields.channelId == channelFilter.value)
    || (exists b :: b in leads && b.fields.product == l.fields.product && b.fields.channelId == channelFilter)
  }

  /** Every condition of the filter bar, in the order the page tests them. */
  predicate KeepListing(l: Listing, f: SellerFilters, postings: seq<Posting>, leads: seq<Lead>) {
    && TextMatches(l, f.q)
    && (f.typeFilter.None? || l.fields.itemType == f.typeFilter.value)
    && (f.cityFilter == "all" || l.fields.city == f.cityFilter)
    && StatusMatches(l, f.status, postings)
    && TargetsMatch(l, f.targetFilter)
    && ChannelMatches(l, f.channelFilter, postings, leads)
  }

  /** The filter callback of `filteredListings`. */
  function Keeper(f: SellerFilters, postings: seq<Posting>, leads: seq<Lead>): Listing -> bool {
    (l: Listing) => KeepListing(l, f, postings, leads)
  }

  /** `filteredListings`: the listings that pass every filter, in their original order. */
  function FilteredListings(listings: seq<Listing>, postings: seq<Posting>, leads: seq<Lead>, f: SellerFilters): (r: seq<Listing>)
    ensures Sublist(r, listings)
    ensures forall l :: l in r <==> l in listings && KeepListing(l, f, postings, leads)
    ensures forall l :: multiset(r)[l] == if KeepListing(l, f, postings, leads) then multiset(listings)[l] else 0
  {
    FilterIsSublist(Keeper(f, postings, leads), listings);
    FilterCounts(Keeper(f, postings, leads), listings);
    Filter(Keeper(f, postings, leads), listings)
  }

  /** An empty search box hides nothing. */
  lemma EmptySearchMatches(l: Listing)
    ensures TextMatches(l, "")
  {
    assert TrimStart("") == [] && TrimEnd([]) == [];
    assert SearchText("") == [];
  }

  /** Every listing passes the filter bar in its initial state. */
  lemma NoFiltersKeep(l: Listing, postings: seq<Posting>, leads: seq<Lead>)
    ensures KeepListing(l, NoFilters, postings, leads)
  {
    assert TextMatches(l, NoFilters.q) by { EmptySearchMatches(l); }
    assert StatusMatches(l, NoFilters.status, postings) by { }
    assert TargetsMatch(l, NoFilters.targetFilter) by { }
    assert ChannelMatches(l, NoFilters.channelFilter, postings, leads) by { }
    assert NoFilters.cityFilter == "all" && NoFilters.typeFilter.None? by { }
  }

  /** With an empty search and every filter off, nothing is hidden. */
  lemma NoFiltersKeepAll(listings: seq<Listing>, postings: seq<Posting>, leads: seq<Lead>)
    ensures FilteredListings(listings, postings, leads, NoFilters) == listings
  {
    forall l | l in listings ensures Keeper(NoFilters, postings, leads)(l) {
      NoFiltersKeep(l, postings, leads);
    }
    FilterKeepsAll(Keeper(NoFilters, postings, leads), listings);
  }

  /** With only the search box used, the search alone decides. */
  lemma SearchOnly(l: Listing, q: string, postings: seq<Posting>, leads: seq<Lead>)
    ensures KeepListing(l, NoFilters.(q := q), postings, leads) == TextMatches(l, q)
  {
    var f := NoFilters.(q := q);
    assert StatusMatches(l, f.status, postings) by { }
    assert TargetsMatch(l, f.targetFilter) by { }
    assert ChannelMatches(l, f.channelFilter, postings, leads) by { }
    assert f.cityFilter == "all" && f.typeFilter.None? by { }
  }

  /** The search text of "fresh" is "fresh" itself. */
  lemma FreshSearchText()
    ensures SearchText("fresh") == "fresh"
  {
    TrimUnpadded("fresh");
    LowerIs("fresh", "fresh");
  }

  /** The demo tomatoes and milk match the search "fresh"; the oil, wheat and calves do not. */
  lemma SeededFreshMatches(now: string)
    ensures TextMatches(DemoListings(now)[0], "fresh") && TextMatches(DemoListings(now)[2], "fresh")
    ensures !TextMatches(DemoListings(now)[1], "fresh") && !TextMatches(DemoListings(now)[3], "fresh")
    ensures !TextMatches(DemoListings(now)[4], "fresh")
  {
    DemoListingProductsAndCities(now);
    FreshSearchText();
    DemoProductsWithFresh();
    OilAndTunisLackFresh();
    WheatAndKairouanLackFresh();
    CalvesAndSidiBouzidLackFresh();
  }

  /** Searching "fresh" keeps the demo listing at index `i` exactly when it is listing 1 or 3. */
  lemma SeededKeepAt(now: string, i: int)
    requires 0 <= i < 5
    ensures var l := DemoListings(now)[i];
      KeepListing(l, NoFilters.(q := "fresh"), [], DemoLeads(now)) <==> l.id in {1, 3}
  {
    var ls := DemoListings(now);
    DemoListingProductsAndCities(now);
    SeededFreshMatches(now);
    SearchOnly(ls[i], "fresh", [], DemoLeads(now));
    if i == 0 {
      assert TextMatches(ls[0], "fresh") && ls[0].id == 1;
    } else if i == 1 {
      assert !TextMatches(ls[1], "fresh") && ls[1].id == 2;
    } else if i == 2 {
      assert TextMatches(ls[2], "fresh") && ls[2].id == 3;
    } else if i == 3 {
      assert !TextMatches(ls[3], "fresh") && ls[3].id == 4;
    } else {
      assert !TextMatches(ls[4], "fresh") && ls[4].id == 5;
    }
  }

  /** On the store's demo data, searching "fresh" keeps exactly listings 1 and 3, the fresh tomatoes and milk. */
  lemma SeededSearchForFresh(now: string)
    ensures forall l :: l in FilteredListings(DemoListings(now), [], DemoLeads(now), NoFilters.(q := "fresh")) <==>
      l in DemoListings(now) && l.id in {1, 3}
  {
    var ls := DemoListings(now);
    forall l | l in ls ensures KeepListing(l, NoFilters.(q := "fresh"), [], DemoLeads(now)) <==> l.id in {1, 3} {
      var i :| 0 <= i < |ls| && ls[i] == l;
      SeededKeepAt(now, i);
    }
  }

  /** The "posted" and "not posted" views split whatever the other filters keep. */
  lemma StatusFiltersPartition(listings: seq<Listing>, postings: seq<Posting>, leads: seq<Lead>, f: SellerFilters)
    ensures var all := FilteredListings(listings, postings, leads, f.(status := AnyStatus));
      var posted := FilteredListings(listings, postings, leads, f.(status := PostedOnly));
      var notPosted := FilteredListings(listings, postings, leads, f.(status := NotPosted));
      multiset(posted) + multiset(notPosted) == multiset(all) && |posted| + |notPosted| == |all| &&
      (forall l :: l in posted ==> l.id in PostedIds(postings)) &&
      (forall l :: l in notPosted ==> l.id !in PostedIds(postings))
  {
    forall l | l in listings
      ensures (Keeper(f.(status := PostedOnly), postings, leads)(l) || Keeper(f.(status := NotPosted), postings, leads)(l))
        == Keeper(f.(status := AnyStatus), postings, leads)(l) &&
        !(Keeper(f.(status := PostedOnly), postings, leads)(l) && Keeper(f.(status := NotPosted), postings, leads)(l))
    {
    }
    FilterSplit(Keeper(f.(status := AnyStatus), postings, leads),
                Keeper(f.(status := PostedOnly), postings, leads),
                Keeper(f.(status := NotPosted), postings, leads),
                listings);
  }

  /** Two queries with the same search text keep the same listings for one listing. */
  lemma SameSearchSameKeep(l: Listing, postings: seq<Posting>, leads: seq<Lead>, f: SellerFilters, q: string)
    requires SearchText(q) == SearchText(f.q)
    ensures KeepListing(l, f.(q := q), postings, leads) == KeepListing(l, f, postings, leads)
  {
    var g := f.(q := q);
    assert TextMatches(l, g.q) == TextMatches(l, f.q) by { }
    assert g.typeFilter == f.typeFilter && g.cityFilter == f.cityFilter && g.status == f.status by { }
    assert g.targetFilter == f.targetFilter && g.channelFilter == f.channelFilter by { }
  }

  /** Only the search text of the query matters to the filtered list. */
  lemma SameSearchSameListings(listings: seq<Listing>, postings: seq<Posting>, leads: seq<Lead>, f: SellerFilters, q: string)
    requires SearchText(q) == SearchText(f.q)
    ensures FilteredListings(listings, postings, leads, f.(q := q)) == FilteredListings(listings, postings, leads, f)
  {
    forall l | l in listings ensures Keeper(f.(q := q), postings, leads)(l) == Keeper(f, postings, leads)(l) {
      SameSearchSameKeep(l, postings, leads, f, q);
    }
    FilterExt(Keeper(f.(q := q), postings, leads), Keeper(f, postings, leads), listings);
  }

  /** The search ignores case and leading or trailing blanks. */
  lemma SearchIgnoresCaseAndBlanks(listings: seq<Listing>, postings: seq<Posting>, leads: seq<Lead>, f: SellerFilters)
    ensures FilteredListings(listings, postings, leads, f.(q := Lower(f.q))) == FilteredListings(listings, postings, leads, f)
    ensures FilteredListings(listings, postings, leads, f.(q := Trim(f.q))) == FilteredListings(listings, postings, leads, f)
  {
    TrimLower(f.q);
    LowerIdempotent(Trim(f.q));
    TrimIdempotent(f.q);
    SameSearchSameListings(listings, postings, leads, f, Lower(f.q));
    SameSearchSameListings(listings, postings, leads, f, Trim(f.q));
  }

  /**
   * No store action sets a lead's channel, so with such leads the channel filter
   * keeps exactly the listings posted to that channel.
   */
  lemma ChannelFilterWithStoreLeads(listings: seq<Listing>, postings: seq<Posting>, leads: seq<Lead>, f: SellerFilters)
    requires f.channelFilter.Some?
    requires forall b :: b in leads ==> b.fields.channelId.None?
    ensures forall l :: l in FilteredListings(listings, postings, leads, f) ==>
      exists p :: p in postings && p.fields.listingId == l.id && p.fields.channelId == f.channelFilter.value
  {
  }

  /** `Array.from(new Set(s)).sort()`: the distinct strings of `s` in ascending order. */
  function SortedDistinct(s: seq<string>): (r: seq<string>)
    ensures forall i, j :: 0 <= i < j < |r| ==> Less(r[i], r[j])
    ensures forall x :: x in r <==> x in s
  {
    var d := Dedupe(s);
    var r := Sort(d);
    NoDuplicatesMultiset(d);
    assert forall x :: multiset(r)[x] == multiset(d)[x];
    NoDuplicatesMultiset(r);
    SortedDistinctIsStrict(r);
    assert forall x :: x in r <==> x in multiset(d);
    r
  }

  function Cities(listings: seq<Listing>): (r: seq<string>)
    ensures |r| == |listings| && forall i :: 0 <= i < |listings| ==> r[i] == listings[i].fields.city
  {
    Map((l: Listing) => l.fields.city, listings)
  }

  /** `uniqueCities`: every city of a listing once, sorted. */
  function UniqueCities(listings: seq<Listing>): (r: seq<string>)
    ensures forall i, j :: 0 <= i < j < |r| ==> Less(r[i], r[j])
    ensures forall c :: c in r <==> exists l :: l in listings && l.fields.city == c
  {
    var cs := Cities(listings);
    assert forall c :: c in cs <==> exists l :: l in listings && l.fields.city == c by {
      forall c ensures c in cs <==> exists l :: l in listings && l.fields.city == c {
        if exists l :: l in listings && l.fields.city == c {
          var l :| l in listings && l.fields.city == c;
          var i :| 0 <= i < |listings| && listings[i] == l;
          assert cs[i] == c;
        }
      }
    }
    SortedDistinct(cs)
  }

  /** `listings.flatMap(l => l.targets || [])`. */
  function AllTargets(listings: seq<Listing>): (r: seq<string>)
    ensures forall t :: t in r <==> exists l :: l in listings && t in l.fields.targets.GetOr([])
  {
    if listings == [] then []
    else listings[0].fields.targets.GetOr([]) + AllTargets(listings[1..])
  }

  /** `uniqueTargets`: every target segment named by some listing once, sorted. */
  function UniqueTargets(listings: seq<Listing>): (r: seq<string>)
    ensures forall i, j :: 0 <= i < j < |r| ==> Less(r[i], r[j])
    ensures forall t :: t in r <==> exists l :: l in listings && t in l.fields.targets.GetOr([])
  {
    SortedDistinct(AllTargets(listings))
  }

  /**
   * The selection after clicking `seg`: `new Set(cur)`, then `seg` deleted if it
   * was there and added at the end otherwise.
   */
  function ToggledSegments(cur: seq<string>, seg: string): (r: seq<string>)
    ensures NoDuplicates(r)
    ensures forall x :: x in r <==> (x in cur) != (x == seg)
    ensures seg in cur ==> Sublist(r, Dedupe(cur))
  {
    var d := Dedupe(cur);
    if seg in d then
      FilterKeepsNoDuplicates((x: string) => x != seg, d);
      FilterIsSublist((x: string) => x != seg, d);
      Filter((x: string) => x != seg, d)
    else d + [seg]
  }

  /** The click handler, building the insertion-ordered set one element at a time. */
  method ToggleSegment(cur: seq<string>, seg: string) returns (r: seq<string>)
    ensures r == ToggledSegments(cur, seg)
  {
    var members: seq<string> := [];
    var i := 0;
    while i < |cur|
      invariant 0 <= i <= |cur|
      invariant members == Dedupe(cur[..i])
    {
      DedupeSnoc(cur[..i], cur[i]);
      assert cur[..i + 1] == cur[..i] + [cur[i]];
      if cur[i] !in members {
        members := members + [cur[i]];
      }
      i := i + 1;
    }
    assert cur[..i] == cur;
    if seg in members {
      r := Filter((x: string) => x != seg, members);
    } else {
      r := members + [seg];
    }
  }

  /** Clicking a segment twice gives back the same selection, as a set. */
  lemma ToggleTwiceSameMembers(cur: seq<string>, seg: string)
    ensures forall x :: x in ToggledSegments(ToggledSegments(cur, seg), seg) <==> x in cur
  {
  }

  /** Selecting a new segment and deselecting it restores the exact selection. */
  lemma SelectThenDeselectRestores(cur: seq<string>, seg: string)
    requires NoDuplicates(cur) && seg !in cur
    ensures ToggledSegments(cur, seg) == cur + [seg]
    ensures ToggledSegments(cur + [seg], seg) == cur
  {
    DedupeOfDistinct(cur);
    var s := cur + [seg];
    assert NoDuplicates(s) by {
      forall i, j | 0 <= i < j < |s| ensures s[i] != s[j] {
        if j == |cur| {
          assert s[i] == cur[i];
        } else {
          assert s[i] == cur[i] && s[j] == cur[j];
        }
      }
    }
    DedupeOfDistinct(s);
    FilterAppend((x: string) => x != seg, cur, seg);
    FilterKeepsAll((x: string) => x != seg, cur);
  }
}
