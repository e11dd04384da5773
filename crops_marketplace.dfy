/**
 * The public crops marketplace page: a fixed list of offers, a search box
 * that looks in product, market and seller, and city and category pickers.
 */
module CropsMarketplace {
  import opened Wrappers
  import opened Lists
  import opened Text

  datatype CropListing = CropListing(
    id: int, product: string, category: string, quantity: string, unitPrice: string,
    city: string, market: string, days: string, seller: string, phone: string,
    email: Option<string>, source: Option<string>, sourceUrl: Option<string>)

  const SeedListings: seq<CropListing> := [
    CropListing(1, "Fresh Tomatoes", "Vegetables", "50 kg", "3.5 TND/kg", "Sousse", "Souk El Jumaa",
      "Fri • Sun", "Ahmed B.", "+216 22 111 222", Some("ahmed@example.com"),
      Some("Facebook Group • Tunisia Agri"), Some("https://facebook.com/groups/tunisia-agri")),
    CropListing(2, "Olive Oil (extra virgin)", "Oil", "20 L", "45 TND/L", "Tunis", "Marché Central",
      "Sat", "Sami O.", "+216 23 333 444", Some("sami.o@example.com"),
      Some("SoukTN Marketplace"), Some("https://souk.tn")),
    CropListing(3, "Dairy Milk (fresh)", "Dairy", "80 L", "2 TND/L", "Nabeul", "Souk Nabeul",
      "Daily", "Fatima L.", "+216 55 555 555", Some("fatima@example.com"),
      Some("WhatsApp • Local Buyer Circle"), None),
    CropListing(4, "Durum Wheat", "Grains", "200 kg", "1.2 TND/kg", "Kairouan", "Souk Kairouan",
      "Thu", "Youssef M.", "+216 29 777 999", None, None, None),
    CropListing(5, "Oranges (Maltaise)", "Fruits", "120 kg", "2.8 TND/kg", "Nabeul", "Souk Nabeul",
      "Wed • Sat", "Rim T.", "+216 98 101 202", None, None, None)
  ]

  /** The query, already lower-cased, is empty or occurs in product, market or seller. */
  predicate QueryMatches(l: CropListing, q: string) {
    q == [] || Includes(Lower(l.product), q) || Includes(Lower(l.market), q) || Includes(Lower(l.seller), q)
  }

  /** All three pickers at once; `"all"` switches a picker off. */
  predicate Matches(l: CropListing, query: string, city: string, category: string) {
    && QueryMatches(l, Lower(query))
    && (city == "all" || l.city == city)
    && (category == "all" || l.category == category)
  }

  /** The filter callback of `filtered`. */
  function Matcher(query: string, city: string, category: string): CropListing -> bool {
    (l: CropListing) => Matches(l, query, city, category)
  }

  /** `filtered`: the listings every picker accepts, in their original order. */
  function Filtered(listings: seq<CropListing>, query: string, city: string, category: string): (r: seq<CropListing>)
    ensures Sublist(r, listings)
    ensures forall l :: l in r <==> l in listings && Matches(l, query, city, category)
    ensures forall l :: multiset(r)[l] == if Matches(l, query, city, category) then multiset(listings)[l] else 0
    ensures city != "all" ==> forall l :: l in r ==> l.city == city
    ensures category != "all" ==> forall l :: l in r ==> l.category == category
  {
    FilterIsSublist(Matcher(query, city, category), listings);
    FilterCounts(Matcher(query, city, category), listings);
    Filter(Matcher(query, city, category), listings)
  }

  /** An empty query with both pickers on "all" shows every listing. */
  lemma DefaultsShowAll(listings: seq<CropListing>)
    ensures Filtered(listings, "", "all", "all") == listings
  {
    assert Lower("") == [];
    FilterKeepsAll(Matcher("", "all", "all"), listings);
  }

  /** The search does not depend on the letter case of the query. */
  lemma QueryIgnoresCase(listings: seq<CropListing>, query: string, city: string, category: string)
    ensures Filtered(listings, Lower(query), city, category) == Filtered(listings, query, city, category)
  {
    LowerIdempotent(query);
    forall l | l in listings
      ensures Matcher(Lower(query), city, category)(l) == Matcher(query, city, category)(l)
    {
    }
    FilterExt(Matcher(Lower(query), city, category), Matcher(query, city, category), listings);
  }

  /** The query is not trimmed: blanks around it are part of what must occur. */
  lemma QueryIsNotTrimmed()
    ensures QueryMatches(SeedListings[3], Lower("Durum Wheat"))
    ensures !QueryMatches(SeedListings[3], Lower("  Durum Wheat  "))
  {
    assert Lower("Durum Wheat") == "durum wheat";
    var q := Lower("  Durum Wheat  ");
    assert |q| == 15;
    LongerNotIncluded(Lower("Durum Wheat"), q);
    LongerNotIncluded(Lower("Souk Kairouan"), q);
    LongerNotIncluded(Lower("Youssef M."), q);
  }

  function CityColumn(listings: seq<CropListing>): (r: seq<string>)
    ensures |r| == |listings| && forall i :: 0 <= i < |listings| ==> r[i] == listings[i].city
  {
    Map((l: CropListing) => l.city, listings)
  }

  /** `cities`: "all", then each city once. */
  function Cities(listings: seq<CropListing>): (r: seq<string>)
    ensures r != [] && r[0] == "all"
    ensures NoDuplicates(r[1..])
    ensures forall c :: c in r[1..] <==> exists l :: l in listings && l.city == c
  {
    var cs := CityColumn(listings);
    assert forall c :: c in cs <==> exists l :: l in listings && l.city == c by {
      forall c ensures c in cs <==> exists l :: l in listings && l.city == c {
        if exists l :: l in listings && l.city == c {
          var l :| l in listings && l.city == c;
          var i :| 0 <= i < |listings| && listings[i] == l;
          assert cs[i] == c;
        }
      }
    }
    var r := ["all"] + Dedupe(cs);
    assert r[1..] == Dedupe(cs);
    r
  }

  /** The cities after "all" appear in the order of their first listing. */
  lemma CitiesInFirstAppearanceOrder(listings: seq<CropListing>)
    ensures var r := Cities(listings); var cs := CityColumn(listings);
      forall i, j :: 1 <= i < j < |r| ==> r[i] in cs && r[j] in cs && IndexOf(cs, r[i]) < IndexOf(cs, r[j])
  {
    var cs := CityColumn(listings);
    DedupeFirstAppearance(cs);
    var r := Cities(listings);
    assert r[1..] == Dedupe(cs);
    forall i, j | 1 <= i < j < |r| ensures r[i] in cs && r[j] in cs && IndexOf(cs, r[i]) < IndexOf(cs, r[j]) {
      assert r[i] == Dedupe(cs)[i - 1] && r[j] == Dedupe(cs)[j - 1];
    }
  }

  /** The city column of the page's own data. */
  lemma SeedCityColumn()
    ensures CityColumn(SeedListings) == ["Sousse", "Tunis", "Nabeul", "Kairouan", "Nabeul"]
  {
  }

  /** Deduplicating that column drops the second "Nabeul" only. */
  lemma SeedColumnDeduped()
    ensures Dedupe(["Sousse", "Tunis", "Nabeul", "Kairouan", "Nabeul"]) == ["Sousse", "Tunis", "Nabeul", "Kairouan"]
  {
    var firsts := ["Sousse", "Tunis", "Nabeul", "Kairouan"];
    assert NoDuplicates(firsts) by {
      forall i, j | 0 <= i < j < |firsts| ensures firsts[i] != firsts[j] {
        assert firsts[i][0] != firsts[j][0];
      }
    }
    DedupeOfDistinct(firsts);
    assert firsts[2] == "Nabeul";
    DedupeSnoc(firsts, "Nabeul");
    assert firsts + ["Nabeul"] == ["Sousse", "Tunis", "Nabeul", "Kairouan", "Nabeul"];
  }

  /** On the page's own data the city picker offers all, Sousse, Tunis, Nabeul, Kairouan. */
  lemma SeedCities()
    ensures Cities(SeedListings) == ["all", "Sousse", "Tunis", "Nabeul", "Kairouan"]
  {
    SeedCityColumn();
    SeedColumnDeduped();
  }
}
