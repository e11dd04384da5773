/**
 * Facts about the texts of the sales store's demo data: which product names
 * and cities the seller dashboard's search "fresh" finds.
 */
module DemoText {
  import opened Text

  /** A text lacking the letter f in both cases never matches the search "fresh". */
  lemma LacksFresh(s: string)
    requires 'f' !in s && 'F' !in s
    ensures !Includes(Lower(s), "fresh")
  {
    LowerLacksLetter(s, 'f');
    MissingCharNotIncluded(Lower(s), "fresh", 'f');
  }

  /** The demo tomatoes and milk mention "fresh" in their product names. */
  lemma DemoProductsWithFresh()
    ensures Includes(Lower("Fresh Tomatoes"), "fresh") && Includes(Lower("Dairy Milk (fresh)"), "fresh")
  {
    LowerIs("Fresh", "fresh");
    LowerIs("fresh", "fresh");
    LowerKeepsOccurrence("Fresh Tomatoes", "Fresh", 0);
    LowerKeepsOccurrence("Dairy Milk (fresh)", "fresh", 12);
  }

  /** The oil listing's product and city do not mention "fresh". */
  lemma OilAndTunisLackFresh()
    ensures !Includes(Lower("Olive Oil (extra virgin)"), "fresh") && !Includes(Lower("Tunis"), "fresh")
  {
    LacksFresh("Olive Oil (extra virgin)");
    LacksFresh("Tunis");
  }

  /** The wheat listing's product and city do not mention "fresh". */
  lemma WheatAndKairouanLackFresh()
    ensures !Includes(Lower("Durum Wheat"), "fresh") && !Includes(Lower("Kairouan"), "fresh")
  {
    LacksFresh("Durum Wheat");
    LacksFresh("Kairouan");
  }

  /** The calves listing's product and city do not mention "fresh". */
  lemma CalvesAndSidiBouzidLackFresh()
    ensures !Includes(Lower("Calves (6-8 months)"), "fresh") && !Includes(Lower("Sidi Bouzid"), "fresh")
  {
    LacksFresh("Calves (6-8 months)");
    LacksFresh("Sidi Bouzid");
  }
}
