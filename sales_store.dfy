/**
 * The seller-side sales store: five in-memory tables (listings, buyer leads,
 * offers, broadcast channels, postings) and the actions that replace them.
 *
 * Every record is a draft spread into `{ ...draft, id, createdAt }`, so a record
 * here is the draft `fields` plus the two store-assigned members. Each action
 * `set(s => ...)` is a pure function on `Tables`; the `Store` class holds the
 * five fields and its methods are proved to apply exactly those functions.
 * Timestamps (`new Date().toISOString()`) are the parameter `now`.
 */
module SalesStore {
  import opened Wrappers
  import opened Lists

  datatype Record<F> = Record(id: int, createdAt: string, fields: F)

  datatype ItemType = Crop | Animal | OtherItem
  datatype PriceUnit = PerKg | PerTon | PerLiter | Total
  datatype QtyUnit = Kg | Ton | Liter | Head | Unit

  /** The string each price unit is stored as. */
  function PriceUnitName(u: PriceUnit): string {
    match u
    case PerKg => "per_kg"
    case PerTon => "per_ton"
    case PerLiter => "per_liter"
    case Total => "total"
  }

  /** The string each quantity unit is stored as. */
  function QtyUnitName(u: QtyUnit): string {
    match u
    case Kg => "kg"
    case Ton => "ton"
    case Liter => "L"
    case Head => "head"
    case Unit => "unit"
  }

  /** `targets` is not declared on the listing type, but the add form spreads it in. */
  datatype ListingFields = ListingFields(
    itemType: ItemType, product: string, quantity: real, qtyUnit: QtyUnit,
    priceMin: real, priceMax: real, priceUnit: PriceUnit,
    city: string, market: string, days: string,
    notes: Option<string>, targets: Option<seq<string>>)

  datatype LeadStatus = Hot | Warm | New

  /** `channelId` is read by the seller page's channel filter; no store action sets it. */
  datatype LeadFields = LeadFields(
    name: string, region: string, product: string, message: Option<string>,
    phone: string, email: Option<string>, source: Option<string>,
    sourceUrl: Option<string>, status: LeadStatus, channelId: Option<int>)

  datatype OfferStatus = OfferNew | Accepted | Declined

  datatype OfferFields = OfferFields(
    market: string, city: string, product: string, price: real,
    priceUnit: PriceUnit, buyer: string, phone: Option<string>,
    email: Option<string>, status: OfferStatus)

  datatype ChannelType = Facebook | WhatsApp | Telegram | SoukTN | Instagram

  datatype ChannelFields = ChannelFields(
    name: string, kind: ChannelType, url: Option<string>, enabled: bool)

  datatype PostingStatus = Scheduled | Posted | Failed

  datatype PostingFields = PostingFields(
    listingId: int, channelId: int, status: PostingStatus, note: Option<string>)

  type Listing = Record<ListingFields>
  type Lead = Record<LeadFields>
  type Offer = Record<OfferFields>
  type Channel = Record<ChannelFields>
  type Posting = Record<PostingFields>

  function Ids<F>(rs: seq<Record<F>>): (r: seq<int>)
    ensures |r| == |rs| && forall i :: 0 <= i < |rs| ==> r[i] == rs[i].id
  {
    Map((x: Record<F>) => x.id, rs)
  }

  /** `Math.max(0, ...ids)`. */
  function MaxId(ids: seq<int>): (m: int)
    ensures m >= 0
    ensures forall i :: 0 <= i < |ids| ==> ids[i] <= m
    ensures m == 0 || m in ids
  {
    if ids == [] then 0
    else
      var rest := MaxId(ids[1..]);
      if ids[0] > rest then ids[0] else rest
  }

  /** The id the store gives the next record of a table: one above the largest id, at least 1. */
  function NextId<F>(rs: seq<Record<F>>): (n: int)
    ensures n >= 1
    ensures forall x :: x in rs ==> x.id < n
    ensures n == 1 || exists x :: x in rs && x.id == n - 1
  {
    var m := MaxId(Ids(rs));
    assert forall x :: x in rs ==> x.id <= m by {
      forall x | x in rs ensures x.id <= m {
        var i :| 0 <= i < |rs| && rs[i] == x;
        assert Ids(rs)[i] == x.id;
      }
    }
    assert m != 0 ==> exists x :: x in rs && x.id == m by {
      if m != 0 {
        var i :| 0 <= i < |rs| && Ids(rs)[i] == m;
        assert rs[i] in rs;
      }
    }
    m + 1
  }

  ghost predicate UniqueIds<F>(rs: seq<Record<F>>) {
    forall i, j :: 0 <= i < j < |rs| ==> rs[i].id != rs[j].id
  }

  /** Dropping records never creates a clash of ids. */
  lemma {:induction false} FilterKeepsUniqueIds<F(!new)>(p: Record<F> -> bool, rs: seq<Record<F>>)
    ensures UniqueIds(rs) ==> UniqueIds(Filter(p, rs))
  {
    if rs != [] && UniqueIds(rs) {
      FilterKeepsUniqueIds(p, rs[1..]);
      var t := Filter(p, rs[1..]);
      if p(rs[0]) {
        var r := Filter(p, rs);
        assert r == [rs[0]] + t;
        forall i, j | 0 <= i < j < |r| ensures r[i].id != r[j].id {
          if i == 0 {
            assert r[j] == t[j - 1] && t[j - 1] in rs[1..];
          } else {
            assert r[i] == t[i - 1] && r[j] == t[j - 1];
          }
        }
      }
    }
  }

  /** Whether `listings.find(l => l.id === id)` finds a listing. */
  predicate HasListing(listings: seq<Listing>, id: int) {
    exists l :: l in listings && l.id == id
  }

  /** Whether a broadcast with these requested ids goes to channel `c`. */
  predicate Selected(c: Channel, channelIds: Option<seq<int>>) {
    if channelIds.Some? && channelIds.value != [] then c.id in channelIds.value else c.fields.enabled
  }

  /**
   * The channels a broadcast goes to: the requested ones when a non-empty id list
   * is given (in table order), otherwise every enabled channel.
   */
  function BroadcastTargets(channels: seq<Channel>, channelIds: Option<seq<int>>): (r: seq<Channel>)
    ensures Sublist(r, channels)
    ensures channelIds.Some? && channelIds.value != [] ==>
      forall c :: c in r <==> c in channels && c.id in channelIds.value
    ensures channelIds.None? || channelIds.value == [] ==>
      forall c :: c in r <==> c in channels && c.fields.enabled
    ensures forall c :: multiset(r)[c] == if Selected(c, channelIds) then multiset(channels)[c] else 0
  {
    if channelIds.Some? && channelIds.value != [] then
      var p := (c: Channel) => c.id in channelIds.value;
      FilterIsSublist(p, channels);
      FilterCounts(p, channels);
      Filter(p, channels)
    else
      var p := (c: Channel) => c.fields.enabled;
      FilterIsSublist(p, channels);
      FilterCounts(p, channels);
      Filter(p, channels)
  }

  /** One posting per target, in target order, numbered from `startId + 1` upwards. */
  function NewPostings(targets: seq<Channel>, listingId: int, startId: int, now: string): (r: seq<Posting>)
    ensures |r| == |targets|
    ensures forall i :: 0 <= i < |r| ==>
      r[i].id == startId + i + 1 && r[i].createdAt == now &&
      r[i].fields == PostingFields(listingId, targets[i].id, Posted, Some("Posted to " + targets[i].fields.name))
    ensures forall i, j :: 0 <= i < j < |r| ==> startId < r[i].id < r[j].id
  {
    seq(|targets|, i requires 0 <= i < |targets| =>
      Record(startId + i + 1, now,
             PostingFields(listingId, targets[i].id, Posted, Some("Posted to " + targets[i].fields.name))))
  }

  datatype Tables = Tables(
    listings: seq<Listing>, leads: seq<Lead>, offers: seq<Offer>,
    channels: seq<Channel>, postings: seq<Posting>)
  {
    /** No two records of one table share an id. */
    ghost predicate Valid() {
      UniqueIds(listings) && UniqueIds(leads) && UniqueIds(offers) &&
      UniqueIds(channels) && UniqueIds(postings)
    }

    /** `addListing`: the new listing goes last, with the id one above the largest. */
    function AddListing(l: ListingFields, now: string): (r: Tables)
      ensures |r.listings| == |listings| + 1 && r.listings[..|listings|] == listings
      ensures r.listings[|listings|].fields == l && r.listings[|listings|].createdAt == now
      ensures r.listings[|listings|].id == NextId(listings) >= 1
      ensures forall x :: x in listings ==> x.id < r.listings[|listings|].id
      ensures r.(listings := listings) == this
      ensures Valid() ==> r.Valid()
    {
      this.(listings := listings + [Record(NextId(listings), now, l)])
    }

    /** `removeListing`: keeps exactly the listings with another id, in order. */
    function RemoveListing(id: int): (r: Tables)
      ensures Sublist(r.listings, listings)
      ensures forall x :: x in r.listings <==> x in listings && x.id != id
      ensures forall x :: multiset(r.listings)[x] == if x.id != id then multiset(listings)[x] else 0
      ensures r.(listings := listings) == this
      ensures Valid() ==> r.Valid()
    {
      var keep := (x: Listing) => x.id != id;
      FilterIsSublist(keep, listings);
      FilterCounts(keep, listings);
      FilterKeepsUniqueIds(keep, listings);
      this.(listings := Filter(keep, listings))
    }

    /** `addLead`: the new lead goes first, with the id one above the largest. */
    function AddLead(lead: LeadFields, now: string): (r: Tables)
      ensures |r.leads| == |leads| + 1 && r.leads[1..] == leads
      ensures r.leads[0].fields == lead && r.leads[0].createdAt == now
      ensures r.leads[0].id == NextId(leads) >= 1
      ensures forall x :: x in leads ==> x.id < r.leads[0].id
      ensures r.(leads := leads) == this
      ensures Valid() ==> r.Valid()
    {
      this.(leads := [Record(NextId(leads), now, lead)] + leads)
    }

    /** `addOffer`: the new offer goes first, with the id one above the largest. */
    function AddOffer(offer: OfferFields, now: string): (r: Tables)
      ensures |r.offers| == |offers| + 1 && r.offers[1..] == offers
      ensures r.offers[0].fields == offer && r.offers[0].createdAt == now
      ensures r.offers[0].id == NextId(offers) >= 1
      ensures forall x :: x in offers ==> x.id < r.offers[0].id
      ensures r.(offers := offers) == this
      ensures Valid() ==> r.Valid()
    {
      this.(offers := [Record(NextId(offers), now, offer)] + offers)
    }

    /** `addChannel`: the new channel goes last, with the id one above the largest. */
    function AddChannel(c: ChannelFields, now: string): (r: Tables)
      ensures |r.channels| == |channels| + 1 && r.channels[..|channels|] == channels
      ensures r.channels[|channels|].fields == c && r.channels[|channels|].createdAt == now
      ensures r.channels[|channels|].id == NextId(channels) >= 1
      ensures forall x :: x in channels ==> x.id < r.channels[|channels|].id
      ensures r.(channels := channels) == this
      ensures Valid() ==> r.Valid()
    {
      this.(channels := channels + [Record(NextId(channels), now, c)])
    }

    /** `toggleChannel`: sets `enabled` on the channels with that id; nothing else moves. */
    function ToggleChannel(id: int, enabled: bool): (r: Tables)
      ensures |r.channels| == |channels|
      ensures forall i :: 0 <= i < |channels| ==>
        r.channels[i].id == channels[i].id && r.channels[i].createdAt == channels[i].createdAt &&
        r.channels[i].fields.(enabled := channels[i].fields.enabled) == channels[i].fields &&
        r.channels[i].fields.enabled == (if channels[i].id == id then enabled else channels[i].fields.enabled)
      ensures r.(channels := channels) == this
      ensures Valid() ==> r.Valid()
    {
      this.(channels := seq(|channels|, i requires 0 <= i < |channels| =>
        if channels[i].id == id then channels[i].(fields := channels[i].fields.(enabled := enabled))
        else channels[i]))
    }

    /**
     * The posting part of `broadcastListing`: nothing happens for an unknown listing
     * or an empty target list; otherwise one posting per target is put in front.
     */
    function Broadcast(listingId: int, channelIds: Option<seq<int>>, now: string): (r: Tables)
      ensures !HasListing(listings, listingId) || BroadcastTargets(channels, channelIds) == [] ==> r == this
      ensures HasListing(listings, listingId) && BroadcastTargets(channels, channelIds) != [] ==>
        r.postings == NewPostings(BroadcastTargets(channels, channelIds), listingId, MaxId(Ids(postings)), now) + postings
      ensures r.(postings := postings) == this
      ensures Valid() ==> r.Valid()
    {
      var targets := BroadcastTargets(channels, channelIds);
      if !HasListing(listings, listingId) || targets == [] then this
      else
        var startId := MaxId(Ids(postings));
        var added := NewPostings(targets, listingId, startId, now);
        var next := added + postings;
        assert UniqueIds(postings) ==> UniqueIds(next) by {
          if UniqueIds(postings) {
            forall i, j | 0 <= i < j < |next| ensures next[i].id != next[j].id {
              if j >= |added| {
                assert next[j] == postings[j - |added|] && Ids(postings)[j - |added|] == next[j].id;
              }
            }
          }
        }
        this.(postings := next)
    }

    /**
     * `seedDemoData`: when listings, leads and offers are all empty, installs the demo
     * tables (channels are replaced too, postings emptied); otherwise changes nothing.
     */
    function SeedDemoData(now: string): (r: Tables)
      ensures listings != [] || leads != [] || offers != [] ==> r == this
      ensures listings == [] && leads == [] && offers == [] ==>
        |r.listings| == 5 && |r.leads| == 3 && |r.offers| == 4 && |r.channels| == 4 &&
        r.postings == [] && r.Valid()
      ensures listings == [] && leads == [] && offers == [] ==>
        r == Tables(DemoListings(now), DemoLeads(now), DemoOffers(now), DemoChannels(now), [])
    {
      if listings != [] || leads != [] || offers != [] then this
      else
        DemoDataValid(now);
        Tables(DemoListings(now), DemoLeads(now), DemoOffers(now), DemoChannels(now), [])
    }
  }

  /** Removing an id that no listing has leaves the store as it was. */
  lemma RemoveAbsentIsNoOp(s: Tables, id: int)
    requires forall x :: x in s.listings ==> x.id != id
    ensures s.RemoveListing(id) == s
  {
    FilterKeepsAll((x: Listing) => x.id != id, s.listings);
  }

  /** Seeding twice is seeding once, whatever the second clock reading. */
  lemma SeedIdempotent(s: Tables, now: string, later: string)
    ensures s.SeedDemoData(now).SeedDemoData(later) == s.SeedDemoData(now)
  {
  }

  /** Channels are not part of the seeding guard: existing channels are overwritten. */
  lemma SeedReplacesChannels(s: Tables, now: string)
    requires s.listings == [] && s.leads == [] && s.offers == []
    ensures s.SeedDemoData(now).channels == DemoChannels(now)
    ensures Ids(s.SeedDemoData(now).channels) == [1, 2, 3, 4]
  {
  }

  /** Toggling a channel back to its previous value restores every channel. */
  lemma ToggleChannelBack(s: Tables, id: int, enabled: bool)
    requires forall c :: c in s.channels && c.id == id ==> c.fields.enabled == enabled
    ensures s.ToggleChannel(id, !enabled).ToggleChannel(id, enabled) == s
  {
    var r := s.ToggleChannel(id, !enabled).ToggleChannel(id, enabled);
    assert r.channels == s.channels by {
      forall i | 0 <= i < |s.channels| ensures r.channels[i] == s.channels[i] {
        if s.channels[i].id == id {
          assert s.channels[i] in s.channels;
        }
      }
    }
  }

  /** A broadcast's postings all refer to the listing and to distinct requested channels. */
  lemma BroadcastPostsToTargets(s: Tables, listingId: int, channelIds: Option<seq<int>>, now: string)
    ensures var r := s.Broadcast(listingId, channelIds, now);
      forall p :: p in r.postings && p !in s.postings ==>
        p.fields.listingId == listingId && p.fields.status == Posted &&
        exists c :: c in s.channels && c.id == p.fields.channelId && Selected(c, channelIds)
  {
    var r := s.Broadcast(listingId, channelIds, now);
    var targets := BroadcastTargets(s.channels, channelIds);
    if HasListing(s.listings, listingId) && targets != [] {
      var added := NewPostings(targets, listingId, MaxId(Ids(s.postings)), now);
      forall p | p in r.postings && p !in s.postings
        ensures p.fields.listingId == listingId && p.fields.status == Posted
        ensures exists c :: c in s.channels && c.id == p.fields.channelId && Selected(c, channelIds)
      {
        assert p in added;
        var i :| 0 <= i < |added| && added[i] == p;
        assert targets[i] in targets;
      }
    }
  }

  /** Records numbered 1, 2, 3, ... in order have distinct ids. */
  lemma CountedIdsUnique<F>(rs: seq<Record<F>>)
    requires forall i :: 0 <= i < |rs| ==> rs[i].id == i + 1
    ensures UniqueIds(rs)
  {
  }

  /** The demo tables have the sizes the seed promises and distinct ids in every table. */
  lemma DemoDataValid(now: string)
    ensures var t := Tables(DemoListings(now), DemoLeads(now), DemoOffers(now), DemoChannels(now), []);
      |t.listings| == 5 && |t.leads| == 3 && |t.offers| == 4 && |t.channels| == 4 && t.Valid()
  {
    var ls, bs, os, cs := DemoListings(now), DemoLeads(now), DemoOffers(now), DemoChannels(now);
    assert |Ids(ls)| == 5 && |Ids(bs)| == 3 && |Ids(os)| == 4 && |Ids(cs)| == 4;
    CountedIdsUnique(ls);
    CountedIdsUnique(bs);
    CountedIdsUnique(os);
    CountedIdsUnique(cs);
  }

  /** The ids, products and cities of the demo listings, in table order. */
  lemma DemoListingProductsAndCities(now: string)
    ensures var ls := DemoListings(now);
      && |ls| == 5
      && ls[0].id == 1 && ls[1].id == 2 && ls[2].id == 3 && ls[3].id == 4 && ls[4].id == 5
      && ls[0].fields.product == "Fresh Tomatoes" && ls[0].fields.city == "Sousse"
      && ls[1].fields.product == "Olive Oil (extra virgin)" && ls[1].fields.city == "Tunis"
      && ls[2].fields.product == "Dairy Milk (fresh)" && ls[2].fields.city == "Nabeul"
      && ls[3].fields.product == "Durum Wheat" && ls[3].fields.city == "Kairouan"
      && ls[4].fields.product == "Calves (6-8 months)" && ls[4].fields.city == "Sidi Bouzid"
  {
  }

  /** Each demo offer is for the demo listing with the same id: same product, city and market. */
  lemma DemoOffersMatchListings(now: string)
    ensures var ls, os := DemoListings(now), DemoOffers(now);
      |os| == 4 <= |ls| &&
      forall i :: 0 <= i < |os| ==>
        os[i].id == ls[i].id && os[i].fields.product == ls[i].fields.product &&
        os[i].fields.city == ls[i].fields.city && os[i].fields.market == ls[i].fields.market
  {
    var ls, os := DemoListings(now), DemoOffers(now);
    assert os[0].fields.product == ls[0].fields.product && os[0].fields.city == ls[0].fields.city;
    assert os[1].fields.product == ls[1].fields.product && os[1].fields.city == ls[1].fields.city;
    assert os[2].fields.product == ls[2].fields.product && os[2].fields.city == ls[2].fields.city;
    assert os[3].fields.product == ls[3].fields.product && os[3].fields.city == ls[3].fields.city;
  }

  function DemoListings(now: string): (r: seq<Listing>)
    ensures Ids(r) == [1, 2, 3, 4, 5]
  {
    [ Record(1, now, ListingFields(Crop, "Fresh Tomatoes", 50.0, Kg, 3.0, 3.8, PerKg,
        "Sousse", "Souk El Jumaa", "Fri • Sun", Some("Pick-up 7-11 AM"), None)),
      Record(2, now, ListingFields(OtherItem, "Olive Oil (extra virgin)", 20.0, Liter, 40.0, 48.0, PerLiter,
        "Tunis", "Marché Central", "Sat", Some("Bring own containers"), None)),
      Record(3, now, ListingFields(OtherItem, "Dairy Milk (fresh)", 80.0, Liter, 1.8, 2.2, PerLiter,
        "Nabeul", "Souk Nabeul", "Daily", Some("Morning only"), None)),
      Record(4, now, ListingFields(Crop, "Durum Wheat", 200.0, Kg, 1.0, 1.3, PerKg,
        "Kairouan", "Souk Kairouan", "Thu", None, None)),
      Record(5, now, ListingFields(Animal, "Calves (6-8 months)", 5.0, Head, 900.0, 1100.0, Total,
        "Sidi Bouzid", "Weekly Livestock Market", "Mon", None, None)) ]
  }

  function DemoLeads(now: string): (r: seq<Lead>)
    ensures Ids(r) == [1, 2, 3]
  {
    [ Record(1, now, LeadFields("Mohamed K.", "Sousse", "Olive Oil", Some("Interested in bulk order"),
        "+216 22 111 222", Some("mohamedk@example.com"), Some("Facebook Group • Tunisia Agri"),
        Some("https://facebook.com/groups/tunisia-agri"), Hot, None)),
      Record(2, now, LeadFields("Fatima B.", "Nabeul", "Dairy Milk", Some("Weekly delivery possible?"),
        "+216 23 333 444", Some("fatimab@example.com"), Some("WhatsApp • Local Buyer Circle"),
        None, Warm, None)),
      Record(3, now, LeadFields("Ali T.", "Tunis", "Fresh Tomatoes", Some("Can you deliver to Tunis?"),
        "+216 55 555 555", Some("ali.t@example.com"), Some("SoukTN Marketplace"),
        Some("https://souk.tn"), New, None)) ]
  }

  function DemoOffers(now: string): (r: seq<Offer>)
    ensures Ids(r) == [1, 2, 3, 4]
  {
    [ Record(1, now, OfferFields("Souk El Jumaa", "Sousse", "Fresh Tomatoes", 3.3, PerKg,
        "Karim A.", Some("+216 21 222 333"), None, OfferNew)),
      Record(2, now, OfferFields("Marché Central", "Tunis", "Olive Oil (extra virgin)", 44.0, PerLiter,
        "Boutique La Huile", None, Some("contact@huile.tn"), Accepted)),
      Record(3, now, OfferFields("Souk Nabeul", "Nabeul", "Dairy Milk (fresh)", 1.9, PerLiter,
        "Amal D.", Some("+216 97 888 777"), None, OfferNew)),
      Record(4, now, OfferFields("Souk Kairouan", "Kairouan", "Durum Wheat", 1.15, PerKg,
        "GrainCo", None, Some("buy@grainco.tn"), Declined)) ]
  }

  function DemoChannels(now: string): (r: seq<Channel>)
    ensures Ids(r) == [1, 2, 3, 4]
  {
    [ Record(1, now, ChannelFields("Tunisia Agri (Facebook Group)", Facebook,
        Some("https://facebook.com/groups/tunisia-agri"), true)),
      Record(2, now, ChannelFields("Local Buyer Circle (WhatsApp)", WhatsApp, None, true)),
      Record(3, now, ChannelFields("Agri Deals TN (Telegram)", Telegram, None, false)),
      Record(4, now, ChannelFields("SoukTN Marketplace", SoukTN, Some("https://souk.tn"), true)) ]
  }

  /** The store object: five tables that each action replaces. */
  class Store {
    var listings: seq<Listing>
    var leads: seq<Lead>
    var offers: seq<Offer>
    var channels: seq<Channel>
    var postings: seq<Posting>

    function State(): Tables
      reads this
    {
      Tables(listings, leads, offers, channels, postings)
    }

    /** The store starts from whatever persisted tables were loaded (empty when none). */
    constructor(loaded: Tables)
      ensures State() == loaded
    {
      listings, leads, offers, channels, postings :=
        loaded.listings, loaded.leads, loaded.offers, loaded.channels, loaded.postings;
    }

    method AddListing(l: ListingFields, now: string)
      modifies this
      ensures State() == old(State()).AddListing(l, now)
    {
      var id := NextId(listings);
      listings := listings + [Record(id, now, l)];
    }

    method RemoveListing(id: int)
      modifies this
      ensures State() == old(State()).RemoveListing(id)
    {
      listings := Filter((x: Listing) => x.id != id, listings);
    }

    method AddLead(lead: LeadFields, now: string)
      modifies this
      ensures State() == old(State()).AddLead(lead, now)
    {
      var id := NextId(leads);
      leads := [Record(id, now, lead)] + leads;
    }

    method AddOffer(offer: OfferFields, now: string)
      modifies this
      ensures State() == old(State()).AddOffer(offer, now)
    {
      var id := NextId(offers);
      offers := [Record(id, now, offer)] + offers;
    }

    method AddChannel(c: ChannelFields, now: string)
      modifies this
      ensures State() == old(State()).AddChannel(c, now)
    {
      var id := NextId(channels);
      channels := channels + [Record(id, now, c)];
    }

    method ToggleChannel(id: int, enabled: bool)
      modifies this
      ensures State() == old(State()).ToggleChannel(id, enabled)
    {
      channels := State().ToggleChannel(id, enabled).channels;
    }

    /** Reads the tables, then writes the postings only if there is something to post. */
    method BroadcastListing(listingId: int, channelIds: Option<seq<int>>, now: string)
      modifies this
      ensures State() == old(State()).Broadcast(listingId, channelIds, now)
    {
      if !HasListing(listings, listingId) {
        return;
      }
      var targets := BroadcastTargets(channels, channelIds);
      if targets == [] {
        return;
      }
      var startId := MaxId(Ids(postings));
      postings := NewPostings(targets, listingId, startId, now) + postings;
    }

    method SeedDemoData(now: string)
      modifies this
      ensures State() == old(State()).SeedDemoData(now)
    {
      if listings != [] || leads != [] || offers != [] {
        return;
      }
      listings, leads, offers, channels, postings :=
        DemoListings(now), DemoLeads(now), DemoOffers(now), DemoChannels(now), [];
    }
  }
}
