/**
 * The backend's seed dataset and its seed-if-empty start-up step
 * (backend/seed.py). The database is abstracted as a map from collection
 * name to the ordered documents of that collection; a name that is not in
 * the map is a collection with no documents.
 */
module Seed {
  import opened Content

  const HeroChef := "https://images.unsplash.com/photo-1572552635104-daf938e0aa1f"
  const HeroFire := "https://images.unsplash.com/photo-1622880833523-7cf1c0bd4296"
  const PizzaClose1 := "https://images.unsplash.com/photo-1574071318508-1cdbab80d002"
  const PizzaClose2 := "https://images.unsplash.com/photo-1598023696416-0193a0bcd302"
  const GarlicBread := "https://images.unsplash.com/photo-1573140401552-3fab0b24306f"
  const Tiramisu := "https://images.unsplash.com/photo-1571877227200-a0d98ea607e9"

  /** uuid4 is drawn once per menu item, chef's-choice item and review: 10 + 3 + 6. */
  const SeedIdCount := 19

  /** The seven collections of the seed, in the order they are filled. */
  datatype SeedData = SeedData(
    menuItems: seq<MenuItem>,
    chefsChoice: seq<MenuItem>,
    reviews: seq<Review>,
    timeline: seq<TimelineEntry>,
    special: Special,
    video: Video,
    assets: Assets)

  /** The ten menu items; `ids` stands for their successive uuid4 draws. */
  function SeedMenu(ids: seq<string>): seq<MenuItem>
    requires |ids| == 10
  {
    [ MenuItem(ids[0], "Margherita", 299, "classic", PizzaClose1, "San Marzano tomatoes, fior di latte, basil."),
      MenuItem(ids[1], "Farmhouse", 349, "classic", PizzaClose2, "Onions, capsicum, mushrooms, sweet corn."),
      MenuItem(ids[2], "Pepperoni", 399, "classic", PizzaClose2, "Spicy pepperoni, mozzarella, oregano."),
      MenuItem(ids[3], "Truffle Funghi", 499, "specials", PizzaClose1, "Wild mushrooms, truffle oil, parmesan."),
      MenuItem(ids[4], "Bombay Heat", 459, "specials", PizzaClose2, "Tandoori chicken, jalapeño, chilli oil."),
      MenuItem(ids[5], "Garlic Bread Basket", 159, "sides", GarlicBread, "Buttery, herby, perfectly toasted."),
      MenuItem(ids[6], "Cheesy Dip", 79, "sides", PizzaClose1, "Silky, indulgent cheese dip."),
      MenuItem(ids[7], "Homemade Lemonade", 99, "drinks", PizzaClose1, "Fresh, zesty and cool."),
      MenuItem(ids[8], "Iced Tea (Peach)", 129, "drinks", PizzaClose2, "Lightly sweet, aromatic."),
      MenuItem(ids[9], "Classic Tiramisu", 249, "desserts", Tiramisu, "Cocoa, mascarpone, espresso.") ]
  }

  /** The three chef's-choice items. */
  function SeedChefsChoice(ids: seq<string>): seq<MenuItem>
    requires |ids| == 3
  {
    [ MenuItem(ids[0], "Truffle Funghi", 499, "specials", PizzaClose1, "Wild mushrooms, truffle oil, parmesan."),
      MenuItem(ids[1], "Bombay Heat", 459, "specials", PizzaClose2, "Tandoori chicken, jalapeño, chilli oil."),
      MenuItem(ids[2], "Burrata Margherita", 529, "specials", PizzaClose1, "Creamy burrata, basil oil, San Marzano base.") ]
  }

  /** The six reviews. */
  function SeedReviews(ids: seq<string>): seq<Review>
    requires |ids| == 6
  {
    [ Review(ids[0], "Ananya M.", 5, "Best wood-fired crust in Mumbai. The truffle funghi blew my mind!", "https://i.pravatar.cc/100?img=12", "customer"),
      Review(ids[1], "Rahul S.", 5, "Super fresh ingredients and warm service. Totally recommend!", "https://i.pravatar.cc/100?img=5", "customer"),
      Review(ids[2], "Sana K.", 4, "Margherita is perfection. Simple and so flavorful.", "https://i.pravatar.cc/100?img=8", "customer"),
      Review(ids[3], "Karan P.", 5, "Ordered for a party, everyone loved the Bombay Heat!", "https://i.pravatar.cc/100?img=18", "customer"),
      Review(ids[4], "FoodieMumbai", 5, "Rony’s wood-fired pies are the city’s hidden gem—charred just right, toppings that sing.", "https://i.pravatar.cc/100?img=30", "blogger"),
      Review(ids[5], "SliceOfLife Blog", 5, "Truffle Funghi is a masterpiece. Balanced, aromatic, unforgettable.", "https://i.pravatar.cc/100?img=16", "blogger") ]
  }

  const SeedTimeline: seq<TimelineEntry> :=
    [ TimelineEntry(2015, "First Oven", "Started with a tiny backyard oven and neighborhood tastings.", HeroChef),
      TimelineEntry(2018, "Pop-up Nights", "Weekend pop-ups grew a loyal base; perfected slow-fermented dough.", PizzaClose2),
      TimelineEntry(2021, "Rony’s Pizza Hub", "Opened our cozy hub in Andheri West with a wood-fired oven.", HeroFire),
      TimelineEntry(2024, "30+ Varieties", "Seasonal specials, collabs, and chef’s tasting menus.", PizzaClose1),
      TimelineEntry(2025, "Community Favorite", "1000+ happy customers and counting.", GarlicBread) ]

  const SeedSpecial := Special("Wood-Fired Burrata Margherita", 529, "Silky burrata on blistered San Marzano base, basil oil drizzle.", PizzaClose1)

  const SeedVideo := Video("https://www.youtube.com/embed/3AAdKl1UYZs", "From dough to fire — a peek into our wood-fired ritual.")

  const SeedAssets := Assets("https://www.w3.org/WAI/ER/tests/xhtml/testfiles/resources/pdf/dummy.pdf")

  /** seed_data_dict: `ids` stands for the 19 uuid4 draws, in the order the lists are built. */
  function SeedDataDict(ids: seq<string>): SeedData
    requires |ids| == SeedIdCount
  {
    SeedData(SeedMenu(ids[..10]), SeedChefsChoice(ids[10..13]), SeedReviews(ids[13..]),
             SeedTimeline, SeedSpecial, SeedVideo, SeedAssets)
  }

  // ---------------------------------------------------------------------
  // Properties of the dataset that the backend's API tests rely on
  // ---------------------------------------------------------------------

  predicate IsPrefix(p: string, s: string) { |p| <= |s| && s[..|p|] == p }

  /** More than five menu items, all priced, every category a menu tab and every tab used. */
  lemma SeedMenuFacts(ids: seq<string>)
    requires |ids| == 10
    ensures var m := SeedMenu(ids);
      |m| == 10 && |m| > 5 &&
      (forall i :: 0 <= i < |m| ==> m[i].category in CategoryKeys && m[i].price > 0) &&
      (forall k :: k in CategoryKeys ==> exists i :: 0 <= i < |m| && m[i].category == k)
  {
    var m := SeedMenu(ids);
    assert m[0].category == CategoryKeys[0];
    assert m[3].category == CategoryKeys[1];
    assert m[5].category == CategoryKeys[2];
    assert m[7].category == CategoryKeys[3];
    assert m[9].category == CategoryKeys[4];
  }

  lemma SeedChefsChoiceFacts(ids: seq<string>)
    requires |ids| == 3
    ensures var c := SeedChefsChoice(ids);
      |c| == 3 && forall i :: 0 <= i < |c| ==> c[i].category == "specials" && c[i].price > 0
  {
  }

  lemma SeedReviewFacts(ids: seq<string>)
    requires |ids| == 6
    ensures var r := SeedReviews(ids);
      |r| == 6 &&
      (forall i :: 0 <= i < |r| ==> 1 <= r[i].rating <= 5) &&
      (exists i :: 0 <= i < |r| && r[i].kind == "customer") &&
      (exists i :: 0 <= i < |r| && r[i].kind == "blogger")
  {
    var r := SeedReviews(ids);
    assert r[0].kind == "customer";
    assert r[4].kind == "blogger";
  }

  lemma SeedTimelineFacts()
    ensures |SeedTimeline| == 5
    ensures SeedTimeline[0].year == 2015 && SeedTimeline[1].year == 2018 && SeedTimeline[2].year == 2021
    ensures SeedTimeline[3].year == 2024 && SeedTimeline[4].year == 2025
    ensures forall i, j :: 0 <= i < j < |SeedTimeline| ==> SeedTimeline[i].year < SeedTimeline[j].year
  {
  }

  lemma SeedSingletonFacts()
    ensures SeedSpecial.name != "" && SeedSpecial.price > 0 && SeedSpecial.desc != "" && SeedSpecial.img != ""
    ensures IsPrefix("https://www.youtube.com/", SeedVideo.url)
    ensures SeedAssets.menuPdfUrl != ""
  {
    assert SeedVideo.url[..|"https://www.youtube.com/"|] == "https://www.youtube.com/";
  }

  // ---------------------------------------------------------------------
  // seed_if_empty
  // ---------------------------------------------------------------------

  /** A stored document; the backend keeps one kind of entity per collection. */
  datatype Document =
    | MenuDoc(item: MenuItem)
    | ReviewDoc(review: Review)
    | TimelineDoc(entry: TimelineEntry)
    | SpecialDoc(special: Special)
    | VideoDoc(video: Video)
    | AssetsDoc(assets: Assets)
    | OtherDoc(body: string)   // contact messages and bookings, written by other routes

  /** The collections of the backend's database. */
  datatype Collection =
    | MenuItemsColl | ChefsChoiceColl | ReviewsColl | SpecialsColl | VideoColl | AssetsColl | TimelineColl
    | ContactMessagesColl | BookingsColl
  {
    /** The collection's name in the database. */
    function Name(): string
    {
      match this
      case MenuItemsColl => "menu_items"
      case ChefsChoiceColl => "chefs_choice"
      case ReviewsColl => "reviews"
      case SpecialsColl => "specials"
      case VideoColl => "video"
      case AssetsColl => "assets"
      case TimelineColl => "timeline"
      case ContactMessagesColl => "contact_messages"
      case BookingsColl => "bookings"
    }
  }

  /** Distinct collections have distinct names, so keying the store by `Collection` loses nothing. */
  lemma CollectionNamesDistinct(a: Collection, b: Collection)
    ensures a.Name() == b.Name() <==> a == b
  {
  }

  type Store = map<Collection, seq<Document>>

  /** The seven collections the seed step fills. */
  const SeedCollections: set<Collection> :=
    {MenuItemsColl, ChefsChoiceColl, ReviewsColl, SpecialsColl, VideoColl, AssetsColl, TimelineColl}

  /** The documents of a collection; an absent collection has none. */
  function Docs(db: Store, name: Collection): seq<Document>
  {
    if name in db then db[name] else []
  }

  function MenuDocs(items: seq<MenuItem>): (ds: seq<Document>)
    ensures |ds| == |items| && forall i :: 0 <= i < |items| ==> ds[i] == MenuDoc(items[i])
  {
    if items == [] then [] else [MenuDoc(items[0])] + MenuDocs(items[1..])
  }

  function ReviewDocs(rs: seq<Review>): (ds: seq<Document>)
    ensures |ds| == |rs| && forall i :: 0 <= i < |rs| ==> ds[i] == ReviewDoc(rs[i])
  {
    if rs == [] then [] else [ReviewDoc(rs[0])] + ReviewDocs(rs[1..])
  }

  function TimelineDocs(t: seq<TimelineEntry>): (ds: seq<Document>)
    ensures |ds| == |t| && forall i :: 0 <= i < |t| ==> ds[i] == TimelineDoc(t[i])
  {
    if t == [] then [] else [TimelineDoc(t[0])] + TimelineDocs(t[1..])
  }

  /**
   * seed_data_dict as the backend indexes it: for each of the seven
   * collections, the documents it receives when found empty.
   */
  function SeedDocs(data: SeedData): (fill: Store)
    ensures fill.Keys == SeedCollections
  {
    map[MenuItemsColl := MenuDocs(data.menuItems),
        ChefsChoiceColl := MenuDocs(data.chefsChoice),
        ReviewsColl := ReviewDocs(data.reviews),
        SpecialsColl := [SpecialDoc(data.special)],
        VideoColl := [VideoDoc(data.video)],
        AssetsColl := [AssetsDoc(data.assets)],
        TimelineColl := TimelineDocs(data.timeline)]
  }

  /** Every collection of a seed dictionary has at least one document. */
  predicate FillsAll(fill: Store)
  {
    forall name :: name in fill ==> fill[name] != []
  }

  lemma SeedDataFillsAll(ids: seq<string>)
    requires |ids| == SeedIdCount
    ensures FillsAll(SeedDocs(SeedDataDict(ids)))
  {
    var d := SeedDataDict(ids);
    assert |d.menuItems| == 10 && |d.chefsChoice| == 3 && |d.reviews| == 6 && |d.timeline| == 5;
  }

  /**
   * The database after seed_if_empty, stated collection by collection: an
   * empty collection of the seed is given its seed documents, every other
   * collection keeps exactly what it had.
   */
  function AfterSeed(db: Store, fill: Store): Store
  {
    map name | name in db.Keys + fill.Keys ::
      if name in fill && Docs(db, name) == [] then fill[name] else db[name]
  }

  /** seed_if_empty writes only into collections that were empty. */
  lemma SeedOnlyFillsEmpty(db: Store, fill: Store, name: Collection)
    ensures Docs(db, name) != [] ==> Docs(AfterSeed(db, fill), name) == Docs(db, name)
    ensures name !in fill ==> Docs(AfterSeed(db, fill), name) == Docs(db, name)
    ensures name in fill && Docs(db, name) == [] ==> Docs(AfterSeed(db, fill), name) == fill[name]
  {
  }

  /** After seed_if_empty every collection of the seed is non-empty. */
  lemma SeedFillsAll(db: Store, fill: Store)
    requires FillsAll(fill)
    ensures forall name :: name in fill ==> Docs(AfterSeed(db, fill), name) != []
  {
  }

  /**
   * Running seed_if_empty a second time changes nothing, whatever documents
   * (and so whatever uuids) the second run holds.
   */
  lemma SeedIdempotent(db: Store, first: Store, second: Store)
    requires FillsAll(first) && second.Keys <= first.Keys
    ensures AfterSeed(AfterSeed(db, first), second) == AfterSeed(db, first)
  {
    var once := AfterSeed(db, first);
    var twice := AfterSeed(once, second);
    SeedFillsAll(db, first);
    assert twice.Keys == once.Keys;
    forall name | name in once.Keys
      ensures twice[name] == once[name]
    {
    }
  }

  /** One conditional insert: `docs` are appended to `name` only if it holds no document. */
  function InsertIfEmptyOn(db: Store, name: Collection, docs: seq<Document>): Store
  {
    if Docs(db, name) == [] then db[name := Docs(db, name) + docs] else db
  }

  /**
   * `cur` is `db` after the conditional inserts for the collections in
   * `done` (the invariant of seed_if_empty's sequence of inserts).
   */
  predicate SeededSoFar(db: Store, fill: Store, cur: Store, done: set<Collection>)
  {
    done <= fill.Keys &&
    cur.Keys == db.Keys + done &&
    forall name :: name in cur.Keys ==>
      cur[name] == if name in done && Docs(db, name) == [] then fill[name] else db[name]
  }

  lemma SeededSoFarStep(db: Store, fill: Store, cur: Store, done: set<Collection>, name: Collection)
    requires SeededSoFar(db, fill, cur, done)
    requires name in fill.Keys - done
    ensures SeededSoFar(db, fill, InsertIfEmptyOn(cur, name, fill[name]), done + {name})
  {
    assert Docs(cur, name) == Docs(db, name);
  }

  lemma SeededSoFarDone(db: Store, fill: Store, cur: Store)
    requires SeededSoFar(db, fill, cur, fill.Keys)
    ensures cur == AfterSeed(db, fill)
  {
    var expected := AfterSeed(db, fill);
    assert cur.Keys == expected.Keys;
    forall name | name in cur.Keys
      ensures cur[name] == expected[name]
    {
    }
  }

  /** The first four conditional inserts of seed_if_empty, in the order they are issued. */
  function SeedStepsFirstFour(db: Store, fill: Store): Store
    requires fill.Keys == SeedCollections
  {
    var db1 := InsertIfEmptyOn(db, MenuItemsColl, fill[MenuItemsColl]);
    var db2 := InsertIfEmptyOn(db1, ChefsChoiceColl, fill[ChefsChoiceColl]);
    var db3 := InsertIfEmptyOn(db2, ReviewsColl, fill[ReviewsColl]);
    InsertIfEmptyOn(db3, SpecialsColl, fill[SpecialsColl])
  }

  /** The last three conditional inserts of seed_if_empty. */
  function SeedStepsLastThree(db: Store, fill: Store): Store
    requires fill.Keys == SeedCollections
  {
    var db5 := InsertIfEmptyOn(db, VideoColl, fill[VideoColl]);
    var db6 := InsertIfEmptyOn(db5, AssetsColl, fill[AssetsColl]);
    InsertIfEmptyOn(db6, TimelineColl, fill[TimelineColl])
  }

  /** The seven conditional inserts of seed_if_empty, in the order they are issued. */
  function SeedSteps(db: Store, fill: Store): Store
    requires fill.Keys == SeedCollections
  {
    SeedStepsLastThree(SeedStepsFirstFour(db, fill), fill)
  }

  /** The first four inserts (menu items, chef's choice, reviews, specials). */
  lemma SeedStepsFirstHalf(db: Store, fill: Store)
    requires fill.Keys == SeedCollections
    ensures SeededSoFar(db, fill, SeedStepsFirstFour(db, fill),
                        {MenuItemsColl, ChefsChoiceColl, ReviewsColl, SpecialsColl})
  {
    var done: set<Collection> := {};
    var cur := db;
    assert SeededSoFar(db, fill, cur, done);
    SeededSoFarStep(db, fill, cur, done, MenuItemsColl);
    cur, done := InsertIfEmptyOn(cur, MenuItemsColl, fill[MenuItemsColl]), done + {MenuItemsColl};
    SeededSoFarStep(db, fill, cur, done, ChefsChoiceColl);
    cur, done := InsertIfEmptyOn(cur, ChefsChoiceColl, fill[ChefsChoiceColl]), done + {ChefsChoiceColl};
    SeededSoFarStep(db, fill, cur, done, ReviewsColl);
    cur, done := InsertIfEmptyOn(cur, ReviewsColl, fill[ReviewsColl]), done + {ReviewsColl};
    SeededSoFarStep(db, fill, cur, done, SpecialsColl);
    cur, done := InsertIfEmptyOn(cur, SpecialsColl, fill[SpecialsColl]), done + {SpecialsColl};
    assert done == {MenuItemsColl, ChefsChoiceColl, ReviewsColl, SpecialsColl};
  }

  /** The last three inserts (video, assets, timeline). */
  lemma SeedStepsSecondHalf(db: Store, fill: Store, mid: Store)
    requires fill.Keys == SeedCollections
    requires SeededSoFar(db, fill, mid, {MenuItemsColl, ChefsChoiceColl, ReviewsColl, SpecialsColl})
    ensures SeededSoFar(db, fill, SeedStepsLastThree(mid, fill), SeedCollections)
  {
    var done: set<Collection> := {MenuItemsColl, ChefsChoiceColl, ReviewsColl, SpecialsColl};
    var cur := mid;
    SeededSoFarStep(db, fill, cur, done, VideoColl);
    cur, done := InsertIfEmptyOn(cur, VideoColl, fill[VideoColl]), done + {VideoColl};
    SeededSoFarStep(db, fill, cur, done, AssetsColl);
    cur, done := InsertIfEmptyOn(cur, AssetsColl, fill[AssetsColl]), done + {AssetsColl};
    SeededSoFarStep(db, fill, cur, done, TimelineColl);
    cur, done := InsertIfEmptyOn(cur, TimelineColl, fill[TimelineColl]), done + {TimelineColl};
    assert done == SeedCollections;
  }

  /** Issuing the seven inserts one collection at a time yields the collection-wise description. */
  lemma SeedStepsMeetsAfterSeed(db: Store, fill: Store)
    requires fill.Keys == SeedCollections
    ensures SeedSteps(db, fill) == AfterSeed(db, fill)
  {
    var mid := SeedStepsFirstFour(db, fill);
    SeedStepsFirstHalf(db, fill);
    SeedStepsSecondHalf(db, fill, mid);
    SeededSoFarDone(db, fill, SeedStepsLastThree(mid, fill));
  }

  /** The database behind the backend, updated in place by insert calls. */
  class Database {
    var collections: Store

    constructor (initial: Store)
      ensures collections == initial
    {
      collections := initial;
    }

    /** count_documents({}) */
    function CountDocuments(name: Collection): nat
      reads this
    {
      |Docs(collections, name)|
    }

    /**
     * insert_many(docs) when count_documents({}) == 0; for the singleton
     * collections, insert_one when find_one({}) finds nothing, which is the
     * same test.
     */
    method InsertIfEmpty(name: Collection, docs: seq<Document>)
      modifies this
      ensures old(CountDocuments(name)) == 0 ==> Docs(collections, name) == docs
      ensures collections == InsertIfEmptyOn(old(collections), name, docs)
    {
      if CountDocuments(name) == 0 {
        collections := collections[name := Docs(collections, name) + docs];
      }
    }

    /** seed_if_empty: seven conditional inserts, one per collection of the seed dictionary. */
    method SeedWith(fill: Store)
      requires fill.Keys == SeedCollections
      modifies this
      ensures collections == AfterSeed(old(collections), fill)
    {
      InsertIfEmpty(MenuItemsColl, fill[MenuItemsColl]);
      InsertIfEmpty(ChefsChoiceColl, fill[ChefsChoiceColl]);
      InsertIfEmpty(ReviewsColl, fill[ReviewsColl]);
      InsertIfEmpty(SpecialsColl, fill[SpecialsColl]);
      InsertIfEmpty(VideoColl, fill[VideoColl]);
      InsertIfEmpty(AssetsColl, fill[AssetsColl]);
      InsertIfEmpty(TimelineColl, fill[TimelineColl]);
      SeedStepsMeetsAfterSeed(old(collections), fill);
    }

    /** seed_if_empty with seed_data_dict, whose uuid4 draws are `ids`. */
    method SeedIfEmpty(ids: seq<string>)
      requires |ids| == SeedIdCount
      modifies this
      ensures collections == AfterSeed(old(collections), SeedDocs(SeedDataDict(ids)))
      ensures forall name :: name in SeedCollections ==> Docs(collections, name) != []
    {
      var fill := SeedDocs(SeedDataDict(ids));
      SeedDataFillsAll(ids);
      SeedWith(fill);
      SeedFillsAll(old(collections), fill);
    }
  }
}
