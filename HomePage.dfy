/**
 * The home page's content loading (`fetchAll`) and its one-shot
 * "Today's Special" dialog, over an abstract `localStorage`.
 *
 * The seven GETs are joined by `Promise.all`; only `/special` carries its
 * own `.catch`, so a failure of any other request rejects the whole batch
 * and the page keeps its initial state. The 1-second `setTimeout` that
 * opens the dialog is a count of pending timers plus a separate firing step.
 */
module HomePage {
  import opened Wrappers
  import opened Content
  import opened PageHelpers
  import Seed

  const SeenKey := "special_seen"
  const SeenValue := "1"

  // ---------------------------------------------------------------------
  // Responses
  // ---------------------------------------------------------------------

  /** The settled outcome of one request: rejected, or resolved with a body. */
  datatype Fetch<T> = Failed | Got(data: T)

  /** A collection body: `null`, or an object whose `items` may be missing. */
  datatype ListBody<T> = NullBody | Body(items: Option<seq<T>>)

  /** One outcome per resource, in the order `Promise.all` receives them. */
  datatype Responses = Responses(
    menu: Fetch<ListBody<MenuItem>>,
    chefsChoice: Fetch<ListBody<MenuItem>>,
    reviews: Fetch<ListBody<Review>>,
    timeline: Fetch<ListBody<TimelineEntry>>,
    video: Fetch<Option<Video>>,
    assets: Fetch<Option<Assets>>,
    special: Fetch<Option<Special>>)

  /** `res.data.items || []` for a body that is an object. */
  function ItemsOrEmpty<T>(b: ListBody<T>): seq<T>
    requires b.Body?
  {
    b.items.GetOr([])
  }

  /** `Promise.all` resolves exactly when none of the six requests without a catch rejects. */
  predicate BatchResolves(r: Responses)
  {
    r.menu.Got? && r.chefsChoice.Got? && r.reviews.Got? && r.timeline.Got? && r.video.Got? && r.assets.Got?
  }

  /** `sRes.data` after `.catch(() => ({ data: null }))`. */
  function SpecialData(r: Responses): Option<Special>
  {
    if r.special.Got? then r.special.data else None
  }

  /**
   * How many of the four collection setters (menu, chef's choice, reviews,
   * timeline, in that order) run before `res.data.items` is read off a null
   * body and throws into the catch.
   */
  function CollectionsStored(r: Responses): (n: nat)
    requires BatchResolves(r)
    ensures n <= 4
    ensures n == 4 <==> r.menu.data.Body? && r.chefsChoice.data.Body? && r.reviews.data.Body? && r.timeline.data.Body?
  {
    if r.menu.data.NullBody? then 0
    else if r.chefsChoice.data.NullBody? then 1
    else if r.reviews.data.NullBody? then 2
    else if r.timeline.data.NullBody? then 3
    else 4
  }

  // ---------------------------------------------------------------------
  // The stored flag
  // ---------------------------------------------------------------------

  /** `localStorage.getItem(key)`: the stored string, or null. */
  function Lookup(store: map<string, string>, key: string): Option<string>
  {
    if key in store then Some(store[key]) else None
  }

  /** JavaScript truthiness of a string-or-null: null and "" are falsy. */
  predicate Truthy(v: Option<string>)
  {
    v.Some? && v.value != ""
  }

  predicate FlagSeen(store: map<string, string>)
  {
    Truthy(Lookup(store, SeenKey))
  }

  /** `!seen && sRes && sRes.data` */
  predicate SchedulesSpecial(store: map<string, string>, special: Option<Special>)
  {
    !FlagSeen(store) && special.Some?
  }

  // ---------------------------------------------------------------------
  // Page state and its transitions
  // ---------------------------------------------------------------------

  datatype PageView = PageView(
    menu: seq<MenuItem>,
    chefsChoice: seq<MenuItem>,
    reviews: seq<Review>,
    timeline: seq<TimelineEntry>,
    video: Option<Video>,
    assets: Option<Assets>,
    special: Option<Special>,
    openSpecial: bool,
    pendingTimers: nat,
    store: map<string, string>,
    storageReadable: bool,
    storageWritable: bool)

  /** The page as first rendered, over the browser's stored entries. */
  function InitialView(store: map<string, string>, readable: bool, writable: bool): PageView
  {
    PageView([], [], [], [], None, None, None, false, 0, store, readable, writable)
  }

  /**
   * The page once `fetchAll` has settled on `r`. A rejected batch changes
   * nothing; otherwise the setters run in order up to the first null
   * collection body, and only a run that gets past all seven setters reads
   * the flag (which throws when storage cannot be read) and may schedule
   * the dialog.
   */
  function AfterLoad(v: PageView, r: Responses): PageView
  {
    if !BatchResolves(r) then v
    else
      var n := CollectionsStored(r);
      var special := SpecialData(r);
      v.(menu := if n > 0 then ItemsOrEmpty(r.menu.data) else v.menu,
         chefsChoice := if n > 1 then ItemsOrEmpty(r.chefsChoice.data) else v.chefsChoice,
         reviews := if n > 2 then ItemsOrEmpty(r.reviews.data) else v.reviews,
         timeline := if n > 3 then ItemsOrEmpty(r.timeline.data) else v.timeline,
         video := if n == 4 then r.video.data else v.video,
         assets := if n == 4 then r.assets.data else v.assets,
         special := if n == 4 then special else v.special,
         pendingTimers :=
           if n == 4 && v.storageReadable && SchedulesSpecial(v.store, special)
           then v.pendingTimers + 1 else v.pendingTimers)
  }

  /** A pending timer fires: `setOpenSpecial(true)`. */
  function AfterFire(v: PageView): PageView
    requires v.pendingTimers > 0
  {
    v.(pendingTimers := v.pendingTimers - 1, openSpecial := true)
  }

  /** The dialog's onOpenChange(open); a close also stores the flag (when storage works). */
  function AfterOpenChange(v: PageView, open: bool): PageView
  {
    v.(openSpecial := open,
       store := if !open && v.storageWritable then v.store[SeenKey := SeenValue] else v.store)
  }

  // ---------------------------------------------------------------------
  // Properties of loading
  // ---------------------------------------------------------------------

  /** Every collection is stored as received, with a missing `items` read as []. */
  lemma LoadStoresCollections(v: PageView, r: Responses)
    requires BatchResolves(r) && CollectionsStored(r) == 4
    ensures var w := AfterLoad(v, r);
      w.menu == (if r.menu.data.items.Some? then r.menu.data.items.value else []) &&
      w.chefsChoice == (if r.chefsChoice.data.items.Some? then r.chefsChoice.data.items.value else []) &&
      w.reviews == (if r.reviews.data.items.Some? then r.reviews.data.items.value else []) &&
      w.timeline == (if r.timeline.data.items.Some? then r.timeline.data.items.value else []) &&
      w.video == r.video.data && w.assets == r.assets.data
  {
  }

  /** A failed /special alone does not abort the load: special is null and nothing is scheduled. */
  lemma SpecialFailureIsolated(v: PageView, r: Responses)
    requires BatchResolves(r) && CollectionsStored(r) == 4 && r.special.Failed?
    ensures var w := AfterLoad(v, r);
      w.special == None && w.pendingTimers == v.pendingTimers &&
      w.menu == ItemsOrEmpty(r.menu.data) && w.chefsChoice == ItemsOrEmpty(r.chefsChoice.data) &&
      w.reviews == ItemsOrEmpty(r.reviews.data) && w.timeline == ItemsOrEmpty(r.timeline.data) &&
      w.video == r.video.data && w.assets == r.assets.data
  {
  }

  /** Any failure among the six other requests leaves the first render as it was. */
  lemma BatchRejectionKeepsInitial(store: map<string, string>, readable: bool, writable: bool, r: Responses)
    requires !BatchResolves(r)
    ensures var w := AfterLoad(InitialView(store, readable, writable), r);
      w.menu == [] && w.chefsChoice == [] && w.reviews == [] && w.timeline == [] &&
      w.video == None && w.assets == None && w.special == None &&
      w.pendingTimers == 0 && !w.openSpecial
  {
  }

  /**
   * A null collection body stops the setters where it is met: the
   * collections before it are stored, the ones after it and the singletons
   * are not, and nothing is scheduled.
   */
  lemma NullBodyStopsSetters(v: PageView, r: Responses)
    requires BatchResolves(r) && CollectionsStored(r) < 4
    ensures var w := AfterLoad(v, r); var n := CollectionsStored(r);
      (n <= 0 ==> w.menu == v.menu) && (n <= 1 ==> w.chefsChoice == v.chefsChoice) &&
      (n <= 2 ==> w.reviews == v.reviews) && w.timeline == v.timeline &&
      (n > 0 ==> w.menu == ItemsOrEmpty(r.menu.data)) &&
      (n > 1 ==> w.chefsChoice == ItemsOrEmpty(r.chefsChoice.data)) &&
      (n > 2 ==> w.reviews == ItemsOrEmpty(r.reviews.data)) &&
      w.video == v.video && w.assets == v.assets && w.special == v.special &&
      w.pendingTimers == v.pendingTimers
  {
  }

  /**
   * A load schedules the dialog exactly when the batch and every setter
   * went through, storage can be read, the flag is unset and a special
   * arrived; it schedules at most one timer.
   */
  lemma LoadSchedulesIff(v: PageView, r: Responses)
    ensures var w := AfterLoad(v, r);
      (w.pendingTimers > v.pendingTimers) <==>
        (BatchResolves(r) && CollectionsStored(r) == 4 && v.storageReadable &&
         !FlagSeen(v.store) && SpecialData(r).Some?)
    ensures AfterLoad(v, r).pendingTimers <= v.pendingTimers + 1
  {
  }

  /** With the flag stored, no load ever schedules the dialog, whatever arrived. */
  lemma FlagBlocksSchedule(v: PageView, r: Responses)
    requires FlagSeen(v.store)
    ensures AfterLoad(v, r).pendingTimers == v.pendingTimers
  {
  }

  /** Loading neither opens the dialog nor touches storage. */
  lemma LoadLeavesGate(v: PageView, r: Responses)
    ensures AfterLoad(v, r).openSpecial == v.openSpecial
    ensures AfterLoad(v, r).store == v.store
  {
  }

  // ---------------------------------------------------------------------
  // Properties of the gate
  // ---------------------------------------------------------------------

  /** The open state follows `v`; a close writes "1" when storage is writable, and an open never writes. */
  lemma OpenChangeWritesFlag(v: PageView, open: bool)
    ensures AfterOpenChange(v, open).openSpecial == open
    ensures open ==> AfterOpenChange(v, open).store == v.store
    ensures !open && v.storageWritable ==>
      var w := AfterOpenChange(v, open); w.store == v.store[SeenKey := SeenValue] && FlagSeen(w.store)
  {
  }

  /** Closing again leaves storage as the first close left it. */
  lemma CloseIdempotent(v: PageView)
    ensures AfterOpenChange(AfterOpenChange(v, false), false) == AfterOpenChange(v, false)
  {
  }

  /** When storage cannot be written, a close still closes the dialog. */
  lemma CloseWithoutStorage(v: PageView)
    requires !v.storageWritable
    ensures AfterOpenChange(v, false).openSpecial == false
    ensures AfterOpenChange(v, false).store == v.store
  {
  }

  /** The events that reach the page after it mounts. */
  datatype Event = Load(r: Responses) | TimerFires | OpenChange(open: bool)

  function Step(v: PageView, e: Event): PageView
  {
    match e
    case Load(r) => AfterLoad(v, r)
    case TimerFires => if v.pendingTimers > 0 then AfterFire(v) else v
    case OpenChange(open) => AfterOpenChange(v, open)
  }

  function Run(v: PageView, es: seq<Event>): PageView
    decreases |es|
  {
    if es == [] then v else Run(Step(v, es[0]), es[1..])
  }

  /**
   * Once the flag is stored and no timer is pending, the dialog stays
   * closed and the flag stays set through any sequence of loads, timer
   * firings and closes. (The page renders no trigger for the dialog, so
   * nothing delivers onOpenChange(true).)
   */
  lemma {:induction false} AcknowledgedStaysClosed(v: PageView, es: seq<Event>)
    requires FlagSeen(v.store) && v.pendingTimers == 0 && !v.openSpecial
    requires forall i :: 0 <= i < |es| ==> es[i] != OpenChange(true)
    ensures var w := Run(v, es); FlagSeen(w.store) && w.pendingTimers == 0 && !w.openSpecial
    decreases |es|
  {
    if es != [] {
      var next := Step(v, es[0]);
      assert es[0] != OpenChange(true);
      assert FlagSeen(next.store) && next.pendingTimers == 0 && !next.openSpecial;
      AcknowledgedStaysClosed(next, es[1..]);
    }
  }

  /**
   * First visit: with no flag stored, a load that brings a special schedules
   * one timer, its firing opens the dialog, closing it stores the flag, and
   * the next visit's load over that storage schedules nothing.
   */
  lemma FirstVisitThenReturn(store: map<string, string>, r: Responses, r2: Responses)
    requires !FlagSeen(store)
    requires BatchResolves(r) && CollectionsStored(r) == 4 && SpecialData(r).Some?
    ensures var loaded := AfterLoad(InitialView(store, true, true), r);
      loaded.pendingTimers == 1 && !loaded.openSpecial &&
      AfterFire(loaded).openSpecial &&
      var closed := AfterOpenChange(AfterFire(loaded), false);
      !closed.openSpecial && FlagSeen(closed.store) &&
      AfterLoad(InitialView(closed.store, true, true), r2).pendingTimers == 0
  {
  }

  /**
   * Storage that can be read but not written (a full quota, say): the close
   * stores nothing, so the next visit that brings a special schedules the
   * dialog again.
   */
  lemma UnwritableStorageShowsAgain(store: map<string, string>, r: Responses)
    requires !FlagSeen(store)
    requires BatchResolves(r) && CollectionsStored(r) == 4 && SpecialData(r).Some?
    ensures var loaded := AfterLoad(InitialView(store, true, false), r);
      var closed := AfterOpenChange(AfterFire(loaded), false);
      loaded.pendingTimers == 1 && closed.store == store &&
      AfterLoad(InitialView(closed.store, true, false), r).pendingTimers == 1
  {
  }

  // ---------------------------------------------------------------------
  // The page over the seeded backend
  // ---------------------------------------------------------------------

  /**
   * Over the seed menu, every tab of the menu grid has something to show
   * and the five tabs together show every item exactly once.
   */
  lemma SeedMenuFillsTabs(ids: seq<string>)
    requires |ids| == 10
    ensures multiset(AllTabs(Seed.SeedMenu(ids), CategoryKeys)) == multiset(Seed.SeedMenu(ids))
    ensures forall k :: k in CategoryKeys ==> GridItems(Some(Seed.SeedMenu(ids)), k) != []
  {
    Seed.SeedMenuFacts(ids);
    TabsPartitionMenu(Seed.SeedMenu(ids));
    forall k | k in CategoryKeys
      ensures GridItems(Some(Seed.SeedMenu(ids)), k) != []
    {
      EveryTabShows(Seed.SeedMenu(ids), k);
    }
  }

  /** With the seed timeline loaded, the hero shows its third picture and the about section its first. */
  lemma SeedTimelineImages(menu: seq<MenuItem>)
    ensures HeroImage(Seed.SeedTimeline, menu) == Seed.HeroFire
    ensures ChefImage(Seed.SeedTimeline) == Seed.HeroChef
  {
    HeroImageChoice(Seed.SeedTimeline, menu);
    ChefImageChoice(Seed.SeedTimeline);
  }

  // ---------------------------------------------------------------------
  // The browser's storage and the page component
  // ---------------------------------------------------------------------

  /** What `localStorage.getItem` gives: a value or null, or a thrown error. */
  datatype StorageRead = Threw | Read(value: Option<string>)

  /** `localStorage`: it outlives a page and is shared by every page of the site. */
  class LocalStorage {
    var entries: map<string, string>
    const readable: bool
    const writable: bool

    constructor (entries: map<string, string>, readable: bool, writable: bool)
      ensures this.entries == entries && this.readable == readable && this.writable == writable
    {
      this.entries := entries;
      this.readable := readable;
      this.writable := writable;
    }

    method GetItem(key: string) returns (r: StorageRead)
      ensures readable ==> r == Read(Lookup(entries, key))
      ensures !readable ==> r == Threw
    {
      if !readable {
        return Threw;
      }
      r := Read(Lookup(entries, key));
    }

    /** Returns false when the write throws. */
    method SetItem(key: string, value: string) returns (ok: bool)
      modifies this
      ensures ok == writable
      ensures entries == if writable then old(entries)[key := value] else old(entries)
    {
      ok := writable;
      if writable {
        entries := entries[key := value];
      }
    }
  }

  /** The menu grid's active tab. */
  class MenuGrid {
    var active: string

    constructor ()
      ensures active == InitialCategory
    {
      active := CategoryKeys[0];
    }

    /** A tab button's onClick. */
    method SelectTab(key: string)
      requires key in CategoryKeys
      modifies this
      ensures active == key
    {
      active := key;
    }

    /** The cards the grid renders for `menu`. */
    function Items(menu: Option<seq<MenuItem>>): seq<MenuItem>
      reads this
    {
      GridItems(menu, active)
    }
  }

  class Page {
    var menu: seq<MenuItem>
    var chefsChoice: seq<MenuItem>
    var reviews: seq<Review>
    var timeline: seq<TimelineEntry>
    var video: Option<Video>
    var assets: Option<Assets>
    var special: Option<Special>
    var openSpecial: bool
    var pendingTimers: nat
    const storage: LocalStorage

    ghost function View(): PageView
      reads this, storage
    {
      PageView(menu, chefsChoice, reviews, timeline, video, assets, special,
               openSpecial, pendingTimers, storage.entries, storage.readable, storage.writable)
    }

    constructor (storage: LocalStorage)
      ensures this.storage == storage
      ensures View() == InitialView(storage.entries, storage.readable, storage.writable)
    {
      menu, chefsChoice, reviews, timeline := [], [], [], [];
      video, assets, special := None, None, None;
      openSpecial, pendingTimers := false, 0;
      this.storage := storage;
    }

    /** fetchAll, once all seven requests have settled with `r`. */
    method LoadAll(r: Responses)
      modifies this
      ensures View() == AfterLoad(old(View()), r)
    {
      if r.menu.Failed? || r.chefsChoice.Failed? || r.reviews.Failed? || r.timeline.Failed?
         || r.video.Failed? || r.assets.Failed? {
        return;  // Promise.all rejects; the catch only logs
      }
      var sData := if r.special.Got? then r.special.data else None;
      if r.menu.data.NullBody? { return; }
      menu := r.menu.data.items.GetOr([]);
      if r.chefsChoice.data.NullBody? { return; }
      chefsChoice := r.chefsChoice.data.items.GetOr([]);
      if r.reviews.data.NullBody? { return; }
      reviews := r.reviews.data.items.GetOr([]);
      if r.timeline.data.NullBody? { return; }
      timeline := r.timeline.data.items.GetOr([]);
      video := r.video.data;
      assets := r.assets.data;
      special := sData;
      var seen := storage.GetItem(SeenKey);
      if seen.Threw? { return; }
      if !(seen.value.Some? && seen.value.value != "") && sData.Some? {
        pendingTimers := pendingTimers + 1;  // setTimeout(() => setOpenSpecial(true), 1000)
      }
    }

    /** A pending timer fires. */
    method FireTimer()
      requires pendingTimers > 0
      modifies this
      ensures View() == AfterFire(old(View()))
    {
      pendingTimers := pendingTimers - 1;
      openSpecial := true;
    }

    /** The dialog's onOpenChange handler. */
    method OnOpenChange(open: bool)
      modifies this, storage
      ensures View() == AfterOpenChange(old(View()), open)
    {
      openSpecial := open;
      if !open {
        var _ := storage.SetItem(SeenKey, SeenValue);
      }
    }

    /** The hero picture rendered for the current content. */
    function Hero(): string
      reads this
    {
      HeroImage(timeline, menu)
    }

    /** The about-section picture rendered for the current content. */
    function Chef(): string
      reads this
    {
      ChefImage(timeline)
    }
  }
}
