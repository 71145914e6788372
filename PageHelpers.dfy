/**
 * The expressions of the home page that only compute a value: the menu
 * grid's category filter, the WhatsApp number's digit strip, and the
 * `?.img ||` image fallback chains.
 */
module PageHelpers {
  import opened Wrappers
  import opened Content

  // ---------------------------------------------------------------------
  // Menu grid: `(menu || []).filter((i) => i.category === active)`
  // ---------------------------------------------------------------------

  /** The menu grid opens on the first tab. */
  const InitialCategory := CategoryKeys[0]

  /** The items of `menu` whose category is `key`, in menu order. */
  function InCategory(menu: seq<MenuItem>, key: string): seq<MenuItem>
  {
    if menu == [] then []
    else if menu[0].category == key then [menu[0]] + InCategory(menu[1..], key)
    else InCategory(menu[1..], key)
  }

  /** What the grid shows for `menu` (possibly null) under the active tab. */
  function GridItems(menu: Option<seq<MenuItem>>, active: string): seq<MenuItem>
  {
    InCategory(menu.GetOr([]), active)
  }

  /** An item is shown exactly when it is on the menu and in the active category. */
  lemma {:induction false} InCategoryMembers(menu: seq<MenuItem>, key: string)
    ensures forall x :: x in InCategory(menu, key) <==> x in menu && x.category == key
  {
    if menu != [] {
      InCategoryMembers(menu[1..], key);
      assert menu == [menu[0]] + menu[1..];
    }
  }

  /** The filter keeps menu order: filtering a concatenation filters each part. */
  lemma {:induction false} InCategoryAppend(a: seq<MenuItem>, b: seq<MenuItem>, key: string)
    ensures InCategory(a + b, key) == InCategory(a, key) + InCategory(b, key)
  {
    if a == [] {
      assert a + b == b;
    } else {
      InCategoryAppend(a[1..], b, key);
      assert (a + b)[1..] == a[1..] + b;
    }
  }

  /** A menu entirely in the category is shown whole; the filter is idempotent. */
  lemma {:induction false} InCategoryKeepsAll(menu: seq<MenuItem>, key: string)
    requires forall i :: 0 <= i < |menu| ==> menu[i].category == key
    ensures InCategory(menu, key) == menu
  {
    if menu != [] {
      InCategoryKeepsAll(menu[1..], key);
    }
  }

  lemma InCategoryIdempotent(menu: seq<MenuItem>, key: string)
    ensures InCategory(InCategory(menu, key), key) == InCategory(menu, key)
  {
    var shown := InCategory(menu, key);
    InCategoryMembers(menu, key);
    forall i | 0 <= i < |shown| ensures shown[i].category == key {
      assert shown[i] in shown;
    }
    InCategoryKeepsAll(shown, key);
  }

  /** A null menu shows nothing, whatever the tab. */
  lemma NullMenuShowsNothing(active: string)
    ensures GridItems(None, active) == []
  {
  }

  /** A tab with at least one item of its category on the menu shows something. */
  lemma EveryTabShows(menu: seq<MenuItem>, k: string)
    requires exists i :: 0 <= i < |menu| && menu[i].category == k
    ensures GridItems(Some(menu), k) != []
  {
    var i :| 0 <= i < |menu| && menu[i].category == k;
    InCategoryMembers(menu, k);
    assert menu[i] in InCategory(menu, k);
  }

  /** The items of `menu` whose category is one of `keys`, in menu order. */
  function InCategories(menu: seq<MenuItem>, keys: set<string>): seq<MenuItem>
  {
    if menu == [] then []
    else if menu[0].category in keys then [menu[0]] + InCategories(menu[1..], keys)
    else InCategories(menu[1..], keys)
  }

  /** The tabs' contents, one tab after the other. */
  function AllTabs(menu: seq<MenuItem>, keys: seq<string>): seq<MenuItem>
  {
    if keys == [] then [] else InCategory(menu, keys[0]) + AllTabs(menu, keys[1..])
  }

  lemma {:induction false} InCategoriesSplit(menu: seq<MenuItem>, key: string, rest: set<string>)
    requires key !in rest
    ensures multiset(InCategories(menu, {key} + rest)) ==
            multiset(InCategory(menu, key)) + multiset(InCategories(menu, rest))
  {
    if menu != [] {
      InCategoriesSplit(menu[1..], key, rest);
    }
  }

  lemma {:induction false} AllTabsCollects(menu: seq<MenuItem>, keys: seq<string>)
    requires forall i, j :: 0 <= i < j < |keys| ==> keys[i] != keys[j]
    ensures multiset(AllTabs(menu, keys)) == multiset(InCategories(menu, set k | k in keys))
  {
    if keys == [] {
      assert (set k | k in keys) == {};
      InCategoriesNone(menu);
    } else {
      AllTabsCollects(menu, keys[1..]);
      assert (set k | k in keys) == {keys[0]} + (set k | k in keys[1..]);
      InCategoriesSplit(menu, keys[0], set k | k in keys[1..]);
    }
  }

  lemma {:induction false} InCategoriesNone(menu: seq<MenuItem>)
    ensures InCategories(menu, {}) == []
  {
    if menu != [] {
      InCategoriesNone(menu[1..]);
    }
  }

  lemma {:induction false} InCategoriesAll(menu: seq<MenuItem>, keys: set<string>)
    requires forall i :: 0 <= i < |menu| ==> menu[i].category in keys
    ensures InCategories(menu, keys) == menu
  {
    if menu != [] {
      InCategoriesAll(menu[1..], keys);
    }
  }

  lemma CategoryKeysDistinct()
    ensures forall i, j :: 0 <= i < j < |CategoryKeys| ==> CategoryKeys[i] != CategoryKeys[j]
  {
  }

  /**
   * When the tab keys are distinct and every item's category is one of
   * them, clicking through the tabs shows every menu item exactly once.
   */
  lemma TabsPartition(menu: seq<MenuItem>, keys: seq<string>)
    requires forall i, j :: 0 <= i < j < |keys| ==> keys[i] != keys[j]
    requires forall i :: 0 <= i < |menu| ==> menu[i].category in keys
    ensures multiset(AllTabs(menu, keys)) == multiset(menu)
  {
    var keySet := set k | k in keys;
    AllTabsCollects(menu, keys);
    assert forall i :: 0 <= i < |menu| ==> menu[i].category in keySet;
    InCategoriesAll(menu, keySet);
  }

  /** The five tabs of the menu grid partition any menu whose categories are tab keys. */
  lemma TabsPartitionMenu(menu: seq<MenuItem>)
    requires forall i :: 0 <= i < |menu| ==> menu[i].category in CategoryKeys
    ensures multiset(AllTabs(menu, CategoryKeys)) == multiset(menu)
  {
    CategoryKeysDistinct();
    TabsPartition(menu, CategoryKeys);
  }

  // ---------------------------------------------------------------------
  // WhatsApp link: `BRAND.whatsapp.replace(/\D/g, "")`
  // ---------------------------------------------------------------------

  const WhatsAppNumber := "+91 90000 12345"

  /** `\d` without the unicode flag: the ASCII digits. */
  predicate IsDigit(c: char) { '0' <= c <= '9' }

  predicate AllDigits(s: string) { forall i :: 0 <= i < |s| ==> IsDigit(s[i]) }

  /** The string with every non-digit character removed. */
  function StripNonDigits(s: string): string
  {
    if s == [] then []
    else if IsDigit(s[0]) then [s[0]] + StripNonDigits(s[1..])
    else StripNonDigits(s[1..])
  }

  /** The WhatsApp deep link of the contact section and the footer. */
  function WhatsAppLink(): string
  {
    "https://wa.me/" + StripNonDigits(WhatsAppNumber)
  }

  /** Each character occurs in the result as often as in the input if it is a digit, and never otherwise. */
  lemma {:induction false} StripKeepsDigits(s: string)
    ensures forall c :: multiset(StripNonDigits(s))[c] == if IsDigit(c) then multiset(s)[c] else 0
  {
    if s != [] {
      StripKeepsDigits(s[1..]);
      assert s == [s[0]] + s[1..];
    }
  }

  lemma StripOnlyDigits(s: string)
    ensures AllDigits(StripNonDigits(s))
  {
    var r := StripNonDigits(s);
    StripKeepsDigits(s);
    forall i | 0 <= i < |r| ensures IsDigit(r[i]) {
      assert r[i] in multiset(r);
    }
  }

  /** Stripping keeps order: stripping a concatenation strips each part. */
  lemma {:induction false} StripAppend(a: string, b: string)
    ensures StripNonDigits(a + b) == StripNonDigits(a) + StripNonDigits(b)
  {
    if a == [] {
      assert a + b == b;
    } else {
      StripAppend(a[1..], b);
      assert (a + b)[1..] == a[1..] + b;
    }
  }

  /** A string of digits only is left as it is. */
  lemma {:induction false} StripFixesDigits(s: string)
    requires AllDigits(s)
    ensures StripNonDigits(s) == s
  {
    if s != [] {
      StripFixesDigits(s[1..]);
    }
  }

  lemma StripIdempotent(s: string)
    ensures StripNonDigits(StripNonDigits(s)) == StripNonDigits(s)
  {
    StripOnlyDigits(s);
    StripFixesDigits(StripNonDigits(s));
  }

  lemma WhatsAppNumberParts()
    ensures WhatsAppNumber == "+91 " + "90000" + " 12345"
    ensures "91" + "90000" + "12345" == "919000012345"
  {
  }

  lemma StripCountryCode() ensures StripNonDigits("+91 ") == "91" {}
  lemma StripFirstGroup() ensures StripNonDigits("90000") == "90000" {}
  lemma StripSecondGroup() ensures StripNonDigits(" 12345") == "12345" {}

  /** The brand's number becomes the digits the wa.me link needs. */
  lemma WhatsAppLinkDigits()
    ensures StripNonDigits(WhatsAppNumber) == "919000012345"
  {
    WhatsAppNumberParts();
    StripAppend("+91 ", "90000");
    StripAppend("+91 " + "90000", " 12345");
    StripCountryCode();
    StripFirstGroup();
    StripSecondGroup();
  }

  lemma WaMePrefix() ensures "https://wa.me/" + "919000012345" == "https://wa.me/919000012345" {}

  /** The link the contact section and the footer open. */
  lemma WhatsAppLinkValue()
    ensures WhatsAppLink() == "https://wa.me/919000012345"
  {
    var digits := StripNonDigits(WhatsAppNumber);
    WhatsAppLinkDigits();
    assert WhatsAppLink() == "https://wa.me/" + digits;
    WaMePrefix();
  }

  // ---------------------------------------------------------------------
  // Image fallbacks: `a?.img || b?.img || "…"`
  // ---------------------------------------------------------------------

  const DefaultHeroImg := "https://images.unsplash.com/photo-1622880833523-7cf1c0bd4296"
  const DefaultChefImg := "https://images.unsplash.com/photo-1572552635104-daf938e0aa1f"

  /**
   * The value of `c0 || c1 || … || fallback` over strings: the first
   * candidate that is not empty (an absent `?.img` is `undefined`, which the
   * model writes as ""), else the fallback.
   */
  function FirstTruthy(cands: seq<string>, fallback: string): (r: string)
    ensures (forall i :: 0 <= i < |cands| ==> cands[i] == "") ==> r == fallback
    ensures (exists i :: 0 <= i < |cands| && cands[i] != "") ==>
      exists i :: 0 <= i < |cands| && r == cands[i] && r != "" && forall j :: 0 <= j < i ==> cands[j] == ""
  {
    if cands == [] then fallback
    else if cands[0] != "" then cands[0]
    else
      var r := FirstTruthy(cands[1..], fallback);
      assert (exists i :: 0 <= i < |cands| && cands[i] != "") ==>
        exists i :: 0 <= i < |cands| && r == cands[i] && r != "" && forall j :: 0 <= j < i ==> cands[j] == "" by {
        if exists i :: 0 <= i < |cands| && cands[i] != "" {
          var k :| 0 <= k < |cands| && cands[k] != "";
          assert cands[1..][k - 1] != "";
          var i :| 0 <= i < |cands| - 1 && r == cands[1..][i] && r != "" && forall j :: 0 <= j < i ==> cands[1..][j] == "";
          assert cands[i + 1] == r;
          assert forall j :: 0 <= j < i + 1 ==> cands[j] == "" by {
            forall j | 0 <= j < i + 1 ensures cands[j] == "" {
              if j > 0 { assert cands[j] == cands[1..][j - 1]; }
            }
          }
        }
      }
      r
  }

  /** `xs[i]?.img`: the image of the i-th entry, "" when there is none. */
  function TimelineImgAt(t: seq<TimelineEntry>, i: nat): string
  {
    if i < |t| then t[i].img else ""
  }

  function MenuImgAt(m: seq<MenuItem>, i: nat): string
  {
    if i < |m| then m[i].img else ""
  }

  /** The hero picture: the third timeline image, else the first menu image, else the default. */
  function HeroImage(timeline: seq<TimelineEntry>, menu: seq<MenuItem>): string
  {
    FirstTruthy([TimelineImgAt(timeline, 2), MenuImgAt(menu, 0)], DefaultHeroImg)
  }

  /** The about-section picture: the first timeline image, else the default. */
  function ChefImage(timeline: seq<TimelineEntry>): string
  {
    FirstTruthy([TimelineImgAt(timeline, 0)], DefaultChefImg)
  }

  lemma HeroImageChoice(timeline: seq<TimelineEntry>, menu: seq<MenuItem>)
    ensures HeroImage(timeline, menu) != ""
    ensures |timeline| > 2 && timeline[2].img != "" ==> HeroImage(timeline, menu) == timeline[2].img
    ensures (|timeline| <= 2 || timeline[2].img == "") && |menu| > 0 && menu[0].img != "" ==>
      HeroImage(timeline, menu) == menu[0].img
    ensures (|timeline| <= 2 || timeline[2].img == "") && (|menu| == 0 || menu[0].img == "") ==>
      HeroImage(timeline, menu) == DefaultHeroImg
  {
    var first, second := TimelineImgAt(timeline, 2), MenuImgAt(menu, 0);
    assert [first, second][1..] == [second];
    assert [second][1..] == [];
    assert FirstTruthy([second], DefaultHeroImg) == if second != "" then second else DefaultHeroImg;
  }

  lemma ChefImageChoice(timeline: seq<TimelineEntry>)
    ensures ChefImage(timeline) != ""
    ensures |timeline| > 0 && timeline[0].img != "" ==> ChefImage(timeline) == timeline[0].img
    ensures (|timeline| == 0 || timeline[0].img == "") ==> ChefImage(timeline) == DefaultChefImg
  {
  }
}
