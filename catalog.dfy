/**
 * The catalogue query of the storefront's main page: the products that pass the
 * category, platform and free-text filters, ordered by the chosen sort key.
 */
module Catalog {

  /** A catalogue entry, restricted to the fields the query and the cart read. */
  datatype Product = Product(
    id: int,
    name: string,
    game: string,
    category: string,
    platform: string,
    price: int,
    popular: bool)

  /** The filter selections and search text of the catalogue view. */
  datatype Selection = Selection(category: string, platform: string, search: string, sortBy: string)

  /** Sentinel category that lets every category through. */
  const AllCategories: string := "Все категории"
  /** Sentinel platform that lets every platform through. */
  const AllPlatforms: string := "all"

  const Popular: string := "popular"
  const PriceLow: string := "price-low"
  const PriceHigh: string := "price-high"

  /** The selection the view starts with. */
  const InitialSelection: Selection := Selection(AllCategories, AllPlatforms, "", Popular)

  // ---------------------------------------------------------------------------
  // Case folding and substring search
  // ---------------------------------------------------------------------------

  /** Lower-casing of one character: ASCII and the basic Cyrillic alphabet. */
  function LowerChar(c: char): (r: char)
    ensures !('A' <= r <= 'Z') && !('А' <= r <= 'Я') && r != 'Ё'
    ensures r == c || ('A' <= c <= 'Z') || ('А' <= c <= 'Я') || c == 'Ё'
    ensures 'A' <= c <= 'Z' ==> 'a' <= r <= 'z' && r as int - 'a' as int == c as int - 'A' as int
    ensures 'А' <= c <= 'Я' ==> 'а' <= r <= 'я' && r as int - 'а' as int == c as int - 'А' as int
    ensures c == 'Ё' ==> r == 'ё'
  {
    if 'A' <= c <= 'Z' then (c as int + 32) as char
    else if 'А' <= c <= 'Я' then (c as int + 32) as char
    else if c == 'Ё' then 'ё'
    else c
  }

  /** `toLowerCase` on a string, character by character. */
  function Lower(s: string): (r: string)
    ensures |r| == |s|
    ensures forall i :: 0 <= i < |s| ==> r[i] == LowerChar(s[i])
  {
    seq(|s|, i requires 0 <= i < |s| => LowerChar(s[i]))
  }

  /** Lower-casing twice is lower-casing once. */
  lemma LowerIdempotent(s: string)
    ensures Lower(Lower(s)) == Lower(s)
  {
  }

  /** `hay.includes(needle)`: scans the positions of `hay` for a prefix equal to `needle`. */
  predicate Includes(hay: string, needle: string)
    decreases |hay|
  {
    needle <= hay || (hay != [] && Includes(hay[1..], needle))
  }

  /** `needle` occurs in `hay` starting at position `i`. */
  predicate OccursAt(hay: string, needle: string, i: int)
  {
    0 <= i && i + |needle| <= |hay| && hay[i..i + |needle|] == needle
  }

  /** An occurrence one position further in `hay` is an occurrence in its tail. */
  lemma OccursShift(hay: string, needle: string, i: int)
    requires hay != [] && i >= 0
    ensures OccursAt(hay, needle, i + 1) <==> OccursAt(hay[1..], needle, i)
  {
    if 0 <= i && i + |needle| <= |hay[1..]| {
      assert hay[1..][i..i + |needle|] == hay[i + 1..i + 1 + |needle|];
    }
  }

  /** The scan finds `needle` exactly when it occurs somewhere in `hay`. */
  lemma {:induction false} IncludesIffOccurs(hay: string, needle: string)
    ensures Includes(hay, needle) <==> exists i :: OccursAt(hay, needle, i)
    decreases |hay|
  {
    if needle <= hay {
      assert OccursAt(hay, needle, 0);
    }
    if hay != [] {
      IncludesIffOccurs(hay[1..], needle);
      if Includes(hay[1..], needle) {
        var i :| OccursAt(hay[1..], needle, i);
        OccursShift(hay, needle, i);
      }
      forall i | OccursAt(hay, needle, i) && i > 0 ensures Includes(hay[1..], needle) {
        OccursShift(hay, needle, i - 1);
      }
    }
  }

  /** The empty string is found in every string. */
  lemma IncludesEmpty(hay: string)
    ensures Includes(hay, "")
  {
  }

  // ---------------------------------------------------------------------------
  // Filtering
  // ---------------------------------------------------------------------------

  predicate MatchesCategory(p: Product, category: string)
  {
    category == AllCategories || p.category == category
  }

  predicate MatchesPlatform(p: Product, platform: string)
  {
    platform == AllPlatforms || p.platform == platform
  }

  /** Case-insensitive substring match on the game title or the product name. */
  predicate MatchesSearch(p: Product, search: string)
  {
    Includes(Lower(p.game), Lower(search)) || Includes(Lower(p.name), Lower(search))
  }

  /** The filter callback: all three checks must pass. */
  predicate Matches(p: Product, sel: Selection)
  {
    MatchesCategory(p, sel.category) && MatchesPlatform(p, sel.platform) && MatchesSearch(p, sel.search)
  }

  /** `products.filter(...)`: the matching products, in catalogue order. */
  function Filter(products: seq<Product>, sel: Selection): (r: seq<Product>)
    ensures forall x :: x in r <==> x in products && Matches(x, sel)
    ensures forall x :: multiset(r)[x] == if Matches(x, sel) then multiset(products)[x] else 0
    ensures |r| <= |products|
  {
    if products == [] then []
    else
      var rest := Filter(products[1..], sel);
      assert products == [products[0]] + products[1..];
      if Matches(products[0], sel) then [products[0]] + rest else rest
  }

  /** Filtering keeps relative order: it distributes over concatenation. */
  lemma {:induction false} FilterConcat(a: seq<Product>, b: seq<Product>, sel: Selection)
    ensures Filter(a + b, sel) == Filter(a, sel) + Filter(b, sel)
  {
    if a != [] {
      assert (a + b)[1..] == a[1..] + b;
      FilterConcat(a[1..], b, sel);
    } else {
      assert a + b == b;
    }
  }

  /** With both sentinels and an empty search text every product is shown, in order. */
  lemma {:induction false} FilterEverything(products: seq<Product>, sortBy: string)
    ensures Filter(products, Selection(AllCategories, AllPlatforms, "", sortBy)) == products
  {
    if products != [] {
      IncludesEmpty(Lower(products[0].game));
      FilterEverything(products[1..], sortBy);
    }
  }

  /** A concrete category selection keeps only products of that category. */
  lemma FilterByCategory(products: seq<Product>, sel: Selection)
    requires sel.category != AllCategories
    ensures forall x :: x in Filter(products, sel) ==> x.category == sel.category
  {
  }

  // ---------------------------------------------------------------------------
  // Sorting
  // ---------------------------------------------------------------------------

  /** The comparator passed to `sort`. */
  function Compare(sortBy: string, a: Product, b: Product): (r: int)
    ensures sortBy == Popular ==> r != 0
    ensures sortBy == PriceLow ==> (r <= 0 <==> a.price <= b.price) && (r == 0 <==> a.price == b.price)
    ensures sortBy == PriceHigh ==> (r <= 0 <==> a.price >= b.price) && (r == 0 <==> a.price == b.price)
    ensures sortBy != Popular && !ByPrice(sortBy) ==> r == 0
  {
    if sortBy == Popular then (if b.popular then 1 else -1)
    else if sortBy == PriceLow then a.price - b.price
    else if sortBy == PriceHigh then b.price - a.price
    else 0
  }

  /** The sort keys whose comparator is a consistent ordering. */
  predicate ByPrice(sortBy: string)
  {
    sortBy == PriceLow || sortBy == PriceHigh
  }

  /** Insert `x` before the first element it does not compare greater than. */
  function Insert(sortBy: string, x: Product, sorted: seq<Product>): (r: seq<Product>)
    ensures multiset(r) == multiset(sorted) + multiset{x}
  {
    if sorted == [] then [x]
    else if Compare(sortBy, x, sorted[0]) <= 0 then [x] + sorted
    else
      assert sorted == [sorted[0]] + sorted[1..];
      [sorted[0]] + Insert(sortBy, x, sorted[1..])
  }

  /**
   * `Array.prototype.sort` with the comparator above, as a stable insertion sort:
   * every element is placed after the elements that precede it in the input and
   * compare equal to it.
   */
  function Sort(sortBy: string, s: seq<Product>): (r: seq<Product>)
    ensures multiset(r) == multiset(s)
  {
    if s == [] then []
    else
      assert s == [s[0]] + s[1..];
      Insert(sortBy, s[0], Sort(sortBy, s[1..]))
  }

  /** Every pair of positions is in comparator order. */
  predicate SortedBy(sortBy: string, s: seq<Product>)
  {
    forall i, j :: 0 <= i < j < |s| ==> Compare(sortBy, s[i], s[j]) <= 0
  }

  /** Inserting adds `x` and nothing else. */
  lemma InsertMembers(sortBy: string, x: Product, s: seq<Product>)
    ensures forall y :: y in Insert(sortBy, x, s) <==> y in s || y == x
  {
    var r := Insert(sortBy, x, s);
    assert forall y :: y in r <==> y in multiset(r);
    assert forall y :: y in s <==> y in multiset(s);
  }

  /** In a sorted sequence the head is in order with every later element. */
  lemma SortedHead(sortBy: string, s: seq<Product>)
    requires s != [] && SortedBy(sortBy, s)
    ensures forall y :: y in s[1..] ==> Compare(sortBy, s[0], y) <= 0
  {
    forall y | y in s[1..] ensures Compare(sortBy, s[0], y) <= 0 {
      var k :| 0 <= k < |s[1..]| && s[1..][k] == y;
      assert s[k + 1] == y;
    }
  }

  /** A head in order with every element of a sorted tail gives a sorted sequence. */
  lemma SortedCons(sortBy: string, h: Product, t: seq<Product>)
    requires SortedBy(sortBy, t) && forall y :: y in t ==> Compare(sortBy, h, y) <= 0
    ensures SortedBy(sortBy, [h] + t)
  {
    var r := [h] + t;
    forall i, j | 0 <= i < j < |r| ensures Compare(sortBy, r[i], r[j]) <= 0 {
      assert r[j] == t[j - 1];
      if i > 0 {
        assert r[i] == t[i - 1];
      }
    }
  }

  lemma {:induction false} InsertSorted(sortBy: string, x: Product, s: seq<Product>)
    requires ByPrice(sortBy) && SortedBy(sortBy, s)
    ensures SortedBy(sortBy, Insert(sortBy, x, s))
  {
    if s == [] {
      assert Insert(sortBy, x, s) == [x];
    } else if Compare(sortBy, x, s[0]) <= 0 {
      SortedHead(sortBy, s);
      SortedCons(sortBy, x, s);
      assert s == [s[0]] + s[1..];
      forall y | y in s ensures Compare(sortBy, x, y) <= 0 {
        if y != s[0] {
          assert y in s[1..];
        }
      }
    } else {
      SortedBy1(sortBy, s);
      InsertSorted(sortBy, x, s[1..]);
      var t := Insert(sortBy, x, s[1..]);
      SortedHead(sortBy, s);
      InsertMembers(sortBy, x, s[1..]);
      SortedCons(sortBy, s[0], t);
    }
  }

  /** The tail of a sorted sequence is sorted. */
  lemma SortedBy1(sortBy: string, s: seq<Product>)
    requires s != [] && SortedBy(sortBy, s)
    ensures SortedBy(sortBy, s[1..])
  {
    forall i, j | 0 <= i < j < |s[1..]| ensures Compare(sortBy, s[1..][i], s[1..][j]) <= 0 {
      assert s[1..][i] == s[i + 1] && s[1..][j] == s[j + 1];
    }
  }

  lemma {:induction false} SortSorted(sortBy: string, s: seq<Product>)
    requires ByPrice(sortBy)
    ensures SortedBy(sortBy, Sort(sortBy, s))
  {
    if s != [] {
      SortSorted(sortBy, s[1..]);
      InsertSorted(sortBy, s[0], Sort(sortBy, s[1..]));
    }
  }

  /** The products of `s` with price `p`, in order. */
  function WithPrice(s: seq<Product>, p: int): (r: seq<Product>)
  {
    if s == [] then []
    else if s[0].price == p then [s[0]] + WithPrice(s[1..], p)
    else WithPrice(s[1..], p)
  }

  lemma {:induction false} WithPriceConcat(a: seq<Product>, b: seq<Product>, p: int)
    ensures WithPrice(a + b, p) == WithPrice(a, p) + WithPrice(b, p)
  {
    if a == [] {
      assert a + b == b;
    } else {
      assert (a + b)[0] == a[0];
      assert (a + b)[1..] == a[1..] + b;
      WithPriceConcat(a[1..], b, p);
      if a[0].price == p {
        assert WithPrice(a + b, p) == [a[0]] + (WithPrice(a[1..], p) + WithPrice(b, p));
      }
    }
  }

  lemma {:induction false} InsertStable(sortBy: string, x: Product, s: seq<Product>, p: int)
    requires ByPrice(sortBy)
    ensures WithPrice(Insert(sortBy, x, s), p) == WithPrice([x] + s, p)
  {
    if s != [] && Compare(sortBy, x, s[0]) > 0 {
      var h, t := s[0], s[1..];
      assert [h] + t == s;
      var a, b, c := WithPrice([h], p), WithPrice([x], p), WithPrice(t, p);
      InsertStable(sortBy, x, t, p);
      WithPriceConcat([x], t, p);
      WithPriceConcat([h], Insert(sortBy, x, t), p);
      assert WithPrice(Insert(sortBy, x, s), p) == a + (b + c);
      WithPriceConcat([h], t, p);
      WithPriceConcat([x], s, p);
      assert WithPrice([x] + s, p) == b + (a + c);
      if h.price == p {
        assert b == [];
      } else {
        assert a == [];
      }
    }
  }

  /** Sorting by price is stable: products of equal price keep their input order. */
  lemma {:induction false} SortStable(sortBy: string, s: seq<Product>, p: int)
    requires ByPrice(sortBy)
    ensures WithPrice(Sort(sortBy, s), p) == WithPrice(s, p)
  {
    if s != [] {
      SortStable(sortBy, s[1..], p);
      InsertStable(sortBy, s[0], Sort(sortBy, s[1..]), p);
      WithPriceConcat([s[0]], Sort(sortBy, s[1..]), p);
      WithPriceConcat([s[0]], s[1..], p);
      assert s == [s[0]] + s[1..];
    }
  }

  /** A key the comparator does not recognise leaves the order unchanged. */
  lemma {:induction false} SortUnknownKey(sortBy: string, s: seq<Product>)
    requires sortBy != Popular && !ByPrice(sortBy)
    ensures Sort(sortBy, s) == s
  {
    if s != [] {
      SortUnknownKey(sortBy, s[1..]);
      assert s == [s[0]] + s[1..];
    }
  }

  // ---------------------------------------------------------------------------
  // The whole query
  // ---------------------------------------------------------------------------

  /** `filteredProducts`: filter, then sort. */
  function FilteredProducts(products: seq<Product>, sel: Selection): (r: seq<Product>)
    ensures forall x :: x in r <==> x in products && Matches(x, sel)
  {
    var f := Filter(products, sel);
    var r := Sort(sel.sortBy, f);
    assert forall x :: x in r <==> x in multiset(f);
    r
  }

  /** What the page promises about each sort key. */
  lemma FilteredProductsOrder(products: seq<Product>, sel: Selection)
    ensures var r := FilteredProducts(products, sel);
      && multiset(r) == multiset(Filter(products, sel))
      && (sel.sortBy == PriceLow ==> forall i, j :: 0 <= i < j < |r| ==> r[i].price <= r[j].price)
      && (sel.sortBy == PriceHigh ==> forall i, j :: 0 <= i < j < |r| ==> r[i].price >= r[j].price)
      && (ByPrice(sel.sortBy) ==> forall p :: WithPrice(r, p) == WithPrice(Filter(products, sel), p))
      && (sel.sortBy != Popular && !ByPrice(sel.sortBy) ==> r == Filter(products, sel))
  {
    var f := Filter(products, sel);
    if ByPrice(sel.sortBy) {
      SortSorted(sel.sortBy, f);
      forall p ensures WithPrice(Sort(sel.sortBy, f), p) == WithPrice(f, p) {
        SortStable(sel.sortBy, f, p);
      }
    } else if sel.sortBy != Popular {
      SortUnknownKey(sel.sortBy, f);
    }
  }

  /** The initial view shows the whole catalogue (as a multiset). */
  lemma InitialViewShowsAll(products: seq<Product>)
    ensures multiset(FilteredProducts(products, InitialSelection)) == multiset(products)
  {
    FilterEverything(products, Popular);
  }

  /** "wow" occurs nowhere in `s`. */
  ghost predicate LacksWow(s: string)
  {
    forall i :: !OccursAt(s, "wow", i)
  }

  lemma GameLacksWow()
    ensures LacksWow(Lower("World of Warcraft"))
  {
    var g := Lower("World of Warcraft");
    assert g == "world of warcraft";
    forall i ensures !OccursAt(g, "wow", i) {
      if 0 <= i && i + 3 <= |g| {
        assert g[i..i + 3][0] == g[i] && g[i..i + 3][2] == g[i + 2];
      }
    }
  }

  lemma NameLacksWow()
    ensures LacksWow(Lower("Gold"))
  {
    var n := Lower("Gold");
    assert n == "gold";
    forall i ensures !OccursAt(n, "wow", i) {
      if 0 <= i && i + 3 <= |n| {
        assert n[i..i + 3][0] == n[i];
      }
    }
  }

  /** Search is a substring match: "wow" does not match through the game title "World of Warcraft". */
  lemma SearchIsSubstring()
    ensures !MatchesSearch(Product(1, "Gold", "World of Warcraft", "MMORPG", "PC", 799, true), "wow")
  {
    assert Lower("wow") == "wow";
    GameLacksWow();
    NameLacksWow();
    IncludesIffOccurs(Lower("World of Warcraft"), "wow");
    IncludesIffOccurs(Lower("Gold"), "wow");
  }

  /** Search ignores case: "WARCRAFT" finds the game title "World of Warcraft". */
  lemma SearchIgnoresCase()
    ensures MatchesSearch(Product(1, "Gold", "World of Warcraft", "MMORPG", "PC", 799, true), "WARCRAFT")
  {
    var g := Lower("World of Warcraft");
    assert g == "world of warcraft";
    assert Lower("WARCRAFT") == "warcraft";
    assert OccursAt(g, "warcraft", 9);
    IncludesIffOccurs(g, "warcraft");
  }

  /** The sort example: prices [1499, 799, 1299] in ascending order. */
  lemma SortExampleLow()
    ensures var a := Product(1, "a", "a", "c", "PC", 1499, false);
      var b := Product(2, "b", "b", "c", "PC", 799, false);
      var c := Product(3, "c", "c", "c", "PC", 1299, false);
      Sort(PriceLow, [a, b, c]) == [b, c, a]
  {
    var a := Product(1, "a", "a", "c", "PC", 1499, false);
    var b := Product(2, "b", "b", "c", "PC", 799, false);
    var c := Product(3, "c", "c", "c", "PC", 1299, false);
    assert [a, b, c][1..] == [b, c] && [b, c][1..] == [c];
    assert Sort(PriceLow, [b, c]) == [b, c] by {
      assert Sort(PriceLow, [c]) == [c];
    }
    assert Insert(PriceLow, a, [b, c]) == [b, c, a] by {
      assert Insert(PriceLow, a, [c]) == [c, a];
    }
  }

  /** The same prices in descending order. */
  lemma SortExampleHigh()
    ensures var a := Product(1, "a", "a", "c", "PC", 1499, false);
      var b := Product(2, "b", "b", "c", "PC", 799, false);
      var c := Product(3, "c", "c", "c", "PC", 1299, false);
      Sort(PriceHigh, [a, b, c]) == [a, c, b]
  {
    var a := Product(1, "a", "a", "c", "PC", 1499, false);
    var b := Product(2, "b", "b", "c", "PC", 799, false);
    var c := Product(3, "c", "c", "c", "PC", 1299, false);
    assert [a, b, c][1..] == [b, c] && [b, c][1..] == [c];
    assert Sort(PriceHigh, [b, c]) == [c, b] by {
      assert Sort(PriceHigh, [c]) == [c];
      assert Insert(PriceHigh, b, [c]) == [c, b];
    }
  }
}
