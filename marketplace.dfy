/**
 * The marketplace page: the category slug rule, filtering the catalogue by
 * the category in the route, pagination eight products at a time with
 * clamped Previous/Next controls, and the Add-to-Cart guard.
 */
module Marketplace {
  import opened Common
  import opened Text
  import CartContext

  const Categories: seq<string> :=
    ["Kitchen Essentials", "Furniture", "Electronics", "Study Materials", "Dorm Supplies", "Textbooks"]

  const ItemsPerPage := 8

  // ------------------------------------------------------------------- slugs

  /**
   * `s.replace(/\s+/g, '-')`: every maximal run of whitespace becomes one dash.
   * Written as a scan that remembers whether the previous character was
   * whitespace; `inRun` is false at the start of the string.
   */
  function ReplaceRuns(s: string, inRun: bool): (r: string)
    ensures |r| <= |s|
  {
    if s == [] then []
    else if IsSpace(s[0]) then (if inRun then [] else "-") + ReplaceRuns(s[1..], true)
    else [s[0]] + ReplaceRuns(s[1..], false)
  }

  /** `s.replace(/\s+/g, '-')` from the start of the string: no whitespace survives, and a string without any is kept. */
  function ReplaceSpaceRuns(s: string): (r: string)
    ensures |r| <= |s|
    ensures forall i :: 0 <= i < |r| ==> !IsSpace(r[i])
    ensures (forall i :: 0 <= i < |s| ==> !IsSpace(s[i])) ==> r == s
  {
    ReplaceRunsShape(s, false);
    if forall i :: 0 <= i < |s| ==> !IsSpace(s[i]) then
      ReplaceRunsNoSpace(s, false);
      ReplaceRuns(s, false)
    else
      ReplaceRuns(s, false)
  }

  /** `category.toLowerCase().replace(/\s+/g, '-')`. */
  function Slug(s: string): (r: string)
  {
    ReplaceSpaceRuns(Lower(s))
  }

  /** The replacement leaves no whitespace, and lets through only dashes and characters of its input. */
  lemma {:induction false} ReplaceRunsShape(s: string, inRun: bool)
    ensures forall i :: 0 <= i < |ReplaceRuns(s, inRun)| ==> !IsSpace(ReplaceRuns(s, inRun)[i])
    ensures forall i :: 0 <= i < |ReplaceRuns(s, inRun)| ==>
              ReplaceRuns(s, inRun)[i] == '-' || ReplaceRuns(s, inRun)[i] in s
  {
    if s != [] {
      ReplaceRunsShape(s[1..], IsSpace(s[0]));
    }
  }

  /** A slug holds no whitespace and no upper-case letter. */
  lemma SlugShape(s: string)
    ensures forall i :: 0 <= i < |Slug(s)| ==> !IsSpace(Slug(s)[i]) && !IsUpper(Slug(s)[i])
  {
    var l := Lower(s);
    ReplaceRunsShape(l, false);
    forall i | 0 <= i < |Slug(s)| ensures !IsUpper(Slug(s)[i]) {
      if Slug(s)[i] != '-' {
        var k :| 0 <= k < |l| && l[k] == Slug(s)[i];
      }
    }
  }

  /** A string without whitespace goes through the replacement untouched. */
  lemma {:induction false} ReplaceRunsNoSpace(s: string, inRun: bool)
    requires forall i :: 0 <= i < |s| ==> !IsSpace(s[i])
    ensures ReplaceRuns(s, inRun) == s
  {
    if s != [] {
      ReplaceRunsNoSpace(s[1..], false);
    }
  }

  /** Replacement works piecewise across a boundary where `a` ends in a non-space. */
  lemma {:induction false} ReplaceRunsAppend(a: string, b: string, inRun: bool)
    requires a != [] && !IsSpace(a[|a| - 1])
    ensures ReplaceRuns(a + b, inRun) == ReplaceRuns(a, inRun) + ReplaceRuns(b, false)
  {
    assert (a + b)[0] == a[0];
    if |a| == 1 {
      assert (a + b)[1..] == b;
    } else {
      assert (a + b)[1..] == a[1..] + b;
      ReplaceRunsAppend(a[1..], b, IsSpace(a[0]));
    }
  }

  /** A whitespace run followed by a non-space (or nothing) collapses to a single dash. */
  lemma {:induction false} RunBecomesDash(w: string, y: string, inRun: bool)
    requires w != [] && IsBlank(w)
    requires y == [] || !IsSpace(y[0])
    ensures ReplaceRuns(w + y, inRun) == (if inRun then [] else "-") + ReplaceRuns(y, false)
  {
    assert (w + y)[0] == w[0];
    assert (w + y)[1..] == w[1..] + y;
    if w[1..] == [] {
      assert w[1..] + y == y;
      if y != [] {
        assert ReplaceRuns(y, true) == ReplaceRuns(y, false);
      }
    } else {
      RunBecomesDash(w[1..], y, true);
    }
  }

  lemma {:induction false} LowerAppend(a: string, b: string)
    ensures Lower(a + b) == Lower(a) + Lower(b)
  {
    assert forall i :: 0 <= i < |a + b| ==> Lower(a + b)[i] == (Lower(a) + Lower(b))[i];
  }

  /** Lower-casing keeps whitespace where it was, so a run stays a run. */
  lemma LowerKeepsBlank(w: string)
    requires IsBlank(w)
    ensures IsBlank(Lower(w))
  {
    var l := Lower(w);
    forall i | 0 <= i < |l| ensures IsSpace(l[i]) {
      assert l[i] == LowerChar(w[i]);
    }
  }

  /** Replacement on `x`, a whitespace run, then `y`: the two replacements joined by one dash. */
  lemma RunJoinsWithDash(x: string, w: string, y: string)
    requires x == [] || !IsSpace(x[|x| - 1])
    requires w != [] && IsBlank(w)
    requires y == [] || !IsSpace(y[0])
    ensures ReplaceSpaceRuns(x + w + y) == ReplaceSpaceRuns(x) + "-" + ReplaceSpaceRuns(y)
  {
    ReplaceRunsJoin(x, w, y);
  }

  lemma ReplaceRunsJoin(x: string, w: string, y: string)
    requires x == [] || !IsSpace(x[|x| - 1])
    requires w != [] && IsBlank(w)
    requires y == [] || !IsSpace(y[0])
    ensures ReplaceRuns(x + w + y, false) == ReplaceRuns(x, false) + "-" + ReplaceRuns(y, false)
  {
    var ry := ReplaceRuns(y, false);
    RunBecomesDash(w, y, false);
    assert ReplaceRuns(w + y, false) == "-" + ry;
    assert x + w + y == x + (w + y);
    if x == [] {
      assert x + (w + y) == w + y;
      assert ReplaceRuns(x, false) == [];
    } else {
      var rx := ReplaceRuns(x, false);
      ReplaceRunsAppend(x, w + y, false);
      assert rx + ("-" + ry) == rx + "-" + ry;
    }
  }

  /** Lower-casing works piecewise and keeps the shape of a run between two words. */
  lemma LowerKeepsRuns(a: string, w: string, b: string)
    requires a == [] || !IsSpace(a[|a| - 1])
    requires IsBlank(w)
    requires b == [] || !IsSpace(b[0])
    ensures Lower(a + w + b) == Lower(a) + Lower(w) + Lower(b)
    ensures Lower(a) == [] || !IsSpace(Lower(a)[|a| - 1])
    ensures IsBlank(Lower(w))
    ensures Lower(b) == [] || !IsSpace(Lower(b)[0])
  {
    LowerAppend(a + w, b);
    LowerAppend(a, w);
    LowerKeepsBlank(w);
    if a != [] {
      assert Lower(a)[|a| - 1] == LowerChar(a[|a| - 1]);
    }
    if b != [] {
      assert Lower(b)[0] == LowerChar(b[0]);
    }
  }

  /** The slug of `a`, a whitespace run, then `b`: the two slugs joined by one dash. */
  lemma SlugJoinsWithDash(a: string, w: string, b: string)
    requires a == [] || !IsSpace(a[|a| - 1])
    requires w != [] && IsBlank(w)
    requires b == [] || !IsSpace(b[0])
    ensures Slug(a + w + b) == Slug(a) + "-" + Slug(b)
  {
    LowerKeepsRuns(a, w, b);
    RunJoinsWithDash(Lower(a), Lower(w), Lower(b));
  }

  /** A slug is its own slug. */
  lemma {:induction false} SlugIdempotent(s: string)
    ensures Slug(Slug(s)) == Slug(s)
  {
    var t := Slug(s);
    SlugShape(s);
    LowerWordSlug(t);
  }

  /** A word already in lower case and free of whitespace is its own slug. */
  lemma LowerWordSlug(s: string)
    requires forall i :: 0 <= i < |s| ==> !IsSpace(s[i]) && !IsUpper(s[i])
    ensures Slug(s) == s
  {
    assert Lower(s) == s;
    ReplaceRunsNoSpace(s, false);
  }

  /** The slug of a word without whitespace is the word in lower case. */
  lemma OneWordSlug(a: string)
    requires forall i :: 0 <= i < |a| ==> !IsSpace(a[i])
    ensures Slug(a) == Lower(a)
  {
    var l := Lower(a);
    forall i | 0 <= i < |l| ensures !IsSpace(l[i]) {
      assert l[i] == LowerChar(a[i]);
    }
    ReplaceRunsNoSpace(l, false);
  }

  /**
   * The shape of every two-word category: slugging "Aaa Bbb" lower-cases both
   * words and joins them with one dash.
   */
  lemma TwoWordSlug(a: string, b: string)
    requires a != [] && b != []
    requires forall i :: 0 <= i < |a| ==> !IsSpace(a[i])
    requires forall i :: 0 <= i < |b| ==> !IsSpace(b[i])
    ensures Slug(a + " " + b) == Lower(a) + "-" + Lower(b)
  {
    var w := " ";
    assert IsBlank(w) by {
      assert w[0] == ' ';
    }
    assert !IsSpace(a[|a| - 1]) && !IsSpace(b[0]);
    SlugJoinsWithDash(a, w, b);
    OneWordSlug(a);
    OneWordSlug(b);
  }

  // --------------------------------------------------------------- filtering

  /** The products whose slugged category is `slug`, in catalogue order. */
  function WithSlug(products: seq<Item>, slug: string): (r: seq<Item>)
    ensures |r| <= |products|
    ensures forall x :: x in r <==> x in products && Slug(x.category) == slug
  {
    if products == [] then []
    else (if Slug(products[0].category) == slug then [products[0]] else [])
         + WithSlug(products[1..], slug)
  }

  /** Filtering keeps catalogue order: it works piecewise on a concatenation. */
  lemma {:induction false} WithSlugAppend(a: seq<Item>, b: seq<Item>, slug: string)
    ensures WithSlug(a + b, slug) == WithSlug(a, slug) + WithSlug(b, slug)
  {
    if a == [] {
      assert a + b == b;
    } else {
      assert (a + b)[0] == a[0];
      assert (a + b)[1..] == a[1..] + b;
      WithSlugAppend(a[1..], b, slug);
    }
  }

  /** `category === 'all' || !category ? products : products.filter(...)`. */
  function Filtered(products: seq<Item>, category: Option<string>): (r: seq<Item>)
    ensures category == None || category == Some("") || category == Some("all") ==> r == products
    ensures category.Some? && category.value != "" && category.value != "all" ==>
              r == WithSlug(products, category.value)
  {
    match category
    case None => products
    case Some(c) => if c == "all" || c == "" then products else WithSlug(products, c)
  }

  // -------------------------------------------------------------- pagination

  /** `Math.ceil(n / itemsPerPage)`. */
  function TotalPages(n: nat): (r: nat)
    ensures n == 0 <==> r == 0
    ensures r * ItemsPerPage >= n
    ensures r > 0 ==> (r - 1) * ItemsPerPage < n
  {
    (n + ItemsPerPage - 1) / ItemsPerPage
  }

  /** How `Array.prototype.slice` reads an index: negative counts from the end; clamped to the array. */
  function SliceIndex(len: nat, k: int): (r: nat)
    ensures r <= len
  {
    if k < 0 then (if len + k < 0 then 0 else len + k) else if k > len then len else k
  }

  /** `s.slice(start, end)`. */
  function JsSlice<T>(s: seq<T>, start: int, end: int): (r: seq<T>)
    ensures |r| <= |s|
    ensures 0 <= start <= end <= |s| ==> r == s[start..end]
    ensures 0 <= end <= start ==> r == []
  {
    var a, b := SliceIndex(|s|, start), SliceIndex(|s|, end);
    if a < b then s[a..b] else []
  }

  /** `currentProducts`: the slice for page `p` (counted from 1). */
  function Page<T>(list: seq<T>, p: int): (r: seq<T>)
  {
    JsSlice(list, (p - 1) * ItemsPerPage, p * ItemsPerPage)
  }

  /** Pages 1..k put back together. */
  function PagesUpTo<T>(list: seq<T>, k: nat): seq<T>
  {
    if k == 0 then [] else PagesUpTo(list, k - 1) + Page(list, k)
  }

  /** No page holds more than eight items, and every page up to the last one is non-empty. */
  lemma PageBounds<T>(list: seq<T>, p: int)
    requires p >= 1
    ensures |Page(list, p)| <= ItemsPerPage
    ensures p <= TotalPages(|list|) ==> |Page(list, p)| > 0
    ensures p > TotalPages(|list|) ==> Page(list, p) == []
  {
  }

  /** The first k pages are the first 8k items. */
  lemma {:induction false} PagesUpToPrefix<T>(list: seq<T>, k: nat)
    ensures PagesUpTo(list, k) == list[..if k * ItemsPerPage <= |list| then k * ItemsPerPage else |list|]
  {
    if k > 0 {
      PagesUpToPrefix(list, k - 1);
      var lo := if (k - 1) * ItemsPerPage <= |list| then (k - 1) * ItemsPerPage else |list|;
      var hi := if k * ItemsPerPage <= |list| then k * ItemsPerPage else |list|;
      assert Page(list, k) == list[lo..hi];
      assert list[..lo] + list[lo..hi] == list[..hi];
    }
  }

  /** Concatenating pages 1..TotalPages gives back the whole list, in order. */
  lemma PagesCoverList<T>(list: seq<T>)
    ensures PagesUpTo(list, TotalPages(|list|)) == list
  {
    PagesUpToPrefix(list, TotalPages(|list|));
  }

  // -------------------------------------------------------------- the page

  class MarketplacePage {
    /** The cart context the Add-to-Cart button goes to. */
    const carts: CartContext.CartStore
    /** The `:category` route parameter, when present. */
    var category: Option<string>
    var products: seq<Item>
    var currentPage: int

    constructor (carts: CartContext.CartStore, category: Option<string>)
      ensures this.carts == carts && this.category == category
      ensures products == [] && currentPage == 1
    {
      this.carts := carts;
      this.category := category;
      products, currentPage := [], 1;
    }

    function FilteredProducts(): seq<Item>
      reads this
    {
      Filtered(products, category)
    }

    function PageCount(): nat
      reads this
    {
      TotalPages(|FilteredProducts()|)
    }

    function CurrentProducts(): seq<Item>
      reads this
    {
      Page(FilteredProducts(), currentPage)
    }

    /** The products shown: never more than eight, and some whenever the current page is a real one. */
    lemma CurrentProductsBounded()
      ensures currentPage >= 1 ==> |CurrentProducts()| <= ItemsPerPage
      ensures 1 <= currentPage <= PageCount() ==> CurrentProducts() != []
    {
      if currentPage >= 1 {
        PageBounds(FilteredProducts(), currentPage);
      }
    }

    /** The Previous/Next controls are rendered only when there is more than one page. */
    predicate ControlsShown()
      reads this
    {
      PageCount() > 1
    }

    /** The fetch effect: a snapshot with data replaces the products; none leaves them as they are. */
    method LoadProducts(snapshot: Option<seq<(string, ProductRecord)>>)
      modifies this
      ensures snapshot.Some? ==> products == ProductsFromSnapshot(snapshot.value)
      ensures snapshot.None? ==> products == old(products)
      ensures category == old(category) && currentPage == old(currentPage)
    {
      if snapshot.Some? {
        products := ProductsFromSnapshot(snapshot.value);
      }
    }

    /**
     * The route's category becomes `c`. The effect on `[category]` returns to
     * page 1 only when the category actually changed; following a link to the
     * category already shown keeps the page.
     */
    method ChangeCategory(c: Option<string>)
      modifies this
      ensures category == c && products == old(products)
      ensures c != old(category) ==> currentPage == 1
      ensures c == old(category) ==> currentPage == old(currentPage)
    {
      if c != category {
        currentPage := 1;
      }
      category := c;
    }

    /** Previous: `Math.max(prevPage - 1, 1)`. */
    method Prev()
      modifies this
      ensures currentPage == if old(currentPage) - 1 > 1 then old(currentPage) - 1 else 1
      ensures currentPage >= 1
      ensures 1 <= old(currentPage) <= PageCount() ==> currentPage <= PageCount()
      ensures category == old(category) && products == old(products)
    {
      currentPage := if currentPage - 1 > 1 then currentPage - 1 else 1;
    }

    /** Next: `Math.min(prevPage + 1, totalPages)`. */
    method Next()
      modifies this
      ensures currentPage == if old(currentPage) + 1 < PageCount() then old(currentPage) + 1 else PageCount()
      ensures currentPage <= PageCount()
      ensures ControlsShown() && old(currentPage) >= 1 ==> 1 <= currentPage
      ensures category == old(category) && products == old(products)
    {
      currentPage := if currentPage + 1 < PageCount() then currentPage + 1 else PageCount();
    }

    /** `handleAddToCart`: with no user signed in, the cart context is not called. */
    method HandleAddToCart(product: Item, writeOk: bool)
      modifies carts
      ensures carts.user.None? ==> unchanged(carts)
      ensures carts.user == old(carts.user)
      ensures old(carts.user).Some? && !CartContext.HasId(old(carts.cart), product.id) && writeOk ==>
                carts.cart == old(carts.cart) + [product] &&
                carts.store == old(carts.store)[old(carts.user).value := carts.cart]
      ensures CartContext.HasId(old(carts.cart), product.id) || !writeOk ==>
                carts.cart == old(carts.cart) && carts.store == old(carts.store)
      ensures old(carts.Synced()) ==> carts.Synced()
      ensures old(DistinctIds(carts.cart)) ==> DistinctIds(carts.cart)
    {
      if carts.user.None? {
        return;
      }
      carts.Add(product, writeOk);
    }
  }
}
