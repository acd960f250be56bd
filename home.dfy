/**
 * The home page: four featured categories, the first four catalogue products
 * of each, and a link per category to its marketplace filter.
 */
module Home {
  import opened Common
  import opened Text
  import Marketplace

  const Categories: seq<string> := ["Kitchen Essentials", "Furniture", "Electronics", "Study Materials"]

  const FeaturedPerCategory := 4

  /** `products.filter(product => product.category === category)`. */
  function WithCategory(products: seq<Item>, c: string): (r: seq<Item>)
    ensures |r| <= |products|
    ensures forall x :: x in r <==> x in products && x.category == c
  {
    if products == [] then []
    else (if products[0].category == c then [products[0]] else []) + WithCategory(products[1..], c)
  }

  /** `getCategoryProducts`: the matches, cut to the first four. */
  function CategoryProducts(products: seq<Item>, c: string): (r: seq<Item>)
  {
    var matches := WithCategory(products, c);
    if |matches| <= FeaturedPerCategory then matches else matches[..FeaturedPerCategory]
  }

  /**
   * At most four products, each of exactly the requested category, forming a
   * prefix of the catalogue-ordered matches; when fewer than four match, all do.
   */
  lemma CategoryProductsSpec(products: seq<Item>, c: string)
    ensures |CategoryProducts(products, c)| <= FeaturedPerCategory
    ensures forall x :: x in CategoryProducts(products, c) ==> x in products && x.category == c
    ensures CategoryProducts(products, c) <= WithCategory(products, c)
    ensures |WithCategory(products, c)| <= FeaturedPerCategory ==>
              CategoryProducts(products, c) == WithCategory(products, c)
    ensures |WithCategory(products, c)| >= FeaturedPerCategory ==>
              |CategoryProducts(products, c)| == FeaturedPerCategory
  {
    var r := CategoryProducts(products, c);
    forall x | x in r ensures x in WithCategory(products, c) {
      var i :| 0 <= i < |r| && r[i] == x;
      assert WithCategory(products, c)[i] == x;
    }
  }

  /** The matcher keeps catalogue order: it works piecewise on a concatenation. */
  lemma {:induction false} WithCategoryAppend(a: seq<Item>, b: seq<Item>, c: string)
    ensures WithCategory(a + b, c) == WithCategory(a, c) + WithCategory(b, c)
  {
    if a == [] {
      assert a + b == b;
    } else {
      assert (a + b)[0] == a[0];
      assert (a + b)[1..] == a[1..] + b;
      WithCategoryAppend(a[1..], b, c);
    }
  }

  /** A product appended after the first four matches never shows on the home page. */
  lemma LaterProductsNotFeatured(products: seq<Item>, more: seq<Item>, c: string)
    requires |WithCategory(products, c)| >= FeaturedPerCategory
    ensures CategoryProducts(products + more, c) == CategoryProducts(products, c)
  {
    WithCategoryAppend(products, more, c);
    var m := WithCategory(products, c);
    assert (m + WithCategory(more, c))[..FeaturedPerCategory] == m[..FeaturedPerCategory];
  }

  /** The marketplace route each category card links to. */
  function CategoryLink(c: string): (l: string)
    ensures |l| >= 13 && l[..13] == "/marketplace/" && l[13..] == Marketplace.Slug(c)
  {
    "/marketplace/" + Marketplace.Slug(c)
  }

  /**
   * A product shown under a category card is also listed by the marketplace
   * page its link leads to: the route parameter after "/marketplace/" filters
   * the same catalogue down to a list that still holds the product.
   */
  lemma ExactMatchesPassSlugFilter(products: seq<Item>, c: string)
    ensures forall x :: x in WithCategory(products, c) ==>
              x in Marketplace.Filtered(products, Some(CategoryLink(c)[13..]))
  {
  }

  /**
   * Every featured category is one of the marketplace's categories, and its
   * link leads to a route that filters (its slug is neither empty nor "all").
   */
  lemma HomeLinksNameMarketplaceFilters()
    ensures forall c :: c in Categories ==> c in Marketplace.Categories
    ensures forall c :: c in Categories ==>
              Marketplace.Slug(c) != "" && Marketplace.Slug(c) != "all"
  {
    forall c | c in Categories ensures Marketplace.Slug(c) != "" && Marketplace.Slug(c) != "all" {
      if c == "Kitchen Essentials" {
        KitchenEssentialsSlug();
      } else if c == "Study Materials" {
        StudyMaterialsSlug();
      } else if c == "Furniture" {
        FurnitureSlug();
      } else {
        ElectronicsSlug();
      }
    }
  }

  /** The link of "Kitchen Essentials". */
  lemma KitchenEssentialsSlug()
    ensures Marketplace.Slug("Kitchen Essentials") == "kitchen-essentials"
  {
    assert "Kitchen" + " " + "Essentials" == "Kitchen Essentials";
    Marketplace.TwoWordSlug("Kitchen", "Essentials");
    LowerKitchenEssentials();
  }

  lemma LowerKitchenEssentials()
    ensures Lower("Kitchen") + "-" + Lower("Essentials") == "kitchen-essentials"
  {
  }

  lemma StudyMaterialsSlug()
    ensures Marketplace.Slug("Study Materials") == "study-materials"
  {
    assert "Study" + " " + "Materials" == "Study Materials";
    Marketplace.TwoWordSlug("Study", "Materials");
    LowerStudyMaterials();
  }

  lemma LowerStudyMaterials()
    ensures Lower("Study") + "-" + Lower("Materials") == "study-materials"
  {
  }

  lemma FurnitureSlug()
    ensures Marketplace.Slug("Furniture") == "furniture"
  {
    Marketplace.OneWordSlug("Furniture");
    LowerFurniture();
  }

  lemma LowerFurniture()
    ensures Lower("Furniture") == "furniture"
  {
  }

  lemma ElectronicsSlug()
    ensures Marketplace.Slug("Electronics") == "electronics"
  {
    Marketplace.OneWordSlug("Electronics");
    LowerElectronics();
  }

  lemma LowerElectronics()
    ensures Lower("Electronics") == "electronics"
  {
  }
}
