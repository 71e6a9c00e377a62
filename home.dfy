/**
 * The home page's one piece of logic: the featured selection (the featured
 * products, at most six, in catalog order) and the loading gate that shows a
 * spinner instead of product cards while the catalog is loading.
 */
module Home {
  import opened ProductContext

  /** How many featured products the home page shows at most. */
  const FeaturedLimit := 6

  /** `a` can be obtained from `b` by deleting elements, keeping the order of the rest. */
  predicate IsSubsequence<T(==)>(a: seq<T>, b: seq<T>)
    decreases |b|
  {
    if a == [] then true
    else if b == [] then false
    else if a[0] == b[0] then IsSubsequence(a[1..], b[1..])
    else IsSubsequence(a, b[1..])
  }

  /** `products.filter(p => p.featured)`. */
  function FilterFeatured(products: seq<Product>): (r: seq<Product>)
    ensures |r| <= |products|
    ensures forall i :: 0 <= i < |r| ==> r[i].featured
    ensures forall p :: p in r <==> p in products && p.featured
  {
    if products == [] then []
    else if products[0].featured then [products[0]] + FilterFeatured(products[1..])
    else FilterFeatured(products[1..])
  }

  /** `s.slice(0, n)`: the first n elements, or all of them when there are fewer. */
  function Take<T>(s: seq<T>, n: nat): (r: seq<T>)
    ensures |r| == if |s| <= n then |s| else n
    ensures r == s[..|r|]
  {
    if |s| <= n then s else s[..n]
  }

  /** `featuredProducts`: the first six featured products. */
  function FeaturedProducts(products: seq<Product>): (r: seq<Product>)
    ensures |r| <= FeaturedLimit
    ensures forall i :: 0 <= i < |r| ==> r[i].featured
    ensures |r| <= |FilterFeatured(products)| && r == FilterFeatured(products)[..|r|]
    ensures |FilterFeatured(products)| <= FeaturedLimit ==> r == FilterFeatured(products)
    ensures |FilterFeatured(products)| > FeaturedLimit ==> |r| == FeaturedLimit
  {
    Take(FilterFeatured(products), FeaturedLimit)
  }

  /** Filtering is done element by element: it distributes over concatenation. */
  lemma {:induction false} FilterFeaturedConcat(a: seq<Product>, b: seq<Product>)
    ensures FilterFeatured(a + b) == FilterFeatured(a) + FilterFeatured(b)
  {
    if a != [] {
      assert (a + b)[0] == a[0] && (a + b)[1..] == a[1..] + b;
      FilterFeaturedConcat(a[1..], b);
    } else {
      assert a + b == b;
    }
  }

  /** Dropping unfeatured products keeps the rest in catalog order. */
  lemma {:induction false} FilterFeaturedIsSubsequence(products: seq<Product>)
    ensures IsSubsequence(FilterFeatured(products), products)
  {
    if products != [] {
      FilterFeaturedIsSubsequence(products[1..]);
      if !products[0].featured {
        SubsequenceOfTail(FilterFeatured(products[1..]), products);
      }
    }
  }

  /** A subsequence of the tail of `b` is a subsequence of `b`. */
  lemma {:induction false} SubsequenceOfTail<T>(a: seq<T>, b: seq<T>)
    requires b != [] && IsSubsequence(a, b[1..])
    ensures IsSubsequence(a, b)
    decreases |b|, 0
  {
    if a != [] && a[0] == b[0] {
      PrefixDropPreserves(a, b[1..]);
    }
  }

  /** If `a` is a subsequence of `b`, so is `a` without its first element. */
  lemma {:induction false} PrefixDropPreserves<T>(a: seq<T>, b: seq<T>)
    requires a != [] && IsSubsequence(a, b)
    ensures IsSubsequence(a[1..], b)
    decreases |b|, 1
  {
    assert b != [];
    if a[0] == b[0] {
      SubsequenceOfTail(a[1..], b);
    } else {
      PrefixDropPreserves(a, b[1..]);
      SubsequenceOfTail(a[1..], b);
    }
  }

  /** A prefix of a subsequence is a subsequence. */
  lemma {:induction false} PrefixOfSubsequence<T>(a: seq<T>, b: seq<T>, n: nat)
    requires n <= |a| && IsSubsequence(a, b)
    ensures IsSubsequence(a[..n], b)
    decreases |b|
  {
    if n > 0 {
      assert b != [];
      if a[0] == b[0] {
        assert a[..n][1..] == a[1..][..n - 1];
        PrefixOfSubsequence(a[1..], b[1..], n - 1);
      } else {
        PrefixOfSubsequence(a, b[1..], n);
      }
    }
  }

  /** The featured selection is a subsequence of the catalog, in catalog order. */
  lemma FeaturedIsSubsequence(products: seq<Product>)
    ensures IsSubsequence(FeaturedProducts(products), products)
  {
    var f := FilterFeatured(products);
    FilterFeaturedIsSubsequence(products);
    PrefixOfSubsequence(f, products, |FeaturedProducts(products)|);
  }

  /** What the featured section of the home page renders. */
  datatype FeaturedSection = Spinner | Cards(shown: seq<Product>)

  /** The products that get a card in a rendered featured section. */
  function CardsOf(section: FeaturedSection): seq<Product> {
    match section
    case Spinner => []
    case Cards(shown) => shown
  }

  /** The loading gate: a spinner while loading, otherwise one card per featured product, in order. */
  function FeaturedSectionView(products: seq<Product>, loading: bool): (v: FeaturedSection)
    ensures loading <==> v.Spinner?
    ensures loading ==> CardsOf(v) == []
    ensures !loading ==> CardsOf(v) == FeaturedProducts(products)
  {
    if loading then Spinner else Cards(FeaturedProducts(products))
  }
}
