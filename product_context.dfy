/**
 * The catalog state provider of the storefront client: a React context that
 * holds the product list, a loading flag and an optional error text, refreshes
 * the list from the catalog service and answers category lookups.
 *
 * The network is not modelled: each call into the catalog service is replaced
 * by an abstract FetchOutcome given as a parameter.
 */
module ProductContext {
  import opened Wrappers

  /** One product as the catalog service returns it; remaining fields are opaque. */
  datatype Product = Product(id: string, name: string, category: string, featured: bool)

  /** What a call into the catalog service produced: the data, or a thrown error whose cause is only logged. */
  datatype FetchOutcome = Success(data: seq<Product>) | Failure(cause: string)

  /** The error text recorded by a failed refresh, whatever its cause. */
  const FetchErrorMessage := "Error al cargar los productos"

  /** The error thrown by useProducts outside a ProductProvider. */
  const MissingProviderMessage := "useProducts must be used within a ProductProvider"

  /**
   * The product list a provider shows after the completed fetches `h`, oldest
   * first: the data of the most recent successful fetch, or the initial empty
   * list when none succeeded.
   */
  function LatestData(h: seq<FetchOutcome>): (r: seq<Product>)
    ensures r == [] || exists i :: 0 <= i < |h| && h[i] == Success(r)
  {
    if h == [] then []
    else match h[|h| - 1]
      case Success(data) => data
      case Failure(_) => LatestData(h[..|h| - 1])
  }

  /** The error text a provider shows after the completed fetches `h`: set exactly when the last one failed. */
  function LatestError(h: seq<FetchOutcome>): (r: Option<string>)
    ensures r.Some? <==> (h != [] && h[|h| - 1].Failure?)
    ensures r.Some? ==> r.value == FetchErrorMessage
  {
    if h != [] && h[|h| - 1].Failure? then Some(FetchErrorMessage) else None
  }

  /** A failed fetch never disturbs the list: the list is that of the last success, if any. */
  lemma {:induction false} LatestDataIsLastSuccess(h: seq<FetchOutcome>, i: nat)
    requires i < |h| && h[i].Success?
    requires forall j :: i < j < |h| ==> h[j].Failure?
    ensures LatestData(h) == h[i].data
  {
    if i < |h| - 1 {
      var h' := h[..|h| - 1];
      assert forall j :: i < j < |h'| ==> h'[j] == h[j];
      LatestDataIsLastSuccess(h', i);
    }
  }

  /** Before any fetch succeeds, the list is the initial empty one (a consequence of LatestData's contract). */
  lemma LatestDataEmptyWithoutSuccess(h: seq<FetchOutcome>)
    requires forall j :: 0 <= j < |h| ==> h[j].Failure?
    ensures LatestData(h) == []
  {
  }

  /**
   * useProducts: the value of the enclosing provider when there is one, and
   * otherwise the error it throws. A provider's value object is always truthy,
   * so only an absent context fails.
   */
  function UseProducts<T>(context: Option<T>): (r: Result<T, string>)
    ensures r.Ok? <==> context.Some?
    ensures context.Some? ==> r.value == context.value
    ensures context.None? ==> r.error == MissingProviderMessage
  {
    match context
    case None => Err(MissingProviderMessage)
    case Some(v) => Ok(v)
  }

  /** ProductProvider: the three pieces of React state and the operations it exposes. */
  class ProductProvider {
    var products: seq<Product>
    var loading: bool
    var error: Option<string>

    /** The outcomes of the fetches completed so far, oldest first. */
    ghost var completed: seq<FetchOutcome>

    /** The list and the error are those left by the completed fetches. */
    ghost predicate Valid()
      reads this
    {
      products == LatestData(completed) && error == LatestError(completed)
    }

    /** The state a provider mounts with: no products, loading, no error. */
    constructor ()
      ensures Valid() && completed == []
      ensures products == [] && loading && error == None
    {
      products := [];
      loading := true;
      error := None;
      completed := [];
    }

    /** The part of fetchProducts before its await: the provider shows that it is loading. */
    method BeginFetch()
      requires Valid()
      modifies this`loading
      ensures Valid() && loading
      ensures products == old(products) && error == old(error)
    {
      loading := true;
    }

    /**
     * The part of fetchProducts after its await: a success replaces the whole
     * list and clears the error, a failure keeps the list and records the fixed
     * error text, and in both cases loading ends.
     */
    method CompleteFetch(outcome: FetchOutcome)
      requires Valid()
      modifies this
      ensures Valid() && completed == old(completed) + [outcome]
      ensures !loading
      ensures outcome.Success? ==> products == outcome.data && error == None
      ensures outcome.Failure? ==> products == old(products) && error == Some(FetchErrorMessage)
    {
      match outcome {
        case Success(data) =>
          products := data;
          error := None;
        case Failure(_) =>
          error := Some(FetchErrorMessage);
      }
      loading := false;
      completed := completed + [outcome];
      assert completed[..|completed| - 1] == old(completed);
    }

    /** fetchProducts, with the catalog service's answer to getAllProducts given as `outcome`. */
    method FetchProducts(outcome: FetchOutcome)
      requires Valid()
      modifies this
      ensures Valid() && completed == old(completed) + [outcome]
      ensures !loading
      ensures outcome.Success? ==> products == outcome.data && error == None
      ensures outcome.Failure? ==> products == old(products) && error == Some(FetchErrorMessage)
    {
      BeginFetch();
      CompleteFetch(outcome);
    }

    /**
     * getProductsByCategory: whatever its inner lookup yields on success, and
     * the empty list when the lookup throws. It reads no state and, being a
     * function without a reads clause, cannot change any.
     */
    function GetProductsByCategory(category: string, lookup: FetchOutcome): (r: seq<Product>)
      ensures lookup.Failure? ==> r == []
      ensures lookup.Success? ==> r == lookup.data
    {
      match lookup
      case Success(data) => data
      case Failure(_) => []
    }
  }

  /** A client of the provider: a first fetch succeeds, a second one fails and leaves the list stale. */
  method StaleAfterFailedRefresh(dress: Product, shirt: Product, cause: string) {
    var provider := new ProductProvider();
    assert provider.products == [] && provider.loading;
    provider.FetchProducts(Success([dress, shirt]));
    assert provider.products == [dress, shirt] && provider.error == None && !provider.loading;
    provider.FetchProducts(Failure(cause));
    assert provider.products == [dress, shirt] && provider.error == Some(FetchErrorMessage);
    var context := UseProducts(Some(provider));
    assert context == Ok(provider);
  }
}
