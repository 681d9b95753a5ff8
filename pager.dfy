/**
 * The server-driven pager (`ProductList`): one page of extended variant data
 * at a time, with Previous and Next following the page links the server sends.
 * As in the catalog page, a fetch is a request step and a response step.
 */
module Pager {
  import opened Wrappers

  // ---------------------------------------------------------------- data model

  /** Extended shape of a variant (named `ProductVariant` in this view). */
  datatype VariantInfo = VariantInfo(sizeGuidance: string, thickness: string, care: string, materials: seq<string>)

  /**
   * Page links as the server sends them. `prev` and `next` are declared as
   * numbers but compared with `null`, so they are optional here.
   */
  datatype PageMeta = PageMeta(prev: Option<int>, page: int, next: Option<int>, count: int, pages: int)

  datatype ProductData = ProductData(variants: map<string, VariantInfo>, meta: PageMeta)

  const FETCH_ERROR := "Failed to fetch products"

  /**
   * What a click on Previous or Next does: request a page, nothing, or throw in
   * the handler (with no data loaded, `products?.meta.prev` is `undefined`,
   * which is not `null`, and `products.meta` then throws).
   */
  datatype Click = Fetch(page: int) | Ignored | TypeError

  // ------------------------------------------------------------------ rendering

  datatype Screen = LoadingProducts | ErrorBanner(text: string) | Blank | VariantList(data: ProductData)

  /** Loading first, then an error, then nothing while no data is loaded, else the list. */
  function Render(loading: bool, error: Option<string>, products: Option<ProductData>): (screen: Screen)
    ensures screen == LoadingProducts <==> loading
    ensures screen.ErrorBanner? <==> !loading && Truthy(error)
    ensures screen.ErrorBanner? ==> screen.text == "Error: " + error.value + ". Please refresh the page to try again"
    ensures screen == Blank <==> !loading && !Truthy(error) && products == None
    ensures screen.VariantList? <==> !loading && !Truthy(error) && products.Some?
    ensures screen.VariantList? ==> Some(screen.data) == products
  {
    if loading then LoadingProducts
    else if Truthy(error) then ErrorBanner("Error: " + error.value + ". Please refresh the page to try again")
    else if products == None then Blank
    else VariantList(products.value)
  }

  predicate PreviousDisabled(meta: PageMeta) {
    meta.prev == None
  }

  predicate NextDisabled(meta: PageMeta) {
    meta.next == None
  }

  /** `handlePreviousPage`'s decision. */
  function PreviousClick(products: Option<ProductData>): (click: Click)
    ensures click == TypeError <==> products == None
    ensures click == Ignored <==> products.Some? && products.value.meta.prev == None
    ensures products.Some? && products.value.meta.prev.Some? ==> click == Fetch(products.value.meta.prev.value)
  {
    match products
    case None => TypeError
    case Some(data) => if data.meta.prev.Some? then Fetch(data.meta.prev.value) else Ignored
  }

  /** `handleNextPage`'s decision. */
  function NextClick(products: Option<ProductData>): (click: Click)
    ensures click == TypeError <==> products == None
    ensures click == Ignored <==> products.Some? && products.value.meta.next == None
    ensures products.Some? && products.value.meta.next.Some? ==> click == Fetch(products.value.meta.next.value)
  {
    match products
    case None => TypeError
    case Some(data) => if data.meta.next.Some? then Fetch(data.meta.next.value) else Ignored
  }

  /**
   * The buttons exist only on the list screen, so the throwing path cannot be
   * reached from them; there a button is enabled exactly when its click fetches.
   */
  lemma ButtonsMatchClicks(loading: bool, error: Option<string>, products: Option<ProductData>)
    requires Render(loading, error, products).VariantList?
    ensures PreviousClick(products) != TypeError && NextClick(products) != TypeError
    ensures !PreviousDisabled(products.value.meta) <==> PreviousClick(products).Fetch?
    ensures !NextDisabled(products.value.meta) <==> NextClick(products).Fetch?
  {
  }

  /** The page links the server is meant to send for `page` out of `pages`. */
  predicate LinksConsistent(meta: PageMeta) {
    1 <= meta.page <= meta.pages
    && meta.prev == (if meta.page == 1 then None else Some(meta.page - 1))
    && meta.next == (if meta.page == meta.pages then None else Some(meta.page + 1))
  }

  /**
   * With consistent links the pager behaves like a clamped pager: Previous
   * fetches the page before, Next the page after, and neither leaves `[1, pages]`.
   */
  lemma ConsistentLinksClamp(data: ProductData)
    requires LinksConsistent(data.meta)
    ensures PreviousDisabled(data.meta) <==> data.meta.page == 1
    ensures NextDisabled(data.meta) <==> data.meta.page == data.meta.pages
    ensures PreviousClick(Some(data)).Fetch? ==> PreviousClick(Some(data)).page == data.meta.page - 1 >= 1
    ensures NextClick(Some(data)).Fetch? ==> NextClick(Some(data)).page == data.meta.page + 1 <= data.meta.pages
  {
  }

  // ------------------------------------------------------------------ view state

  /** A snapshot of every state field of the view. */
  datatype PagerState = PagerState(products: Option<ProductData>, loading: bool, error: Option<string>, currentPage: int)

  class ProductList {
    var products: Option<ProductData>
    var loading: bool
    var error: Option<string>
    var currentPage: int

    function State(): PagerState
      reads this
    {
      PagerState(products, loading, error, currentPage)
    }

    /** The initial state, before the mount effect runs. */
    constructor ()
      ensures State() == PagerState(None, true, None, 1)
    {
      products, loading, error, currentPage := None, true, None, 1;
    }

    /**
     * Request step of `fetchProducts(page)`: the loading flag goes up before
     * the request, which asks for `page` and nothing else.
     */
    method FetchRequest(page: int) returns (requested: int)
      modifies this
      ensures requested == page
      ensures State() == old(State()).(loading := true)
    {
      loading := true;
      requested := page;
    }

    /**
     * Response step of `fetchProducts(page)`: the page is committed only on
     * success; a failure keeps the data and the page and records the error.
     */
    method FetchResponse(page: int, response: Response<ProductData>)
      modifies this
      ensures response.Ok? ==>
        State() == old(State()).(products := Some(response.payload), currentPage := page, loading := false)
      ensures response.Failed? ==>
        State() == old(State()).(error := Some(FETCH_ERROR), loading := false)
      ensures old(error).Some? ==> error.Some?
      ensures !loading
    {
      match response {
        case Ok(data) =>
          products := Some(data);
          currentPage := page;
        case Failed =>
          error := Some(FETCH_ERROR);
      }
      loading := false;
    }

    /** The mount effect: `fetchProducts(currentPage)`, which is page 1 on a fresh view. */
    method Mount() returns (page: int)
      modifies this
      ensures page == old(currentPage)
      ensures State() == old(State()).(loading := true)
    {
      page := FetchRequest(currentPage);
    }

    /** `handlePreviousPage`: fetch `meta.prev` when it is non-null. */
    method HandlePreviousPage() returns (click: Click)
      modifies this
      ensures click == PreviousClick(old(products))
      ensures click.Fetch? ==> State() == old(State()).(loading := true)
      ensures !click.Fetch? ==> State() == old(State())
    {
      click := PreviousClick(products);
      if click.Fetch? {
        var _ := FetchRequest(click.page);
      }
    }

    /** `handleNextPage`: fetch `meta.next` when it is non-null. */
    method HandleNextPage() returns (click: Click)
      modifies this
      ensures click == NextClick(old(products))
      ensures click.Fetch? ==> State() == old(State()).(loading := true)
      ensures !click.Fetch? ==> State() == old(State())
    {
      click := NextClick(products);
      if click.Fetch? {
        var _ := FetchRequest(click.page);
      }
    }
  }
}
