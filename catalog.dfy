/**
 * The catalog page (`App`): a paginated product listing and an on-demand cache
 * of extended variant details. Each fetch is split into a request step, which
 * returns the request it issues, and a response step, which is handed the
 * `Response` of that request.
 */
module Catalog {
  import opened Wrappers
  import opened Decimal

  // ---------------------------------------------------------------- data model

  /** Listing shape of a variant; `price` is in cents. */
  datatype ProductVariant = ProductVariant(price: int, color: string, size: string, qtyAvailable: int)

  /** Extended shape of a variant, served by the details endpoint. */
  datatype VariantDetails = VariantDetails(sizeGuidance: string, thickness: string, care: string, materials: seq<string>)

  datatype Product = Product(name: string, packSize: Option<int>, variants: map<string, ProductVariant>)

  datatype PageMeta = PageMeta(prev: Option<int>, page: int, next: Option<int>, count: int, pages: int)

  /** Body of `GET /products/core?page=n`. */
  datatype ProductResponse = ProductResponse(products: seq<Product>, meta: PageMeta)

  /** Body of `GET /products/data?page=n`. */
  datatype VariantDetailsResponse = VariantDetailsResponse(variants: map<string, VariantDetails>, meta: PageMeta)

  /** The two requests the page issues: the listing endpoint and the details endpoint, with their page parameter. */
  datatype Request = Core(page: int) | Data(page: int)

  const PRODUCTS_ERROR := "Failed to fetch products"
  const DETAILS_ERROR := "Failed to fetch variant details"

  /** The details request never tracks a page: it always asks for page 1. */
  const DETAILS_PAGE := 1

  // ------------------------------------------------------------------ the cache

  /** Object spread `{ ...cache, ...batch }`: the batch wins on shared keys. */
  function Merge(cache: map<string, VariantDetails>, batch: map<string, VariantDetails>): (merged: map<string, VariantDetails>)
    ensures merged.Keys == cache.Keys + batch.Keys
    ensures forall k :: k in batch ==> merged[k] == batch[k]
    ensures forall k :: k in cache && k !in batch ==> merged[k] == cache[k]
  {
    cache + batch
  }

  // ------------------------------------------------------------------ rendering

  /** What the page shows as a whole. */
  datatype Screen = LoadingProducts | ErrorBanner(text: string) | CatalogGrid

  /** Loading has priority over an error, and an error over the catalog. */
  function Render(loading: bool, error: Option<string>): (screen: Screen)
    ensures screen == LoadingProducts <==> loading
    ensures screen.ErrorBanner? <==> !loading && Truthy(error)
    ensures screen.ErrorBanner? ==> screen.text == "Error: " + error.value
    ensures screen == CatalogGrid <==> !loading && !Truthy(error)
  {
    if loading then LoadingProducts
    else if Truthy(error) then ErrorBanner("Error: " + error.value)
    else CatalogGrid
  }

  /** The details shown under the card of `variantId`, if any. */
  function DetailsPanel(variantId: string, selected: Option<string>, cache: map<string, VariantDetails>): (panel: Option<VariantDetails>)
    ensures panel.Some? <==> selected == Some(variantId) && variantId in cache
    ensures panel.Some? ==> panel.value == cache[variantId]
  {
    if selected == Some(variantId) && variantId in cache then Some(cache[variantId]) else None
  }

  /** Whether the card of `variantId` shows the "Loading details..." line. */
  predicate ShowsLoadingDetails(variantId: string, selected: Option<string>, loadingDetails: bool) {
    selected == Some(variantId) && loadingDetails
  }

  /** The guard of `handlePageChange`. */
  predicate AcceptsPage(newPage: int, totalPages: int) {
    1 <= newPage <= totalPages
  }

  /** `Array.from({ length: totalPages }, (_, i) => i + 1)`; a length below 0 counts as 0. */
  function PageButtons(totalPages: int): (pages: seq<int>)
    ensures |pages| == if totalPages > 0 then totalPages else 0
    ensures forall i :: 0 <= i < |pages| ==> pages[i] == i + 1
    decreases totalPages
  {
    if totalPages <= 0 then [] else PageButtons(totalPages - 1) + [totalPages]
  }

  /** The page buttons are exactly the pages `handlePageChange` accepts. */
  lemma PageButtonsAreAcceptedPages(totalPages: int, p: int)
    ensures p in PageButtons(totalPages) <==> AcceptsPage(p, totalPages)
  {
  }

  predicate PreviousDisabled(currentPage: int) {
    currentPage == 1
  }

  predicate NextDisabled(currentPage: int, totalPages: int) {
    currentPage == totalPages
  }

  /**
   * While the current page is in range, a control is disabled exactly when the
   * page it asks for would be refused.
   */
  lemma DisabledFlagsMatchGuard(currentPage: int, totalPages: int)
    requires AcceptsPage(currentPage, totalPages)
    ensures PreviousDisabled(currentPage) <==> !AcceptsPage(currentPage - 1, totalPages)
    ensures NextDisabled(currentPage, totalPages) <==> !AcceptsPage(currentPage + 1, totalPages)
  {
  }

  /**
   * Once a listing response leaves the current page past the last one, Next is
   * enabled but does nothing; from two pages past the last one on, so is
   * Previous (unless the current page is 1).
   */
  lemma ControlsEnabledPastLastPage(currentPage: int, totalPages: int)
    requires currentPage > totalPages
    ensures !NextDisabled(currentPage, totalPages) && !AcceptsPage(currentPage + 1, totalPages)
    ensures currentPage > totalPages + 1 && currentPage != 1 ==>
      !PreviousDisabled(currentPage) && !AcceptsPage(currentPage - 1, totalPages)
  {
  }

  /**
   * With the page invariant `currentPage >= 1` (`CatalogPage.Valid`), an
   * enabled Previous asks for a page that is at least 1, so its click is
   * accepted exactly when that page is not past the last one. Without the
   * invariant, `currentPage == 0` would enable Previous for page -1.
   */
  lemma EnabledPreviousMatchesGuard(currentPage: int, totalPages: int)
    requires currentPage >= 1
    ensures !PreviousDisabled(currentPage) ==>
      (AcceptsPage(currentPage - 1, totalPages) <==> currentPage - 1 <= totalPages)
  {
  }

  /** `"$" + (price / 100).toFixed(2)`, computed on integer cents. */
  function FormatPrice(cents: int): (text: string)
    ensures |text| >= 5 && text[0] == '$' && text[|text| - 3] == '.'
    ensures AllDigits(text[|text| - 2..])
  {
    var magnitude: nat := if cents < 0 then -cents else cents;
    var written := PriceLabel(cents < 0, magnitude / 100, magnitude % 100);
    assert written[|written| - 2..] == TwoDigits(magnitude % 100);
    written
  }

  /** The label of a sign, whole dollars and remaining cents. */
  function PriceLabel(negative: bool, dollars: nat, rest: nat): (text: string)
    requires rest < 100
  {
    "$" + (if negative then "-" else "") + NatToDecimal(dollars) + "." + TwoDigits(rest)
  }

  /** The cents after the point, always two digits. */
  function TwoDigits(rest: nat): (digits: string)
    requires rest < 100
    ensures |digits| == 2 && AllDigits(digits) && DecimalValue(digits) == rest
  {
    var digits := [DigitChar(rest / 10), DigitChar(rest % 10)];
    TwoDigitValue(digits);
    digits
  }

  /** Reads back a price label in the format `FormatPrice` writes. */
  function ParsePrice(text: string): (price: Option<int>) {
    if |text| < 5 || text[0] != '$' || text[|text| - 3] != '.' then None
    else
      var negative := text[1] == '-';
      var whole := text[(if negative then 2 else 1)..|text| - 3];
      var fraction := text[|text| - 2..];
      if whole == [] || !AllDigits(whole) || !AllDigits(fraction) then None
      else
        var magnitude := DecimalValue(whole) * 100 + DecimalValue(fraction);
        Some(if negative then -magnitude else magnitude)
  }

  lemma ParsePriceLabel(negative: bool, dollars: nat, rest: nat)
    requires rest < 100
    ensures var magnitude := dollars * 100 + rest;
      ParsePrice(PriceLabel(negative, dollars, rest)) == Some(if negative then -magnitude else magnitude)
  {
    var head := "$" + (if negative then "-" else "");
    var digits := NatToDecimal(dollars);
    var tail := "." + TwoDigits(rest);
    var text := PriceLabel(negative, dollars, rest);
    assert text == head + (digits + tail);
    assert text[1] == (head + digits)[1];
    assert text[1] == '-' <==> negative;
    assert text[|head|..] == digits + tail;
    assert text[|head|..|text| - 3] == (digits + tail)[..|digits|] == digits;
    assert text[|text| - 2..] == TwoDigits(rest);
    DecimalRoundTrip(dollars);
  }

  /** The price label determines the price: no two prices share a label. */
  lemma PriceRoundTrip(cents: int)
    ensures ParsePrice(FormatPrice(cents)) == Some(cents)
  {
    var magnitude: nat := if cents < 0 then -cents else cents;
    ParsePriceLabel(cents < 0, magnitude / 100, magnitude % 100);
    assert magnitude / 100 * 100 + magnitude % 100 == magnitude;
  }

  // ------------------------------------------------------------------ page state

  /** A snapshot of every state field of the page. */
  datatype CatalogState = CatalogState(
    products: seq<Product>,
    loading: bool,
    error: Option<string>,
    variantDetails: map<string, VariantDetails>,
    selectedVariant: Option<string>,
    loadingDetails: bool,
    currentPage: int,
    totalPages: int)

  class CatalogPage {
    var products: seq<Product>
    var loading: bool
    var error: Option<string>
    var variantDetails: map<string, VariantDetails>
    var selectedVariant: Option<string>
    var loadingDetails: bool
    var currentPage: int
    var totalPages: int

    function State(): CatalogState
      reads this
    {
      CatalogState(products, loading, error, variantDetails, selectedVariant, loadingDetails, currentPage, totalPages)
    }

    /**
     * Only accepted pages are ever stored, so the current page never drops
     * below 1; `EnabledPreviousMatchesGuard` relies on it.
     */
    ghost predicate Valid()
      reads this
    {
      currentPage >= 1
    }

    /** The initial state, before the mount effect runs. */
    constructor ()
      ensures Valid()
      ensures State() == CatalogState([], true, None, map[], None, false, 1, 1)
    {
      products, loading, error := [], true, None;
      variantDetails, selectedVariant, loadingDetails := map[], None, false;
      currentPage, totalPages := 1, 1;
    }

    /**
     * Request step of the products effect, which runs on mount and after every
     * change of `currentPage`: it asks for the current page and changes nothing.
     */
    method ProductsRequest() returns (request: Request)
      ensures request == Core(currentPage)
    {
      request := Core(currentPage);
    }

    /** Response step of the products effect. */
    method ProductsResponse(response: Response<ProductResponse>)
      requires Valid()
      modifies this
      ensures Valid()
      ensures response.Ok? ==>
        State() == old(State()).(products := response.payload.products,
                                 totalPages := response.payload.meta.pages,
                                 loading := false)
      ensures response.Failed? ==>
        State() == old(State()).(error := Some(PRODUCTS_ERROR), loading := false)
      ensures Render(loading, error) == if Truthy(error) then ErrorBanner("Error: " + error.value) else CatalogGrid
      ensures old(error).Some? ==> error.Some?
      ensures old(variantDetails).Keys <= variantDetails.Keys
    {
      match response {
        case Ok(data) =>
          products := data.products;
          totalPages := data.meta.pages;
        case Failed =>
          error := Some(PRODUCTS_ERROR);
      }
      loading := false;
    }

    /**
     * `handlePageChange(newPage)`. An accepted page is stored and raises the
     * loading flag; `effect` is the listing request the products effect then
     * issues, which happens only when `currentPage` actually changes.
     */
    method HandlePageChange(newPage: int) returns (effect: Option<Request>)
      requires Valid()
      modifies this
      ensures Valid()
      ensures !AcceptsPage(newPage, old(totalPages)) ==> State() == old(State())
      ensures AcceptsPage(newPage, old(totalPages)) ==>
        State() == old(State()).(currentPage := newPage, loading := true)
      ensures effect == if AcceptsPage(newPage, old(totalPages)) && newPage != old(currentPage)
                        then Some(Core(newPage)) else None
      ensures old(error).Some? ==> error.Some?
      ensures old(variantDetails).Keys <= variantDetails.Keys
    {
      effect := None;
      if newPage >= 1 && newPage <= totalPages {
        if newPage != currentPage {
          effect := Some(Core(newPage));
        }
        currentPage := newPage;
        loading := true;
      }
    }

    /**
     * Request step of `fetchVariantDetails(variantId)`. A cached id is selected
     * at once and nothing is requested; otherwise the details flag is raised and
     * page 1 of the details endpoint is requested, the selection staying as it was.
     */
    method DetailsRequest(variantId: string) returns (request: Option<Request>)
      requires Valid()
      modifies this
      ensures Valid()
      ensures old(variantId in variantDetails) ==>
        request == None && State() == old(State()).(selectedVariant := Some(variantId))
      ensures old(variantId in variantDetails) ==>
        DetailsPanel(variantId, selectedVariant, variantDetails) == Some(variantDetails[variantId])
      ensures old(variantId !in variantDetails) ==>
        request == Some(Data(DETAILS_PAGE)) && State() == old(State()).(loadingDetails := true)
      ensures old(variantId !in variantDetails) ==>
        (ShowsLoadingDetails(variantId, selectedVariant, loadingDetails) <==> old(selectedVariant) == Some(variantId))
      ensures old(error).Some? ==> error.Some?
      ensures old(variantDetails).Keys <= variantDetails.Keys
    {
      if variantId in variantDetails {
        selectedVariant := Some(variantId);
        request := None;
        return;
      }
      loadingDetails := true;
      request := Some(Data(DETAILS_PAGE));
    }

    /**
     * Response step of `fetchVariantDetails(variantId)`. On success the batch is
     * merged into the cache and `variantId` is selected whether or not the batch
     * holds it; any failure raises the page-level error.
     */
    method DetailsResponse(variantId: string, response: Response<VariantDetailsResponse>)
      requires Valid()
      modifies this
      ensures Valid()
      ensures response.Ok? ==>
        State() == old(State()).(variantDetails := Merge(old(variantDetails), response.payload.variants),
                                 selectedVariant := Some(variantId),
                                 loadingDetails := false)
      ensures response.Ok? ==>
        (variantId in variantDetails <==> old(variantId in variantDetails) || variantId in response.payload.variants)
      ensures response.Failed? ==>
        State() == old(State()).(error := Some(DETAILS_ERROR), loadingDetails := false)
      ensures response.Failed? ==> Render(loading, error) != CatalogGrid
      ensures old(error).Some? ==> error.Some?
      ensures old(variantDetails).Keys <= variantDetails.Keys
    {
      match response {
        case Ok(data) =>
          variantDetails := variantDetails + data.variants;
          selectedVariant := Some(variantId);
        case Failed =>
          error := Some(DETAILS_ERROR);
      }
      loadingDetails := false;
    }
  }
}
