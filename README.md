# Bombas catalog views in Dafny

A model of the page-state logic of the two React views of the Bombas catalog
client:

- **The catalog page** (`App`, module `Catalog`): a paginated product listing
  fetched from `/products/core?page=n`, page controls clamped to
  `[1, totalPages]`, and an on-demand cache of extended variant details
  fetched from `/products/data?page=1` and merged into a map keyed by variant
  id.
- **The server-driven pager** (`ProductList`, module `Pager`): one page of
  extended variant data at a time, where Previous and Next follow the
  `meta.prev` / `meta.next` links from the server.

Each view is a class whose fields are its `useState` variables. Every
asynchronous fetch is split into two sequential events: a *request step*
(a method that returns the request it issues) and a *response step* (a method
handed the `Response`, either `Ok(payload)` or `Failed`). Every state-changing
method states its whole new state as the old snapshot `State()` with the
changed fields updated, so "nothing else changes" is part of each contract.
The render decision, the page-button list, the disabled flags and the price
label are pure functions.

Modules: `Wrappers` (`Option`, `Response`), `Decimal` (decimal numerals and
their reading back), `Catalog` (`src/App.tsx`), `Pager`
(`src/components/Variants.tsx`).

Behaviour of the source that the model keeps as it is:

- The details request is always for page 1 (`DETAILS_PAGE`).
- After a successful details response the clicked id is selected even when
  the batch does not contain it, and such an id stays a cache miss, so every
  later click on it fetches page 1 again (`DetailsResponse`).
- A failed details fetch sets the page-level error, so the whole catalog is
  replaced by the error banner.
- The "Loading details..." line is shown under the *previously* selected
  variant, because selection happens only after the fetch (`DetailsRequest`).
- Clicking the button of the page already shown raises `loading`, but the
  products effect depends on `currentPage`, which did not change, so no
  request is issued and the page stays on "Loading products..."
  (`HandlePageChange` returns no effect in that case).
- In the pager, a click handler run while no data is loaded throws: the
  optional chain `products?.meta.prev` gives `undefined`, which is not
  `null`. The buttons only exist on the list screen, so the rendered UI cannot
  reach this path (`ButtonsMatchClicks`).

Behaviour of the source that is easy to assume otherwise:

- A failed details fetch does not leave "Loading details..." showing:
  `loadingDetails` is cleared in the `finally` block (`src/App.tsx:98-99`).
- Only the catalog page clamps page numbers to `[1, totalPages]`; the pager
  follows `meta.prev` / `meta.next` as the server sends them
  (`ConsistentLinksClamp` shows the two agree when the links are consistent).
- At most one details fetch per id holds only for ids that page 1 contains
  (see above).
- Clicking the current page's button does not refetch (see above).

## Model

| member | source | states |
|---|---|---|
| `Catalog.Merge` | src/App.tsx:94 | the merged cache holds exactly the old keys and the batch keys; batch entries win on shared keys and every other old entry keeps its value |
| `Catalog.Render` | src/App.tsx:110-124 | loading is shown iff `loading`; otherwise the error banner `Error: <message>` iff the error is truthy; otherwise the catalog grid |
| `Catalog.DetailsPanel` | src/App.tsx:167-172 | a variant's details panel is shown iff it is the selected variant and is cached, and it shows the cached details |
| `Wrappers.Truthy` | src/App.tsx:118 | an error shows only when it is a non-empty string, as `if (error)` tests; the pager's test at src/components/Variants.tsx:72 uses it too |
| `Catalog.ShowsLoadingDetails` | src/App.tsx:191 | the "Loading details..." line shows under a variant iff it is the selected one and details are loading |
| `Catalog.AcceptsPage` | src/App.tsx:104 | `handlePageChange` accepts exactly the pages in `[1, totalPages]` |
| `Catalog.PreviousDisabled` | src/App.tsx:207 | Previous is disabled iff `currentPage == 1` |
| `Catalog.NextDisabled` | src/App.tsx:233 | Next is disabled iff `currentPage == totalPages` |
| `Catalog.PageButtons` | src/App.tsx:217 | the page buttons are `1, 2, ..., totalPages` in order, none when `totalPages <= 0` |
| `Catalog.PageButtonsAreAcceptedPages` | src/App.tsx:217-220 | a page has a button iff `handlePageChange` accepts it |
| `Catalog.DisabledFlagsMatchGuard` | src/App.tsx:204-240 | while the current page is in `[1, totalPages]`, Previous is disabled iff the page before would be refused, and Next iff the page after would be refused |
| `Catalog.ControlsEnabledPastLastPage` | src/App.tsx:205-233 | when the current page is past `totalPages`, Next is enabled yet its click is refused; from two pages past on, Previous too (unless on page 1) |
| `Catalog.EnabledPreviousMatchesGuard` | src/App.tsx:206-207 | under the page invariant `currentPage >= 1`, an enabled Previous is accepted exactly when the page before is not past `totalPages` |
| `Catalog.FormatPrice` | src/App.tsx:152 | the price label starts with `$` and ends with a point followed by exactly two digits |
| `Catalog.ParsePriceLabel` | src/App.tsx:152 | a label built from a sign, whole dollars and two cent digits reads back as the signed amount in cents |
| `Catalog.PriceRoundTrip` | src/App.tsx:152 | reading the label back yields the price in cents, for negative prices too, so distinct prices get distinct labels |
| `Decimal.NatToDecimal` | src/App.tsx:152 | the whole-dollar numeral is non-empty, all digits, without a leading zero, one digit exactly below 10 |
| `Decimal.DecimalRoundTrip` | src/App.tsx:152 | the numeral reads back as the number it was written for |
| `Catalog.CatalogPage.constructor` | src/App.tsx:50-57 | initial state: no products, loading, no error, empty cache, nothing selected, details not loading, page 1 of 1 |
| `Catalog.CatalogPage.ProductsRequest` | src/App.tsx:59-63 | the products effect requests the listing endpoint for the current page and changes no state |
| `Catalog.CatalogPage.ProductsResponse` | src/App.tsx:64-74 | on success products and total pages are replaced by the response's and loading ends; on failure the error becomes "Failed to fetch products", products stay, loading ends; an error is never cleared; the cache is untouched |
| `Catalog.CatalogPage.HandlePageChange` | src/App.tsx:103-108 | a page outside `[1, totalPages]` changes nothing; an accepted page sets `currentPage` and `loading` and nothing else; a listing request follows iff the page is accepted and differs from the current one |
| `Catalog.CatalogPage.DetailsRequest` | src/App.tsx:80-88 | a cached id is selected, its details are shown and nothing is requested or otherwise changed; an uncached id raises `loadingDetails`, requests details page 1, keeps the old selection, so "Loading details..." shows under the new id only if it was already selected |
| `Catalog.CatalogPage.DetailsResponse` | src/App.tsx:89-100 | on success the cache becomes old cache merged with the batch, the id is selected whether or not the batch held it, details loading ends; on failure the error becomes "Failed to fetch variant details", the cache and selection stay, details loading ends and the catalog is no longer shown |
| `Pager.Render` | src/components/Variants.tsx:64-84 | loading first, then a truthy error, then nothing when no data is loaded, otherwise the list of the loaded data |
| `Pager.PreviousDisabled` | src/components/Variants.tsx:149 | Previous is disabled iff `meta.prev` is null |
| `Pager.NextDisabled` | src/components/Variants.tsx:155 | Next is disabled iff `meta.next` is null |
| `Pager.PreviousClick` | src/components/Variants.tsx:52-56 | Previous fetches exactly `meta.prev` when it is non-null, does nothing when it is null, and throws when no data is loaded |
| `Pager.NextClick` | src/components/Variants.tsx:58-62 | Next fetches exactly `meta.next` when it is non-null, does nothing when it is null, and throws when no data is loaded |
| `Pager.ButtonsMatchClicks` | src/components/Variants.tsx:148-157 | on the list screen neither handler throws, Previous is enabled iff its click fetches, and so is Next |
| `Pager.ConsistentLinksClamp` | src/components/Variants.tsx:148-157 | with consistent server links, Previous is disabled iff on page 1, Next iff on the last page, and clicks fetch the neighbouring page within `[1, pages]` |
| `Pager.ProductList.constructor` | src/components/Variants.tsx:25-28 | initial state: no data, loading, no error, page 1 |
| `Pager.ProductList.FetchRequest` | src/components/Variants.tsx:30-34 | `fetchProducts(page)` raises `loading` before the request, requests exactly `page`, and changes nothing else |
| `Pager.ProductList.FetchResponse` | src/components/Variants.tsx:35-46 | on success the data is replaced and `currentPage` becomes the fetched page; on failure the error becomes "Failed to fetch products" while data and page stay; loading ends either way |
| `Pager.ProductList.Mount` | src/components/Variants.tsx:48-50 | mounting fetches the current page, which is page 1 on a fresh view |
| `Pager.ProductList.HandlePreviousPage` | src/components/Variants.tsx:52-56 | the click is `PreviousClick` of the loaded data; only a fetch changes state, and only `loading` |
| `Pager.ProductList.HandleNextPage` | src/components/Variants.tsx:58-62 | the click is `NextClick` of the loaded data; only a fetch changes state, and only `loading` |

## Left out

- `fetch`, HTTP status codes beyond a success flag, URL construction from `import.meta.env` and JSON decoding: a response is passed to the response step as `Ok(payload)` or `Failed`.
- Error messages of thrown values: every failure records the fixed message of its `throw` ("Failed to fetch products", "Failed to fetch variant details"); the text of other `Error`s (a JSON syntax error, a network error) and "An error occurred" for non-`Error` throws are not modelled.
- Asynchronous interleaving: request and response steps are strictly sequential events, and the model does not track which requests are in flight, so a stale response overwriting newer state is not modelled.
- JSX markup, Tailwind classes and the `@material-tailwind/react` components: product cards, the pack-size and stock lines, the materials list and the "Page n of m" label are presentation.
- Catalog.FormatPrice: computes the label on integer cents instead of the floating-point `(price / 100).toFixed(2)`; the exponent form `toFixed` uses from 1e21 on is not modelled.
- Catalog.CatalogPage.DetailsRequest: the cache check is map membership; in JavaScript `variantDetails[variantId]` is also truthy for names inherited from `Object.prototype` such as `constructor`.
- Pager.PreviousClick: `meta.prev` missing from the JSON (`undefined`, which passes the `!== null` test) is not modelled; `prev` is either a number or `null`.
- Pager.NextClick: likewise, `meta.next` missing from the JSON is not modelled.
- Catalog.PageButtons: `Array.from({ length: totalPages })` throws a `RangeError` when the server's page count exceeds 2^32 - 1; the model returns the full list of buttons instead.
