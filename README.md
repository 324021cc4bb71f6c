# Storefront cart and catalogue, modelled in Dafny

This project models the logic of a small storefront written in Next.js/TypeScript.

- **Client cart store.** A zustand store holds the cart as a list of lines, one per product. Adding a product merges by product id (the quantities add up). Updating sets an absolute quantity, and a quantity of 0 or less removes the line. Two totals are folds over the lines. The same file holds the search-filter store and the product-modal store.
- **Server cart API.** GET, POST, PUT and DELETE act on a store keyed by user id; in each cart a product id maps to its quantity. Each handler is stated twice:
  - as a pure transition, from the old store to the new store and a reply with a status code;
  - as a method of `CartService.CartServer` that changes the store step by step and is proved equal to that transition.
- **Product API.**
  - GET filters by a case-insensitive search term, matched in the title OR the description, AND by the category slug. It then sorts newest first, skips `offset`, takes `limit`, and reports `total` and `hasMore`.
  - POST validates the body and inserts one product.
- **Product modal.** A quantity selector:
  - it starts at 1 and is reset to 1 on a new selection;
  - the minus button stops at 1 and the plus button has no upper bound;
  - add-to-cart adds the selected product with that quantity, then closes the modal.

The module `CartAgreement` compares the client and server carts through the map from product to quantity that a client cart stands for. On every valid request, the client's merge rule and the server's give the same quantities. The two differ only on the error paths.

Files:

| file | contents |
|---|---|
| `types.dfy` | `Option`, `Category`, `Product` |
| `client_store.dfy` | `ClientStore`: cart list functions, totals, `CartStore`, `SearchStore`, `ModalStore` |
| `cart_service.dfy` | `CartService`: cart handlers as transitions, `CartServer` |
| `product_service.dfy` | `ProductService`: filter, sort, page, `ListProducts`, `ProductStore.Create` |
| `product_modal.dfy` | `ProductModal`: quantity events, `ProductModalView` |
| `cart_agreement.dfy` | `CartAgreement`: the client and server merge rules agree |

Prices are integer cents. Timestamps are integers, where a larger value means later.

## Model

| member | source | states |
|---|---|---|
| ClientStore.FindIndex | src/store/index.ts:44 | None exactly when no line has the product; otherwise the first line with that product id |
| ClientStore.MapQuantity | src/store/index.ts:48-52 | same length; each line of the product has its quantity rewritten, every other line is unchanged |
| ClientStore.Removed | src/store/index.ts:65-69 | keeps exactly the lines of other products; the product is then absent; an absent product leaves the list as it was; one line per product is preserved |
| ClientStore.Added | src/store/index.ts:42-63 | a product in the cart: same length, its line's quantity grows by `quantity`, all other lines unchanged. A new product: exactly one line (id, product id, quantity, snapshot) appended at the end. In both cases the product is in the result and one line per product is preserved. The default quantity is 1 |
| ClientStore.Updated | src/store/index.ts:70-82 | quantity ≤ 0 is exactly `Removed`; a positive quantity overwrites the product's line, leaves the other lines and never inserts an absent product; one line per product is preserved |
| ClientStore.ReduceIsSum | src/store/index.ts:84-89 | the left fold `reduce` from an initial value equals that value plus the plain sum of the weights |
| ClientStore.TotalItems | src/store/index.ts:84-86 | getTotalItems is the sum of the line quantities, 0 for an empty cart |
| ClientStore.TotalPrice | src/store/index.ts:87-89 | getTotalPrice is the sum of snapshot price × quantity, 0 for an empty cart |
| ClientStore.RemovedAt | src/store/index.ts:65-69 | with one line per product, removing deletes exactly the product's line and keeps the other lines in order |
| ClientStore.AddedAt | src/store/index.ts:43-53 | with one line per product, a merge rewrites only the line at the product's position |
| ClientStore.TotalsAfterAdd | src/store/index.ts:42-64 | adding raises the item count by `quantity`. The price total rises by the existing line's snapshot price × `quantity`, or by the new product's price for a new line |
| ClientStore.TotalsAfterRemove | src/store/index.ts:65-69 | removing lowers both totals by exactly the removed line; removing an absent product changes nothing |
| ClientStore.TotalsAfterUpdate | src/store/index.ts:70-82 | a positive update replaces the line's share of both totals, priced at its snapshot; an absent product changes nothing |
| ClientStore.AddTwiceMerges | src/store/index.ts:42-63 | two adds of a new product give one line, with the first add's id and snapshot and the sum of both quantities |
| ClientStore.CartStore.constructor | src/store/index.ts:41 | the cart starts empty and satisfies the one-line-per-product invariant |
| ClientStore.CartStore.AddItem | src/store/index.ts:42-64 | the new list is `Added` of the old one; the invariant is kept |
| ClientStore.CartStore.RemoveItem | src/store/index.ts:65-69 | the new list is `Removed` of the old one; the invariant is kept |
| ClientStore.CartStore.UpdateQuantity | src/store/index.ts:70-82 | the new list is `Updated` of the old one (≤ 0 goes through RemoveItem); the invariant is kept |
| ClientStore.CartStore.ClearCart | src/store/index.ts:83 | the list is empty |
| ClientStore.CartStore.GetTotalItems | src/store/index.ts:84-86 | returns the sum of the quantities, changing nothing |
| ClientStore.CartStore.GetTotalPrice | src/store/index.ts:87-89 | returns the sum of snapshot price × quantity, changing nothing |
| ClientStore.SearchStore.constructor | src/store/index.ts:30-32 | both filters start empty |
| ClientStore.SearchStore.SetSearchTerm | src/store/index.ts:33 | sets the term, leaves the category |
| ClientStore.SearchStore.SetSelectedCategory | src/store/index.ts:34 | sets the category, leaves the term |
| ClientStore.SearchStore.ClearFilters | src/store/index.ts:35 | both filters become empty |
| ClientStore.ModalStore.constructor | src/store/index.ts:97-99 | closed with nothing selected |
| ClientStore.ModalStore.OpenModal | src/store/index.ts:100 | open with the product selected |
| ClientStore.ModalStore.CloseModal | src/store/index.ts:101 | closed with nothing selected |
| CartService.Fetch | src/app/api/cart/route.ts:17-54 | 400 exactly when the user id is absent or empty. A user without a cart gets a synthesised cart with id "" and no lines. Otherwise the stored cart is returned |
| CartService.AddItem | src/app/api/cart/route.ts:64-139 | an invalid body (empty ids, quantity < 1) is 400 with no change. Otherwise: the cart is found or created with the fresh id; the product's quantity is the old one (0 if absent) plus the request; other lines and other users are unchanged; positive quantities are kept |
| CartService.UpdateItem | src/app/api/cart/route.ts:141-208 | an invalid body (quantity < 0) is 400 and a user without a cart is 404, both with no change. Otherwise 0 deletes the line and a positive quantity overwrites an existing line without inserting a missing one; other lines and users are unchanged |
| CartService.Clear | src/app/api/cart/route.ts:210-234 | 400 with no change without a user id; otherwise 200, and exactly that user's cart is gone |
| CartService.ClearIdempotent | src/app/api/cart/route.ts:222-226 | clearing twice equals clearing once, and the second clear also answers 200 |
| CartService.FetchAfterClear | src/app/api/cart/route.ts:44-52 | after a clear, GET synthesises the empty cart |
| CartService.AddTwiceAccumulates | src/app/api/cart/route.ts:80-105 | two POSTs of one product leave one line holding the old quantity plus both requests |
| CartService.UpdateAfterAddOverwrites | src/app/api/cart/route.ts:165-173 | a positive PUT after a POST of the same product leaves exactly the PUT's quantity |
| CartService.AddsOfDistinctUsersCommute | src/app/api/cart/route.ts:70-78 | POSTs of two different users touch disjoint carts and commute |
| CartService.CartServer.Get | src/app/api/cart/route.ts:17-54 | answers `Fetch` and changes nothing |
| CartService.CartServer.Post | src/app/api/cart/route.ts:64-139 | the find-or-create and the merge done step by step give exactly `AddItem`; positive quantities are kept |
| CartService.CartServer.Put | src/app/api/cart/route.ts:141-208 | the step-by-step handler gives exactly `UpdateItem`; positive quantities are kept |
| CartService.CartServer.Delete | src/app/api/cart/route.ts:210-234 | the step-by-step handler gives exactly `Clear` |
| ProductService.LowerCase | src/app/api/products/route.ts:25-26 | same length, each character lower-cased |
| ProductService.Contains | src/app/api/products/route.ts:25-26 | true exactly when the needle occurs at some position |
| ProductService.ContainsInsensitive | src/app/api/products/route.ts:25-26 | true exactly when the needle matches at some position, ignoring case character by character |
| ProductService.Filter | src/app/api/products/route.ts:21-31 | keeps each product that satisfies the `where` clause as often as it occurs, and nothing else |
| ProductService.InsertByDate | src/app/api/products/route.ts:40-42 | inserting into a newest-first list gives a newest-first permutation with the new element |
| ProductService.SortNewestFirst | src/app/api/products/route.ts:40-42 | the result is newest first and a permutation of the input |
| ProductService.Page | src/app/api/products/route.ts:38-39 | `skip`/`take`: length min(limit, size − offset), or 0 past the end, and the element at i is the input at offset + i |
| ProductService.PageOfMatches | src/app/api/products/route.ts:33-43 | a page of the sorted matches is newest first and holds only matching rows of the table |
| ProductService.ListProducts | src/app/api/products/route.ts:13-55 | limit defaults to 20 and offset to 0. `total` is the number of matches. `hasMore` holds exactly when offset + limit < total. The page holds the sorted matches from offset on, with its length given by the same formula |
| ProductService.ListedProductsMatch | src/app/api/products/route.ts:21-43 | every listed product is a row that satisfies the filter, and the page is newest first |
| ProductService.NoFilterMatchesAll | src/app/api/products/route.ts:16-31 | with no search and no category, every product matches and `total` is the size of the table |
| ProductService.NewestMatchListedFirst | src/app/api/products/route.ts:33-43 | a matching product newer than every other row heads the first page |
| ProductService.ProductStore.Create | src/app/api/products/route.ts:65-93 | an invalid body is 400 with no insert, and an unknown category id is 500 with no insert. Otherwise 201, and exactly one product with the input's fields and the joined category is appended. The store invariant is kept |
| ProductModal.Step | src/components/product-modal.tsx:99-106 | one reset, decrement or increment never takes a quantity of at least 1 below 1 |
| ProductModal.RunStaysPositive | src/components/product-modal.tsx:27-29 | from any quantity of at least 1 (the initial 1 included), the quantity stays at least 1 after any sequence of resets, decrements and increments |
| ProductModal.RunEndingInReset | src/components/product-modal.tsx:27-29 | a new selection leaves the quantity at 1, whatever came before |
| ProductModal.RunIncrements | src/components/product-modal.tsx:106 | n presses of plus add n |
| ProductModal.RunDecrements | src/components/product-modal.tsx:99 | n presses of minus give max(1, q − n) |
| ProductModal.ProductModalView.constructor | src/components/product-modal.tsx:13 | the quantity starts at 1 |
| ProductModal.ProductModalView.SyncSelection | src/components/product-modal.tsx:27-29 | a changed selection resets the quantity to 1; otherwise it is kept |
| ProductModal.ProductModalView.DecrementQuantity | src/components/product-modal.tsx:99 | quantity becomes max(1, q − 1) and stays at least 1 |
| ProductModal.ProductModalView.IncrementQuantity | src/components/product-modal.tsx:106 | quantity becomes q + 1 |
| ProductModal.ProductModalView.HandleAddToCart | src/components/product-modal.tsx:31-36 | nothing is offered, and nothing changes, while the modal is closed or empty. Otherwise the cart becomes `Added` of the selected product with the chosen quantity, and the modal is closed with nothing selected |
| CartAgreement.QuantitiesOf | src/store/index.ts:44 | the quantity map has an entry exactly for the products in the cart; with one line per product, each entry is that line's quantity |
| CartAgreement.QuantitiesMapQuantity | src/store/index.ts:48-52 | rewriting a product's lines rewrites exactly that product's entry |
| CartAgreement.QuantitiesAppend | src/store/index.ts:54-62 | appending a line for a new product adds exactly its entry |
| CartAgreement.QuantitiesRemoved | src/store/index.ts:65-69 | removing a product drops exactly its entry |
| CartAgreement.QuantitiesAdded | src/store/index.ts:42-63 | addItem raises the product's entry by the quantity, or creates it with the quantity |
| CartAgreement.ServerAdded | src/app/api/cart/route.ts:80-105 | a valid POST raises the product's entry by the quantity, or creates it with the quantity |
| CartAgreement.AddAgrees | src/app/api/cart/route.ts:80-105 | on equal quantity maps, a valid POST and the client's addItem give equal quantity maps |
| CartAgreement.UpdateAgrees | src/app/api/cart/route.ts:157-174 | on equal quantity maps, a valid PUT and the client's updateQuantity give equal quantity maps |
| CartAgreement.NegativeUpdateDiffers | src/app/api/cart/route.ts:11-15 | a negative quantity is a removal for the client but a 400 with no change for the server |

## Left out

- **The database (Prisma):**
  - Tables are modelled as maps and sequences.
  - Connection and store failures, and their 500 replies, are not modelled. The exception is the unknown category on product create.
  - For a new cart item, the model creates the user's cart and its line in one step. If the line insert failed, the real route would leave behind an empty cart.
  - Concurrent requests, and the races between find-or-create and find-or-increment, are not modelled.
  - GET /api/products counts and lists in two separate queries. The model reads one snapshot.
- **Fresh ids and clocks:**
  - The client line id comes from `Date.now()`. The cart ids, product ids and `createdAt` come from the database.
  - All of these are parameters (`id`, `newCartId`, `newId`, `now`).
  - `updatedAt` and the cart timestamps are not modelled.
- **Persistence:** zustand's `persist` middleware and localStorage are not modelled; only the in-memory state is.
- **Numbers:**
  - Prices are integer cents rather than JavaScript floats, and `formatPrice` is not modelled.
  - Quantities are integers; the schemas' `min(1)` would also accept 1.5.
  - `parseInt` can give NaN or a negative `limit`/`offset`. The model takes `Option<nat>`, with None for an absent or empty parameter.
- **Text and validation:**
  - Case-insensitive matching is ASCII lower-casing. The database's own collation is not modelled.
  - `ProductService.IsValidUrl`: a stand-in for zod's URL check (a scheme starting with a letter, then ':' and more text). zod's full URL grammar is not modelled.
  - Request bodies are assumed to have every field with the right JSON type; malformed JSON and missing fields are not modelled.
  - The per-field `details` of a 400 reply are not modelled.
- **Cart replies:** they carry the cart id, the user id and the product-to-quantity map. The joined product and category rows are not modelled.
- **Ordering of equal timestamps:**
  - `ProductService.SortNewestFirst` fixes one order for products with equal `createdAt`. The database may return those in any order.
  - `ProductService.ListProducts` therefore states the page in terms of that one sorted order.
- **React:**
  - `ProductModal.ProductModalView.SyncSelection` compares selections by value. React's effect dependency compares object identity.
  - Rendering, the body-scroll effect and the backdrop click are not modelled.
- **Other parts of the repository:** the categories route, the seed script and the presentation components are not part of this model.
