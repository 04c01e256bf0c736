# Product catalogue screen — a Dafny model

This project models the client-side logic of a product catalogue administration
screen. The screen lists the products held in a client-side query cache under the
key `['products']`. It filters them by a search text and a selected category. It
offers create, edit and delete dialogs whose successful requests rewrite the cached
list in place of a refetch.

What is modelled:

- **Catalogue derivation** (`ProductsList`). `Categories` is the category picker's
  option list: `"all"` followed by the distinct product categories, in the iteration
  order of a JavaScript `Set` (insertion order). `Filter` / `FilteredProducts` is the
  list shown, kept by category and by a case-insensitive substring search on title or
  category. `ProductsView` holds the screen's own state: search text, category and the
  `{open, data}` dialog state that the edit and delete dialogs share.
- **Cache synchronisation** (`AddProductModal.ApplyCreate`,
  `EditProductModal.ApplyUpdate`, `DeleteProductModal.ApplyDelete`). These are the
  updater functions given to `setQueryData`; a missing cache entry defaults to `[]`.
  `QueryCache.ProductsQuery` is the cache entry. `SetQueryData` replaces its value by
  the updater's result.
- **Dialogs** (`AddDialog`, `EditDialog`, `DeleteDialog`). Each is a class whose
  methods are the source's handlers: opening, `handleClose`, submit, `onError` and
  `onSuccess`. Each says exactly which state it changes. `MutationErrors.ErrorText` is
  the error fallback chain that all three dialogs repeat.
- `Text` gives ASCII lower-casing and `includes`. `Sequences` gives duplicate-freedom,
  subsequences, first occurrence and insertion-ordered deduplication.

The dialog state stays the source's `{open: string, data: Product | null}` pair. It is
not turned into a tagged variant, so `open == "edit"` with no product can be
represented, as in the source. The edit dialog then renders, and its request guard
(`EditProductModal.RequestFor`) sends nothing.

The delete updater removes the id carried by the server's response to
`DELETE /products/{id}`, not the id of the dialog's product. `DeleteDialog.OnSuccess`
takes that response.

Three details of the code the model keeps as they are:

- The search predicate has no special case for an empty text; every string includes
  `""` (`Text.IncludesEmpty`), so an empty search keeps every product
  (`ProductsList.FilterEverything`).
- The dialog state is the code's `{open, data}` pair, so `open == "edit"` with no
  product can be represented.
- The delete dialog's `handleClose` does not clear its error text. The edit and add
  dialogs' do.

## Model

| member | source | states |
|---|---|---|
| `Sequences.Distinct` | src/components/products/ProductsList.tsx:53-54 | the deduplicated list has no duplicates and holds exactly the values of the input |
| `Sequences.DistinctFirstSeenOrder` | src/components/products/ProductsList.tsx:53-54 | the deduplicated values come in the order of their first occurrence (insertion order of a `Set`) |
| `Sequences.FirstIndex` | src/components/products/ProductsList.tsx:53 | the index returned holds the value and no earlier position does |
| `Sequences.NoDuplicatesCardinality` | src/components/products/ProductsList.tsx:53-54 | a duplicate-free list is as long as the set of its values |
| `Text.LowerChar` | src/components/products/ProductsList.tsx:63-64 | a capital becomes its lower-case letter (code point plus 32); every other character is kept |
| `Text.Lower` | src/components/products/ProductsList.tsx:63-64 | `toLowerCase` keeps the length and lower-cases each character |
| `Text.LowerIdempotent` | src/components/products/ProductsList.tsx:63-64 | lower-casing twice equals lower-casing once |
| `Text.Includes` | src/components/products/ProductsList.tsx:63-64 | `includes` can hold only when the searched text is no longer than the string |
| `Text.IncludesAt` | src/components/products/ProductsList.tsx:63-64 | `includes` holds exactly when the text occurs at some position |
| `Text.IncludesFirstChar` | src/components/products/ProductsList.tsx:63-64 | a string that includes a non-empty text contains that text's first character |
| `Text.IncludesEmpty` | src/components/products/ProductsList.tsx:63-64 | every string includes the empty string |
| `Products.CountId` | src/components/products/DeleteProductModal.tsx:31 | the count of an id is at most the length and is zero exactly when the id is absent |
| `Products.UniqueIdOccursOnce` | src/components/products/DeleteProductModal.tsx:31 | in a list with unique ids, a present id occurs exactly once |
| `MutationErrors.ErrorText` | src/components/products/AddProductModal.tsx:71 | the error text is never empty and is the response message, the error message or "Something went wrong" |
| `MutationErrors.ErrorTextPriority` | src/components/products/AddProductModal.tsx:71 | a non-empty response message wins; else a non-empty error message; else the fallback text |
| `QueryCache.ProductsQuery.constructor` | src/components/products/ProductsList.tsx:40-48 | before the fetch resolves the cache entry is missing |
| `QueryCache.ProductsQuery.Resolve` | src/components/products/ProductsList.tsx:35-38 | a resolved fetch stores the fetched list |
| `QueryCache.ProductsQuery.SetQueryData` | src/components/products/AddProductModal.tsx:75 | the entry becomes the updater applied to the previous, possibly missing, entry |
| `ProductsList.CategoryList` | src/components/products/ProductsList.tsx:53 | position by position, the categories of the products |
| `ProductsList.Categories` | src/components/products/ProductsList.tsx:52-55 | the option list is never empty and starts with "all" |
| `ProductsList.CategoriesOfNothing` | src/components/products/ProductsList.tsx:53-54 | with no products, or none fetched yet, the options are exactly `["all"]` |
| `ProductsList.CategoriesTail` | src/components/products/ProductsList.tsx:53-54 | after "all" come exactly the product categories, without duplicates, in first-seen order |
| `ProductsList.CategoriesLength` | src/components/products/ProductsList.tsx:54 | the option list has one entry more than there are distinct categories |
| `ProductsList.CategoriesRepeatAll` | src/components/products/ProductsList.tsx:54 | a product with category "all" makes "all" appear a second time |
| `ProductsList.Filter` | src/components/products/ProductsList.tsx:57-68 | the kept products are exactly the products matching category and search |
| `ProductsList.FilteredProducts` | src/components/products/ProductsList.tsx:57-58 | the filtered view is missing exactly when the product list is |
| `ProductsList.FilterIsSubsequence` | src/components/products/ProductsList.tsx:58 | the filtered list is an order-preserving subsequence of the products |
| `ProductsList.FilterCounts` | src/components/products/ProductsList.tsx:58-66 | a matching product is kept as many times as it occurs; a non-matching one not at all |
| `ProductsList.FilterEverything` | src/components/products/ProductsList.tsx:59-64 | with empty search and category "all" the whole list is shown |
| `ProductsList.FilterUnknownCategory` | src/components/products/ProductsList.tsx:59-60 | a category that is neither "all" nor any product's shows nothing |
| `ProductsList.FilterCaseInsensitive` | src/components/products/ProductsList.tsx:63-64 | searching for the lower-cased text gives the same result as the original text |
| `ProductsList.ProductsView.constructor` | src/components/products/ProductsList.tsx:27-33 | the screen starts with empty search, category "all" and the dialog closed |
| `ProductsList.ProductsView.SetSearch` | src/components/products/ProductsList.tsx:91 | the search text changes and nothing else |
| `ProductsList.ProductsView.SetCategory` | src/components/products/ProductsList.tsx:97 | the category changes and nothing else |
| `ProductsList.ProductsView.SetDialog` | src/components/products/ProductsList.tsx:27-30 | the dialog state changes and nothing else |
| `ProductsList.ProductsView.Shown` | src/components/products/ProductsList.tsx:57-68 | in the initial search and category the shown list is the cached list |
| `AddProductModal.ApplyCreate` | src/components/products/AddProductModal.tsx:75 | create puts the new id before the old ids and adds exactly one element, the created product |
| `AddProductModal.CreatePrepends` | src/components/products/AddProductModal.tsx:75 | create adds one element, the created product at index 0, the old list shifted by one |
| `AddProductModal.CreateOnMissingCache` | src/components/products/AddProductModal.tsx:75 | on a missing cache entry the result is the created product alone |
| `AddProductModal.CreateKeepsSameId` | src/components/products/AddProductModal.tsx:75 | no deduplication: an existing element with the same id stays beside the new one |
| `AddProductModal.CreateUniqueIds` | src/components/products/AddProductModal.tsx:75 | on unique ids, create keeps ids unique exactly when the new id is absent |
| `AddProductModal.AddDialog.constructor` | src/components/products/AddProductModal.tsx:51-63 | the dialog starts closed, without error, with the default form values |
| `AddProductModal.AddDialog.Open` | src/components/products/AddProductModal.tsx:96-99 | the button opens the dialog and changes nothing else |
| `AddProductModal.AddDialog.HandleClose` | src/components/products/AddProductModal.tsx:86-90 | closing resets the form, closes the dialog and clears the error |
| `AddProductModal.AddDialog.OnSubmit` | src/components/products/AddProductModal.tsx:80-84 | submitting clears the error and sends the submitted values |
| `AddProductModal.AddDialog.OnError` | src/components/products/AddProductModal.tsx:70-72 | a failure stores the fallback-chain text and leaves the dialog open |
| `AddProductModal.AddDialog.OnSuccess` | src/components/products/AddProductModal.tsx:73-77 | success prepends the product to the cache, then closes and resets the dialog |
| `EditProductModal.ApplyUpdate` | src/components/products/EditProductModal.tsx:95-100 | update keeps the sequence of ids, and every element is the updated product or an old element |
| `EditProductModal.UpdateReplaces` | src/components/products/EditProductModal.tsx:95-100 | update keeps the length, replaces every element with the id and keeps every other in place |
| `EditProductModal.UpdateAtPosition` | src/components/products/EditProductModal.tsx:95-100 | on unique ids, update is replacement at the one position holding the id |
| `EditProductModal.UpdateAbsent` | src/components/products/EditProductModal.tsx:95-100 | updating an absent id leaves the list unchanged |
| `EditProductModal.UpdateIdempotent` | src/components/products/EditProductModal.tsx:95-100 | updating twice equals updating once |
| `EditProductModal.UpdateKeepsIds` | src/components/products/EditProductModal.tsx:95-100 | the sequence of ids is unchanged, so unique ids stay unique |
| `EditProductModal.UpdateUnchanged` | src/components/products/EditProductModal.tsx:95-100 | on unique ids, updating with a product already in the list leaves the list as it was |
| `EditProductModal.RequestFor` | src/components/products/EditProductModal.tsx:85-89 | no target product means no request; otherwise PUT to the target's id with the submitted body |
| `EditProductModal.FormRoundTrip` | src/components/products/EditProductModal.tsx:74-82 | the form filled from a product holds every field but the id and rating, so they rebuild the product |
| `EditProductModal.EditDialog.IsOpen` | src/components/products/EditProductModal.tsx:119-120 | the dialog renders only for "edit", never in the closed state |
| `EditProductModal.EditDialog.constructor` | src/components/products/EditProductModal.tsx:56-72 | the dialog starts without error, with the default form values, bound to the screen state |
| `EditProductModal.EditDialog.SyncForm` | src/components/products/EditProductModal.tsx:74-82 | with a target product the form takes its values; without one the form is unchanged |
| `EditProductModal.EditDialog.HandleClose` | src/components/products/EditProductModal.tsx:112-116 | closing resets the form, clears the error and sets the screen's dialog state to `{open: \"\", data: null}`, hiding the dialog; search and category stay |
| `EditProductModal.EditDialog.OnSubmit` | src/components/products/EditProductModal.tsx:105-109 | submitting clears the error and issues the guarded request |
| `EditProductModal.EditDialog.OnError` | src/components/products/EditProductModal.tsx:90-92 | a failure stores the fallback-chain text |
| `EditProductModal.EditDialog.OnSuccess` | src/components/products/EditProductModal.tsx:93-102 | success applies the update to the cache, then closes the dialog; search and category stay |
| `DeleteProductModal.WithoutId` | src/components/products/DeleteProductModal.tsx:31 | survivors are exactly the elements whose id differs |
| `DeleteProductModal.ApplyDelete` | src/components/products/DeleteProductModal.tsx:31 | after delete no element carries the id |
| `DeleteProductModal.DeleteOnMissingCache` | src/components/products/DeleteProductModal.tsx:31 | on a missing cache entry the result is empty |
| `DeleteProductModal.DeleteIsSubsequence` | src/components/products/DeleteProductModal.tsx:31 | survivors keep their relative order |
| `DeleteProductModal.DeleteCounts` | src/components/products/DeleteProductModal.tsx:31 | an element with another id survives as often as it occurs; those with the id are gone |
| `DeleteProductModal.DeleteLength` | src/components/products/DeleteProductModal.tsx:31 | the length drops by the number of elements carrying the id |
| `DeleteProductModal.DeleteOne` | src/components/products/DeleteProductModal.tsx:31 | on unique ids, deleting a present id drops the length by one |
| `DeleteProductModal.DeleteAbsent` | src/components/products/DeleteProductModal.tsx:31 | deleting an absent id leaves the list unchanged |
| `DeleteProductModal.DeleteIdempotent` | src/components/products/DeleteProductModal.tsx:31 | deleting twice equals deleting once |
| `DeleteProductModal.DeleteKeepsUniqueIds` | src/components/products/DeleteProductModal.tsx:31 | delete keeps ids unique |
| `DeleteProductModal.DeleteDialog.constructor` | src/components/products/DeleteProductModal.tsx:16-19 | the dialog starts without error, bound to the screen state |
| `DeleteProductModal.DeleteDialog.IsOpen` | src/components/products/DeleteProductModal.tsx:40-42 | the dialog renders only for "delete" with a product, never in the closed state |
| `DeleteProductModal.DeleteDialog.Confirm` | src/components/products/DeleteProductModal.tsx:60 | the delete button requests the id of the dialog's product |
| `DeleteProductModal.DeleteDialog.HandleClose` | src/components/products/DeleteProductModal.tsx:36-38 | closing sets the screen's dialog state to `{open: \"\", data: null}`, hiding the dialog; the error text, search and category stay |
| `DeleteProductModal.DeleteDialog.OnError` | src/components/products/DeleteProductModal.tsx:26-28 | a failure stores the fallback-chain text |
| `DeleteProductModal.DeleteDialog.OnSuccess` | src/components/products/DeleteProductModal.tsx:29-33 | success removes the reported id from the cache, then closes the dialog; error text, search and category stay |
| `Scenarios.CreateScenario` | src/components/products/AddProductModal.tsx:75 | creating id 3 before ids 1 and 2 gives ids 3, 1, 2 |
| `Scenarios.DeleteScenario` | src/components/products/DeleteProductModal.tsx:31 | deleting id 1 from ids 1, 2 leaves id 2 |
| `Scenarios.SearchScenario` | src/components/products/ProductsList.tsx:62-64 | "ho" finds "Shoe" by title and not "Hat" in "hats" |
| `Scenarios.UpperCaseScenario` | src/components/products/ProductsList.tsx:63-64 | "SHOE" and "shoe" find the same products |
| `Scenarios.CategoriesScenario` | src/components/products/ProductsList.tsx:52-55 | the categories of shoe, hat, sock are "all", "shoes", "hats" |

`Confirm` requires `DeleteProductModal.DeleteDialog.IsOpen`, because the delete
button exists only while the dialog renders.

## Left out

- Network and asynchrony: the GET/POST/PUT/DELETE requests, loading, pending and error
  states of the query and mutations, and the blocking error view (ProductsList.tsx:35-48,
  70-76). Only their outcomes enter the model: `Resolve` with the fetched list,
  `OnSuccess` with the server's product, `OnError` with the error.
- Form validation with zod (required fields, `trim`, `min(0.01)`, URL syntax). It is a
  library the model cannot see. `OnSubmit` takes the values that passed it.
- `price` is a JavaScript floating-point number, kept as an opaque `real`. `Number(x)`
  on a value that is already a number is the identity. Parsing text into a number is not
  modelled.
- `Text.Lower`: only ASCII letters are lower-cased; the full Unicode case mapping of
  `toLowerCase` is not modelled.
- `MutationErrors.ErrorText`: the error is a non-null record with string messages. A
  nullish error, which would make `error.message` throw, and non-string messages are not
  modelled.
- `EditProductModal.EditDialog.OnSuccess`: takes the server's product. With no target,
  `mutationFn` resolves to `undefined`, and the source's `onSuccess` would then read
  `data.id` of `undefined`. That path is not modelled.
- User typing into the form fields, keypress suppression on the price field, label
  capitalisation, `console.log`, and rendering of cards, skeletons, sidebar and routing.
- ProductsList.ProductsView.SetDialog: stands for card buttons that would open the
  edit and delete dialogs. ProductsList.tsx:129 passes the setter to each card, but
  ProductCard.tsx:4 takes only `product` and renders no such button. The only writes to
  the dialog state in the code are the resets at EditProductModal.tsx:115 and
  DeleteProductModal.tsx:37, so both dialogs are unreachable as the code stands.
- The `rating` field is carried in `Product` and never inspected.
