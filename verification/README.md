# Cart hook model

A Dafny model of the shopping-cart state kept by `CartProvider` in
`src/hooks/useCart.tsx`. The provider holds an ordered list of cart entries
(a product's id, title, price and image, plus an amount). It also keeps a
copy of that list in `localStorage` under `@RocketShoes:cart`. It offers three
mutations:

- `addProduct(productId)` asks the stock endpoint for the product's stock. With
  no stock it reports "out of stock". For a product already in the cart it
  delegates to `updateProductAmount` with the existing amount plus one.
  Otherwise it fetches the product and appends it with amount 1.
- `removeProduct(productId)` filters the id out. For an id not in the cart it
  reports a removal error.
- `updateProductAmount({productId, amount})` ignores amounts of zero or less.
  It refuses amounts above the stock. Otherwise it rewrites the amount of the
  matching entries.

Every successful mutation writes the new list both to memory (`setCart`) and
to storage (`localStorage.setItem`). Every failure raises one toast and
writes nothing.

The project has two modules:

- `cart_items.dfy`, module `CartItems`: the entry datatypes and the pure list
  computations of the hook. These are `find` (`Find`), the `filter` that
  removes an id (`Without`) and the `map` that rewrites an amount
  (`WithAmount`). The module also states the two cart invariants: unique ids
  (`UniqueIds`) and every amount at least one (`PositiveAmounts`).
- `use_cart.dfy`, module `UseCart`: the outcomes and their toast messages,
  and one pure step function per operation (`AddStep`, `RemoveStep`,
  `UpdateStep`). Each says what the operation reports and which cart it
  commits, if any. The module also holds the lemmas for each operation's
  branches and the class `CartProvider`. Its fields `cart` and `stored` are
  the in-memory cart and the stored snapshot, and each of its methods is
  proved to perform its step exactly. `Replay` runs any sequence of
  operations, and `ReplayKeepsInvariants` shows that memory and storage stay
  in agreement and that a well-formed cart stays well formed.

Each remote request is a parameter of type `Response<T>`. It is either the
answer (`Ok(data)`) or `Failed`, for a request that throws. `addProduct` makes
at most two requests: the stock, then either the delegated update's stock
request or the product request. `AddStep` and `AddProduct` take one response
for each of the three possible requests.

Two behaviours of the code are worth knowing:

- `updateProductAmount` on an id not in the cart does not fail: the `map`
  changes no entry, the unchanged cart is still written to memory and
  storage, and nothing is reported (`UpdateRewritesAmount`).
- Removing an absent id reports the generic removal toast
  (`RemoveFailed`). There is no separate not-found outcome.

## Model

| member | source | states |
|---|---|---|
| CartItems.Find | src/hooks/useCart.tsx:38 | there is no result exactly when no entry has the id; a result is an entry of the cart with that id |
| CartItems.FindIsFirst | src/hooks/useCart.tsx:74 | `find` answers the earliest entry with the id |
| CartItems.FindUnique | src/hooks/useCart.tsx:46-48 | with unique ids, `find` answers the one entry with the id, whose amount the add path increments |
| CartItems.Without | src/hooks/useCart.tsx:78 | the filtered cart holds exactly the entries of the cart whose id differs, and is no longer |
| CartItems.WithoutConcat | src/hooks/useCart.tsx:78 | filtering distributes over concatenation, so kept entries keep their relative order |
| CartItems.WithoutSingle | src/hooks/useCart.tsx:78 | a single entry is kept exactly when its id differs |
| CartItems.WithoutAbsent | src/hooks/useCart.tsx:78-79 | filtering out an id the cart lacks leaves the cart equal to itself |
| CartItems.WithoutDropsOnly | src/hooks/useCart.tsx:78 | filtering out an id carried only by the entry at index k gives the cart with exactly that entry dropped, the others in order |
| CartItems.WithoutDropsUnique | src/hooks/useCart.tsx:78 | with unique ids, filtering out the id of the entry at index k drops exactly that entry |
| CartItems.WithoutKeepsUniqueIds | src/hooks/useCart.tsx:78 | filtering keeps ids unique |
| CartItems.WithoutKeepsWellFormed | src/hooks/useCart.tsx:78-81 | filtering keeps ids unique and all amounts at least one |
| CartItems.WithAmount | src/hooks/useCart.tsx:108-111 | same length; each entry keeps id, title, price and image; the amount becomes the requested one on entries with the id and stays on the others |
| CartItems.WithAmountKeepsIds | src/hooks/useCart.tsx:108-111 | the rewritten cart has the same ids in the same order |
| CartItems.WithAmountAbsent | src/hooks/useCart.tsx:108-111 | rewriting the amount of an absent id leaves the cart unchanged |
| CartItems.WithAmountUnique | src/hooks/useCart.tsx:108-111 | with unique ids, only the single matching entry changes, and only in its amount |
| CartItems.WithAmountKeepsWellFormed | src/hooks/useCart.tsx:99-111 | rewriting to an amount of at least one keeps ids unique and all amounts at least one |
| CartItems.AppendKeepsWellFormed | src/hooks/useCart.tsx:54-60 | appending `{...product, amount: 1}` for an id the cart lacks keeps it well formed |
| UseCart.Toast | src/hooks/useCart.tsx:44-118 | a toast is raised exactly for the failure outcomes, none for success or the silent no-op |
| UseCart.ToastsDistinct | src/hooks/useCart.tsx:44-118 | two different failure outcomes raise different messages |
| UseCart.Commit | src/hooks/useCart.tsx:62-63 | a written cart becomes both the in-memory cart and the snapshot; nothing written means nothing changes; memory and snapshot stay in agreement |
| UseCart.ReloadRestores | src/hooks/useCart.tsx:25-34 | loading the snapshot of a synced state gives back its cart |
| UseCart.UpdateStep | src/hooks/useCart.tsx:93-120 | a cart is written exactly on success; the outcome is success, silent skip, out of stock or update error |
| UseCart.AddStep | src/hooks/useCart.tsx:36-69 | a cart is written exactly on success; the outcome is success, silent skip (from the delegated update), out of stock, add error or update error |
| UseCart.RemoveStep | src/hooks/useCart.tsx:71-91 | a cart is written exactly on success; the outcome is success or removal error |
| UseCart.UpdateNonPositiveIsSilent | src/hooks/useCart.tsx:99 | an amount of zero or less writes nothing and raises no toast |
| UseCart.UpdateRefused | src/hooks/useCart.tsx:101-106 | an amount above stock is reported out of stock and a failed stock request as an update error; neither writes |
| UseCart.UpdateRewritesAmount | src/hooks/useCart.tsx:108-115 | an amount within stock succeeds; same length and ids; only the matching entries' amount changes, to the requested value; an absent id leaves the cart as it was |
| UseCart.UpdateKeepsIds | src/hooks/useCart.tsx:108-111 | whatever an update writes has the same ids in the same order |
| UseCart.AddLookupFailure | src/hooks/useCart.tsx:66-68 | a failed stock request, or a failed product request for a new product, gives the add error and writes nothing |
| UseCart.AddOutOfStock | src/hooks/useCart.tsx:43-45 | stock of zero or less is reported out of stock and writes nothing |
| UseCart.AddNewAppends | src/hooks/useCart.tsx:50-63 | a new product is appended once at the end with the fetched fields and amount 1; the earlier entries are unchanged and in order |
| UseCart.AddExistingDelegates | src/hooks/useCart.tsx:46-48 | a product already in the cart becomes an update to its amount plus one, stock-checked again, and never adds an id |
| UseCart.AddExistingIncrements | src/hooks/useCart.tsx:46-48 | with unique ids, the entry's amount goes up by exactly one when the stock allows it, else out of stock with nothing written |
| UseCart.RemoveFilters | src/hooks/useCart.tsx:74-89 | a present id is removed entirely, the cart gets shorter and keeps every other entry; an absent id gives the removal error and writes nothing |
| UseCart.RemoveDropsEntry | src/hooks/useCart.tsx:76-81 | with unique ids, removing the id of the entry at index k succeeds and writes the cart with exactly that entry dropped and the others in order |
| UseCart.StepKeepsWellFormed | src/hooks/useCart.tsx:36-120 | any one operation on a well-formed cart writes only well-formed carts, if the catalogue answers the requested product |
| UseCart.ReplayKeepsInvariants | src/hooks/useCart.tsx:24-120 | after any sequence of operations, memory and snapshot agree and ids stay unique with amounts at least one |
| UseCart.CartProvider.constructor | src/hooks/useCart.tsx:25-34 | the initial cart is the stored snapshot, or empty without one; memory and snapshot agree |
| UseCart.CartProvider.UpdateProductAmount | src/hooks/useCart.tsx:93-120 | reports and commits exactly `UpdateStep`; on success the snapshot equals the cart; otherwise nothing changes |
| UseCart.CartProvider.AddProduct | src/hooks/useCart.tsx:36-69 | reports and commits exactly `AddStep`; on success the snapshot equals the cart; otherwise nothing changes |
| UseCart.CartProvider.RemoveProduct | src/hooks/useCart.tsx:71-91 | reports and commits exactly `RemoveStep`; on success the snapshot equals the cart; otherwise nothing changes |

## Left out

- React plumbing (`createContext`, `useState`, `useContext`, the provider
  element) is left out. The provider is a plain class with two fields.
- The HTTP requests through `api.get` are left out. Their answers are
  `Response` parameters of the operations.
- `localStorage` is modelled as the `stored` field. The JSON encoding and
  parsing of the snapshot are left out: the field holds the cart itself.
  `stored` is `None` when storage holds no cart. An empty string in storage is
  falsy in the source too, so it also counts as no cart.
- The model assumes `localStorage.setItem` never throws. In the source,
  `setCart` runs before `setItem`. A throwing `setItem` would leave memory
  updated and storage not, and still raise the operation's error toast.
- Toasts and `console.log` are replaced by the returned `Outcome`. `Toast`
  gives the message text of each outcome.
- Ids, amounts and stock are unbounded integers. JSON values that are not
  numbers (a missing `amount` makes the source's comparisons false) are
  left out.
- Concurrency is left out and the model is sequential. `addProduct` does not
  await the `updateProductAmount` it delegates to. Each request awaits, so
  calls can interleave and work on stale carts. In the model the delegated
  update runs to completion inside the add, and its outcome is the add's
  outcome.
- The commented-out `useEffect` persistence is not modelled.
- The price is carried as a `real` and never computed with.
- StepKeepsWellFormed and ReplayKeepsInvariants assume that the products
  endpoint answers the product that was requested. The appended entry takes
  its id from the answer, not from `productId`, so a mismatched answer could
  duplicate an id.
- The well-formedness lemmas assume the loaded snapshot was already well
  formed. The source reads the snapshot back without checking it.
