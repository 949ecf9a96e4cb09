/** The cart provider: the in-memory cart, its persisted snapshot, and the three
    mutations (add a product, remove a product, set a product's amount).

    Every lookup against the remote api is a parameter of type `Response`: the
    stock amount the stock endpoint answers, or the product the products
    endpoint answers, or `Failed` when the request throws. Each operation is
    specified by a pure step function that says what it reports and which cart
    (if any) it commits to memory and to the snapshot; the methods of
    `CartProvider` are proved to do exactly that step. */
module UseCart {
  import opened CartItems

  /** The answer of one api request. */
  datatype Response<T> = Ok(data: T) | Failed

  /** How an operation ends. `Done`: the new cart was committed. `Skipped`:
      nothing happened and nothing is reported. The other four each raise one
      error toast. */
  datatype Outcome = Done | Skipped | OutOfStock | AddFailed | RemoveFailed | UpdateFailed

  const OutOfStockMessage := "Quantidade solicitada fora de estoque"
  const AddFailedMessage := "Erro na adição do produto"
  const RemoveFailedMessage := "Erro na remoção do produto"
  const UpdateFailedMessage := "Erro na alteração de quantidade do produto"

  /** The toast an outcome raises: exactly one for each failure, none otherwise. */
  function Toast(o: Outcome): (m: Option<string>)
    ensures m.None? <==> o == Done || o == Skipped
  {
    match o
    case Done => None
    case Skipped => None
    case OutOfStock => Some(OutOfStockMessage)
    case AddFailed => Some(AddFailedMessage)
    case RemoveFailed => Some(RemoveFailedMessage)
    case UpdateFailed => Some(UpdateFailedMessage)
  }

  /** Distinct failures are told apart by their messages. */
  lemma ToastsDistinct(o1: Outcome, o2: Outcome)
    requires Toast(o1).Some? && o1 != o2
    ensures Toast(o1) != Toast(o2)
  {
  }

  /** What one operation does: its outcome, and the cart it writes with
      `setCart` and `localStorage.setItem`, if it writes one. */
  datatype Step = Step(outcome: Outcome, write: Option<seq<Item>>)

  /** The provider's state: the cart in memory, and the snapshot in storage
      (`None` while storage holds no cart). */
  datatype Session = Session(cart: seq<Item>, stored: Option<seq<Item>>)

  /** Memory and storage agree: the snapshot is the cart, or there is no
      snapshot yet and the cart is the empty one it defaults to. */
  predicate Synced(st: Session)
  {
    st.stored == Some(st.cart) || (st.stored == None && st.cart == [])
  }

  /** The initial cart: the stored snapshot, or the empty cart without one. */
  function Loaded(snapshot: Option<seq<Item>>): seq<Item>
  {
    match snapshot
    case Some(c) => c
    case None => []
  }

  /** Carrying out a step: a written cart replaces both the in-memory cart
      and the snapshot; a step that writes nothing leaves both alone. */
  function Commit(st: Session, s: Step): (st': Session)
    ensures s.write.Some? ==> st'.cart == s.write.value && st'.stored == Some(st'.cart)
    ensures s.write.None? ==> st' == st
    ensures Synced(st) ==> Synced(st')
  {
    match s.write
    case Some(c) => Session(c, Some(c))
    case None => st
  }

  /** Reloading the snapshot of a synced session gives back its cart. */
  lemma ReloadRestores(st: Session)
    requires Synced(st)
    ensures Loaded(st.stored) == st.cart
  {
  }

  /** `updateProductAmount({productId, amount})` on cart `c`, where `stock`
      answers the stock request. */
  function UpdateStep(c: seq<Item>, productId: int, amount: int, stock: Response<int>): (s: Step)
    ensures s.write.Some? <==> s.outcome == Done
    ensures s.outcome == Done || s.outcome == Skipped || s.outcome == OutOfStock || s.outcome == UpdateFailed
  {
    if amount <= 0 then Step(Skipped, None)
    else
      match stock
      case Failed => Step(UpdateFailed, None)
      case Ok(stockAmount) =>
        if amount > stockAmount then Step(OutOfStock, None)
        else Step(Done, Some(WithAmount(c, productId, amount)))
  }

  /** `addProduct(productId)` on cart `c`: `stock` answers the first stock
      request, `restock` the stock request of the delegated amount update, and
      `product` the products request. */
  function AddStep(c: seq<Item>, productId: int, stock: Response<int>, restock: Response<int>,
                   product: Response<Product>): (s: Step)
    ensures s.write.Some? <==> s.outcome == Done
    ensures s.outcome == Done || s.outcome == Skipped || s.outcome == OutOfStock ||
            s.outcome == AddFailed || s.outcome == UpdateFailed
  {
    var found := Find(c, productId);
    match stock
    case Failed => Step(AddFailed, None)
    case Ok(stockAmount) =>
      if stockAmount <= 0 then Step(OutOfStock, None)
      else if found.Some? then UpdateStep(c, productId, found.value.amount + 1, restock)
      else
        match product
        case Failed => Step(AddFailed, None)
        case Ok(p) => Step(Done, Some(c + [AsItem(p, 1)]))
  }

  /** `removeProduct(productId)` on cart `c`. */
  function RemoveStep(c: seq<Item>, productId: int): (s: Step)
    ensures s.write.Some? <==> s.outcome == Done
    ensures s.outcome == Done || s.outcome == RemoveFailed
  {
    if Find(c, productId).Some? then Step(Done, Some(Without(c, productId)))
    else Step(RemoveFailed, None)
  }

  // ---------------------------------------------------------------------------
  // Properties of updateProductAmount

  /** A requested amount of zero or less is ignored silently. */
  lemma UpdateNonPositiveIsSilent(c: seq<Item>, productId: int, amount: int, stock: Response<int>)
    requires amount <= 0
    ensures UpdateStep(c, productId, amount, stock) == Step(Skipped, None)
    ensures Toast(UpdateStep(c, productId, amount, stock).outcome).None?
  {
  }

  /** A positive amount above the stock is refused as out of stock, and a
      failed stock request as an update error; neither writes anything. */
  lemma UpdateRefused(c: seq<Item>, productId: int, amount: int, stock: Response<int>)
    requires amount > 0
    requires stock.Failed? || amount > stock.data
    ensures UpdateStep(c, productId, amount, stock)
            == Step(if stock.Failed? then UpdateFailed else OutOfStock, None)
  {
  }

  /** A positive amount within stock rewrites only the amount of the entries
      with the id: same length, same order, same ids and other fields; an id
      the cart does not hold leaves the cart as it was. */
  lemma {:induction false} UpdateRewritesAmount(c: seq<Item>, productId: int, amount: int, stockAmount: int)
    requires 0 < amount <= stockAmount
    ensures var s := UpdateStep(c, productId, amount, Ok(stockAmount));
            s.outcome == Done && s.write.Some? &&
            |s.write.value| == |c| && Ids(s.write.value) == Ids(c) &&
            (forall i :: 0 <= i < |c| && c[i].id != productId ==> s.write.value[i] == c[i]) &&
            (forall i :: 0 <= i < |c| && c[i].id == productId ==>
               s.write.value[i] == c[i].(amount := amount)) &&
            (!InCart(c, productId) ==> s.write.value == c)
  {
    WithAmountKeepsIds(c, productId, amount);
    if !InCart(c, productId) {
      WithAmountAbsent(c, productId, amount);
    }
  }

  /** Whatever an amount update writes has the same ids in the same order. */
  lemma UpdateKeepsIds(c: seq<Item>, productId: int, amount: int, stock: Response<int>)
    ensures var s := UpdateStep(c, productId, amount, stock);
            s.write.Some? ==> Ids(s.write.value) == Ids(c)
  {
    WithAmountKeepsIds(c, productId, amount);
  }

  // ---------------------------------------------------------------------------
  // Properties of addProduct

  /** A failed stock request, or a failed product request for a new product,
      is reported as an add error and writes nothing. */
  lemma AddLookupFailure(c: seq<Item>, productId: int, stock: Response<int>, restock: Response<int>,
                         product: Response<Product>)
    requires stock.Failed? || (stock.data > 0 && !InCart(c, productId) && product.Failed?)
    ensures AddStep(c, productId, stock, restock, product) == Step(AddFailed, None)
  {
  }

  /** No stock: reported as out of stock, nothing written. */
  lemma AddOutOfStock(c: seq<Item>, productId: int, stockAmount: int, restock: Response<int>,
                      product: Response<Product>)
    requires stockAmount <= 0
    ensures AddStep(c, productId, Ok(stockAmount), restock, product) == Step(OutOfStock, None)
  {
  }

  /** A product not yet in the cart is appended once, at the end, with the
      fetched fields and amount one; the earlier entries stay as they were. */
  lemma AddNewAppends(c: seq<Item>, productId: int, stockAmount: int, restock: Response<int>, p: Product)
    requires stockAmount > 0
    requires !InCart(c, productId)
    ensures var s := AddStep(c, productId, Ok(stockAmount), restock, Ok(p));
            s.outcome == Done && s.write.Some? &&
            |s.write.value| == |c| + 1 && s.write.value[..|c|] == c &&
            s.write.value[|c|] == Item(p.id, p.title, p.price, p.image, 1) &&
            Ids(s.write.value) == Ids(c) + [p.id]
  {
    var r := c + [AsItem(p, 1)];
    assert r[..|c|] == c;
  }

  /** A product already in the cart is never added a second time: the add
      becomes an amount update to the existing amount plus one, checked again
      against the stock, and whatever it writes has the same ids in the same
      order. */
  lemma AddExistingDelegates(c: seq<Item>, productId: int, stockAmount: int, restock: Response<int>,
                             product: Response<Product>)
    requires stockAmount > 0
    requires InCart(c, productId)
    ensures var s := AddStep(c, productId, Ok(stockAmount), restock, product);
            s == UpdateStep(c, productId, Find(c, productId).value.amount + 1, restock) &&
            (s.write.Some? ==> Ids(s.write.value) == Ids(c))
  {
    UpdateKeepsIds(c, productId, Find(c, productId).value.amount + 1, restock);
  }

  /** In a cart with unique ids, adding a product at index `k` with enough
      stock raises that entry's amount by exactly one and changes nothing
      else; without enough stock for one more it reports out of stock. */
  lemma AddExistingIncrements(c: seq<Item>, k: nat, stockAmount: int, restockAmount: int,
                              product: Response<Product>)
    requires UniqueIds(c)
    requires k < |c| && c[k].amount >= 0
    requires stockAmount > 0
    ensures var s := AddStep(c, c[k].id, Ok(stockAmount), Ok(restockAmount), product);
            s == if c[k].amount + 1 <= restockAmount
                 then Step(Done, Some(c[k := c[k].(amount := c[k].amount + 1)]))
                 else Step(OutOfStock, None)
  {
    var id, amount := c[k].id, c[k].amount + 1;
    FindUnique(c, id, k);
    assert AddStep(c, id, Ok(stockAmount), Ok(restockAmount), product)
           == UpdateStep(c, id, amount, Ok(restockAmount));
    WithAmountUnique(c, id, amount, k);
  }

  // ---------------------------------------------------------------------------
  // Properties of removeProduct

  /** Removing a product in the cart drops every entry with its id and keeps
      the rest in order; removing one not in the cart is reported as a removal
      error and writes nothing. */
  lemma RemoveFilters(c: seq<Item>, productId: int)
    ensures var s := RemoveStep(c, productId);
            if InCart(c, productId) then
              s.outcome == Done && s.write.Some? &&
              !InCart(s.write.value, productId) &&
              |s.write.value| < |c| &&
              (forall x :: x in s.write.value <==> x in c && x.id != productId)
            else s == Step(RemoveFailed, None)
  {
    if InCart(c, productId) {
      var r := Without(c, productId);
      var i :| 0 <= i < |c| && c[i].id == productId;
      WithoutConcat(c[..i], c[i..], productId);
      WithoutConcat([c[i]], c[i + 1..], productId);
      WithoutSingle(c[i], productId);
      assert c == c[..i] + c[i..];
      assert c[i..] == [c[i]] + c[i + 1..];
      assert |r| <= |c[..i]| + |c[i + 1..]|;
      forall j | 0 <= j < |r| ensures r[j].id != productId {
        assert r[j] in r;
      }
    }
  }

  /** In a cart with unique ids, removing the id of the entry at index `k`
      drops exactly that entry and keeps all the others in their order. */
  lemma RemoveDropsEntry(c: seq<Item>, k: nat)
    requires UniqueIds(c)
    requires k < |c|
    ensures RemoveStep(c, c[k].id) == Step(Done, Some(c[..k] + c[k + 1..]))
  {
    WithoutDropsUnique(c, k);
  }

  // ---------------------------------------------------------------------------
  // The invariants every operation keeps

  /** The operations as a caller issues them, with the api's answers. */
  datatype Op =
    | AddOp(productId: int, stock: Response<int>, restock: Response<int>, product: Response<Product>)
    | RemoveOp(productId: int)
    | UpdateOp(productId: int, amount: int, stock: Response<int>)

  function StepOf(c: seq<Item>, op: Op): Step
  {
    match op
    case AddOp(id, stock, restock, product) => AddStep(c, id, stock, restock, product)
    case RemoveOp(id) => RemoveStep(c, id)
    case UpdateOp(id, amount, stock) => UpdateStep(c, id, amount, stock)
  }

  /** The products endpoint answers the product that was asked for. */
  predicate CatalogConsistent(op: Op)
  {
    op.AddOp? && op.product.Ok? ==> op.product.data.id == op.productId
  }

  /** Any one operation on a well-formed cart writes, if anything, a
      well-formed cart. */
  lemma StepKeepsWellFormed(c: seq<Item>, op: Op)
    requires WellFormed(c)
    requires CatalogConsistent(op)
    ensures StepOf(c, op).write.Some? ==> WellFormed(StepOf(c, op).write.value)
  {
    match op
    case AddOp(id, stock, restock, product) =>
      if stock.Ok? && stock.data > 0 {
        var found := Find(c, id);
        if found.Some? {
          WithAmountKeepsWellFormed(c, id, found.value.amount + 1);
        } else if product.Ok? {
          AppendKeepsWellFormed(c, product.data);
        }
      }
    case RemoveOp(id) =>
      WithoutKeepsWellFormed(c, id);
    case UpdateOp(id, amount, stock) =>
      if amount >= 1 {
        WithAmountKeepsWellFormed(c, id, amount);
      }
  }

  /** The session after a sequence of operations, each on the cart the
      previous one left. */
  function Replay(st: Session, ops: seq<Op>): Session
    decreases |ops|
  {
    if ops == [] then st
    else Replay(Commit(st, StepOf(st.cart, ops[0])), ops[1..])
  }

  /** From a synced session with a well-formed cart, any sequence of
      operations keeps memory and storage in agreement and keeps ids unique
      and every amount at least one. */
  lemma {:induction false} ReplayKeepsInvariants(st: Session, ops: seq<Op>)
    requires Synced(st) && WellFormed(st.cart)
    requires forall i :: 0 <= i < |ops| ==> CatalogConsistent(ops[i])
    ensures Synced(Replay(st, ops)) && WellFormed(Replay(st, ops).cart)
    decreases |ops|
  {
    if ops != [] {
      StepKeepsWellFormed(st.cart, ops[0]);
      var next := Commit(st, StepOf(st.cart, ops[0]));
      assert forall i :: 0 <= i < |ops[1..]| ==> ops[1..][i] == ops[i + 1];
      ReplayKeepsInvariants(next, ops[1..]);
    }
  }

  // ---------------------------------------------------------------------------
  // The provider

  class CartProvider {
    var cart: seq<Item>
    var stored: Option<seq<Item>>

    function State(): Session
      reads this
    {
      Session(cart, stored)
    }

    ghost predicate Valid()
      reads this
    {
      Synced(State())
    }

    /** The initial state: the cart read back from the stored snapshot, or
        the empty cart when storage holds none. */
    constructor (snapshot: Option<seq<Item>>)
      ensures Valid()
      ensures cart == Loaded(snapshot) && stored == snapshot
    {
      stored := snapshot;
      if snapshot.Some? {
        cart := snapshot.value;
      } else {
        cart := [];
      }
    }

    method UpdateProductAmount(productId: int, amount: int, stock: Response<int>) returns (o: Outcome)
      requires Valid()
      modifies this
      ensures Valid()
      ensures var s := UpdateStep(old(cart), productId, amount, stock);
              o == s.outcome && State() == Commit(old(State()), s)
      ensures o == Done ==> stored == Some(cart)
      ensures o != Done ==> unchanged(this)
    {
      if amount <= 0 {
        return Skipped;
      }
      if stock.Failed? {
        return UpdateFailed;
      }
      if amount > stock.data {
        return OutOfStock;
      }
      var newCart := WithAmount(cart, productId, amount);
      cart := newCart;
      stored := Some(newCart);
      o := Done;
    }

    method AddProduct(productId: int, stock: Response<int>, restock: Response<int>,
                      product: Response<Product>) returns (o: Outcome)
      requires Valid()
      modifies this
      ensures Valid()
      ensures var s := AddStep(old(cart), productId, stock, restock, product);
              o == s.outcome && State() == Commit(old(State()), s)
      ensures o == Done ==> stored == Some(cart)
      ensures o != Done ==> unchanged(this)
    {
      var found := Find(cart, productId);
      if stock.Failed? {
        return AddFailed;
      }
      if stock.data <= 0 {
        return OutOfStock;
      }
      if found.Some? {
        o := UpdateProductAmount(productId, found.value.amount + 1, restock);
      } else if product.Failed? {
        o := AddFailed;
      } else {
        var newCart := cart + [AsItem(product.data, 1)];
        cart := newCart;
        stored := Some(newCart);
        o := Done;
      }
    }

    method RemoveProduct(productId: int) returns (o: Outcome)
      requires Valid()
      modifies this
      ensures Valid()
      ensures var s := RemoveStep(old(cart), productId);
              o == s.outcome && State() == Commit(old(State()), s)
      ensures o == Done ==> stored == Some(cart)
      ensures o != Done ==> unchanged(this)
    {
      var found := Find(cart, productId);
      if found.Some? {
        var filtered := Without(cart, productId);
        cart := filtered;
        stored := Some(filtered);
        o := Done;
      } else {
        o := RemoveFailed;
      }
    }
  }

  /** A caller driving the provider through the cart's usual scenarios, using
      nothing but the methods' contracts. */
  method Scenarios(p: Product)
    requires p.id == 42
  {
    var provider := new CartProvider(None);
    var o := provider.AddProduct(42, Ok(5), Ok(5), Ok(p));
    assert o == Done && provider.cart == [Item(42, p.title, p.price, p.image, 1)];
    assert provider.stored == Some(provider.cart);

    o := provider.AddProduct(42, Ok(5), Ok(5), Ok(p));
    assert o == Done && provider.cart == [Item(42, p.title, p.price, p.image, 2)];

    o := provider.AddProduct(42, Ok(0), Ok(0), Ok(p));
    assert o == OutOfStock && provider.cart == [Item(42, p.title, p.price, p.image, 2)];

    o := provider.UpdateProductAmount(42, 5, Ok(2));
    assert o == OutOfStock && provider.cart == [Item(42, p.title, p.price, p.image, 2)];

    o := provider.UpdateProductAmount(42, 0, Ok(2));
    assert o == Skipped && provider.cart == [Item(42, p.title, p.price, p.image, 2)];

    o := provider.RemoveProduct(99);
    assert o == RemoveFailed && provider.cart == [Item(42, p.title, p.price, p.image, 2)];

    o := provider.RemoveProduct(42);
    assert o == Done && provider.cart == [] && provider.stored == Some([]);
  }
}
