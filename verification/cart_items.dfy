/** Cart entries and the pure computations the cart hook performs on the list of
    entries: `find` by id, the `filter` that removes an id, the `map` that
    rewrites an amount, and the two invariants the mutations are meant to keep
    (ids are unique, every amount is at least one). */
module CartItems {

  datatype Option<+T> = None | Some(value: T)

  /** A catalogue product as the products endpoint answers it. The price is
      carried along and never computed with. */
  datatype Product = Product(id: int, title: string, price: real, image: string)

  /** A cart entry: the product's fields spread out, plus the quantity. */
  datatype Item = Item(id: int, title: string, price: real, image: string, amount: int)

  /** The entry `{...product, amount}` built when a product is put in the cart. */
  function AsItem(p: Product, amount: int): Item
  {
    Item(p.id, p.title, p.price, p.image, amount)
  }

  /** The ids of the entries, in cart order. */
  function Ids(c: seq<Item>): (ids: seq<int>)
    ensures |ids| == |c|
    ensures forall i :: 0 <= i < |c| ==> ids[i] == c[i].id
  {
    if c == [] then [] else [c[0].id] + Ids(c[1..])
  }

  predicate InCart(c: seq<Item>, id: int)
  {
    exists i :: 0 <= i < |c| && c[i].id == id
  }

  /** At most one entry per id. */
  predicate UniqueIds(c: seq<Item>)
  {
    forall i, j :: 0 <= i < j < |c| ==> c[i].id != c[j].id
  }

  /** No entry with an amount below one. */
  predicate PositiveAmounts(c: seq<Item>)
  {
    forall i :: 0 <= i < |c| ==> c[i].amount >= 1
  }

  predicate WellFormed(c: seq<Item>)
  {
    UniqueIds(c) && PositiveAmounts(c)
  }

  /** `cart.find(product => product.id === id)`: the first entry with that id,
      if there is one. */
  function Find(c: seq<Item>, id: int): (r: Option<Item>)
    ensures r.None? <==> !InCart(c, id)
    ensures r.Some? ==> r.value in c && r.value.id == id
  {
    if c == [] then None
    else if c[0].id == id then Some(c[0])
    else
      assert forall i :: 1 <= i < |c| ==> c[i] == c[1..][i - 1];
      Find(c[1..], id)
  }

  /** Find answers the earliest entry carrying the id. */
  lemma {:induction false} FindIsFirst(c: seq<Item>, id: int, k: nat)
    requires k < |c| && c[k].id == id
    requires forall j :: 0 <= j < k ==> c[j].id != id
    ensures Find(c, id) == Some(c[k])
  {
    if k > 0 {
      FindIsFirst(c[1..], id, k - 1);
    }
  }

  /** With unique ids, Find answers the one entry carrying the id. */
  lemma FindUnique(c: seq<Item>, id: int, k: nat)
    requires UniqueIds(c)
    requires k < |c| && c[k].id == id
    ensures Find(c, id) == Some(c[k])
  {
    FindIsFirst(c, id, k);
  }

  /** `cart.filter(item => item.id !== id)`. */
  function Without(c: seq<Item>, id: int): (r: seq<Item>)
    ensures forall x :: x in r <==> x in c && x.id != id
    ensures |r| <= |c|
  {
    if c == [] then []
    else if c[0].id == id then Without(c[1..], id)
    else [c[0]] + Without(c[1..], id)
  }

  /** Filtering distributes over concatenation: the kept entries stay in their
      original order. */
  lemma {:induction false} WithoutConcat(a: seq<Item>, b: seq<Item>, id: int)
    ensures Without(a + b, id) == Without(a, id) + Without(b, id)
  {
    if a == [] {
      assert a + b == b;
    } else {
      assert (a + b)[0] == a[0];
      assert (a + b)[1..] == a[1..] + b;
      WithoutConcat(a[1..], b, id);
    }
  }

  /** Filtering a single entry keeps it exactly when its id differs. */
  lemma WithoutSingle(x: Item, id: int)
    ensures Without([x], id) == if x.id == id then [] else [x]
  {
  }

  /** Filtering out an id the cart does not hold changes nothing. */
  lemma {:induction false} WithoutAbsent(c: seq<Item>, id: int)
    requires !InCart(c, id)
    ensures Without(c, id) == c
  {
    if c != [] {
      assert c[0].id != id;
      assert !InCart(c[1..], id) by {
        forall i | 0 <= i < |c[1..]| ensures c[1..][i].id != id {
          assert c[1..][i] == c[i + 1];
        }
      }
      WithoutAbsent(c[1..], id);
      assert c == [c[0]] + c[1..];
    }
  }

  /** With unique ids, filtering out the id of the entry at index `k` drops
      exactly that entry. */
  lemma WithoutDropsUnique(c: seq<Item>, k: nat)
    requires UniqueIds(c)
    requires k < |c|
    ensures Without(c, c[k].id) == c[..k] + c[k + 1..]
  {
    forall i | 0 <= i < |c| && i != k ensures c[i].id != c[k].id {
      if i < k {
        assert c[i].id != c[k].id;
      } else {
        assert c[k].id != c[i].id;
      }
    }
    WithoutDropsOnly(c, c[k].id, k);
  }

  /** Filtering out an id carried only by the entry at index `k` drops
      exactly that entry. */
  lemma {:induction false} WithoutDropsOnly(c: seq<Item>, id: int, k: nat)
    requires k < |c| && c[k].id == id
    requires forall i :: 0 <= i < |c| && i != k ==> c[i].id != id
    ensures Without(c, id) == c[..k] + c[k + 1..]
  {
    var t := c[1..];
    assert c == [c[0]] + t;
    if k == 0 {
      assert !InCart(t, id) by {
        forall i | 0 <= i < |t| ensures t[i].id != id {
          assert t[i] == c[i + 1];
        }
      }
      WithoutAbsent(t, id);
      assert Without(c, id) == Without(t, id);
    } else {
      forall i | 0 <= i < |t| && i != k - 1 ensures t[i].id != id {
        assert t[i] == c[i + 1];
      }
      WithoutDropsOnly(t, id, k - 1);
      assert Without(c, id) == [c[0]] + Without(t, id);
      assert t[..k - 1] == c[1..k] && t[k..] == c[k + 1..];
      assert c[..k] == [c[0]] + c[1..k];
    }
  }

  /** Prepending an entry whose id the rest does not carry keeps ids unique. */
  lemma ConsKeepsUniqueIds(x: Item, r: seq<Item>)
    requires UniqueIds(r)
    requires forall y :: y in r ==> y.id != x.id
    ensures UniqueIds([x] + r)
  {
    var s := [x] + r;
    forall i, j | 0 <= i < j < |s| ensures s[i].id != s[j].id {
      assert s[j] == r[j - 1];
      if i > 0 {
        assert s[i] == r[i - 1];
      }
    }
  }

  lemma {:induction false} WithoutKeepsUniqueIds(c: seq<Item>, id: int)
    requires UniqueIds(c)
    ensures UniqueIds(Without(c, id))
  {
    if c != [] {
      var t := c[1..];
      assert UniqueIds(t) by {
        forall i, j | 0 <= i < j < |t| ensures t[i].id != t[j].id {
          assert t[i] == c[i + 1] && t[j] == c[j + 1];
        }
      }
      WithoutKeepsUniqueIds(t, id);
      if c[0].id != id {
        var r := Without(t, id);
        forall y | y in r ensures y.id != c[0].id {
          var k :| 0 <= k < |t| && t[k] == y;
          assert t[k] == c[k + 1];
        }
        ConsKeepsUniqueIds(c[0], r);
      }
    }
  }

  lemma WithoutKeepsWellFormed(c: seq<Item>, id: int)
    requires WellFormed(c)
    ensures WellFormed(Without(c, id))
  {
    WithoutKeepsUniqueIds(c, id);
    var r := Without(c, id);
    forall i | 0 <= i < |r| ensures r[i].amount >= 1 {
      assert r[i] in c;
    }
  }

  /** `cart.map(item => item.id === id ? {...item, amount} : item)`: every
      entry keeps its id, title, price and image; the amount of each entry
      carrying the id becomes the requested one, the others keep theirs. */
  function WithAmount(c: seq<Item>, id: int, amount: int): (r: seq<Item>)
    ensures |r| == |c|
    ensures forall i :: 0 <= i < |c| ==>
              r[i] == c[i].(amount := if c[i].id == id then amount else c[i].amount)
  {
    if c == [] then []
    else
      [if c[0].id == id then c[0].(amount := amount) else c[0]] + WithAmount(c[1..], id, amount)
  }

  /** Rewriting an amount adds no entry, drops none and reorders none. */
  lemma WithAmountKeepsIds(c: seq<Item>, id: int, amount: int)
    ensures Ids(WithAmount(c, id, amount)) == Ids(c)
  {
  }

  /** Rewriting the amount of an id the cart does not hold changes nothing. */
  lemma WithAmountAbsent(c: seq<Item>, id: int, amount: int)
    requires !InCart(c, id)
    ensures WithAmount(c, id, amount) == c
  {
    var r := WithAmount(c, id, amount);
    forall i | 0 <= i < |c| ensures r[i] == c[i] {
      assert c[i].id != id;
    }
  }

  /** With unique ids, rewriting an amount touches the single matching entry. */
  lemma WithAmountUnique(c: seq<Item>, id: int, amount: int, k: nat)
    requires UniqueIds(c)
    requires k < |c| && c[k].id == id
    ensures WithAmount(c, id, amount) == c[k := c[k].(amount := amount)]
  {
    var r := WithAmount(c, id, amount);
    var e := c[k := c[k].(amount := amount)];
    forall i | 0 <= i < |c| ensures r[i] == e[i] {
      if i != k {
        assert c[i].id != id by {
          if i < k {
            assert c[i].id != c[k].id;
          } else {
            assert c[k].id != c[i].id;
          }
        }
      }
    }
  }

  lemma WithAmountKeepsWellFormed(c: seq<Item>, id: int, amount: int)
    requires WellFormed(c)
    requires amount >= 1
    ensures WellFormed(WithAmount(c, id, amount))
  {
    var r := WithAmount(c, id, amount);
    forall i, j | 0 <= i < j < |r| ensures r[i].id != r[j].id {
      assert r[i].id == c[i].id && r[j].id == c[j].id;
    }
  }

  /** Appending an entry whose id the cart does not hold, with amount one,
      keeps the cart well formed. */
  lemma AppendKeepsWellFormed(c: seq<Item>, p: Product)
    requires WellFormed(c)
    requires !InCart(c, p.id)
    ensures WellFormed(c + [AsItem(p, 1)])
  {
    var r := c + [AsItem(p, 1)];
    forall i, j | 0 <= i < j < |r| ensures r[i].id != r[j].id {
      assert r[i] == c[i];
      if j == |c| {
        assert c[i].id != p.id;
      } else {
        assert r[j] == c[j];
      }
    }
  }
}
