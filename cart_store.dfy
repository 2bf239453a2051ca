/** The browser's cart store: one mutable cart state whose lines are keyed by
    (id, type). The actions rebuild the list of lines and store it with a new
    timestamp; the count, the total and emptiness are folds over the lines. */
module CartStore {
  import opened Common
  import opened CartTypes

  /** A cart line without its quantity: what a page passes to `addToCart`. */
  datatype NewCartItem = NewCartItem(
    id: string,
    kind: CartItemType,
    name: string,
    price: int,
    image: Option<string>)

  predicate HasKey(line: CartItem, id: string, kind: CartItemType) {
    line.id == id && line.kind == kind
  }

  /** No two lines share an (id, type) pair. */
  ghost predicate UniqueKeys(items: seq<CartItem>) {
    forall i, j :: 0 <= i < j < |items| ==> !HasKey(items[j], items[i].id, items[i].kind)
  }

  // ---------------------------------------------------------------------------
  // Folds
  // ---------------------------------------------------------------------------

  /** `items.reduce((sum, item) => sum + f(item), 0)`. */
  function SumOf(items: seq<CartItem>, f: CartItem -> int): int {
    if items == [] then 0 else f(items[0]) + SumOf(items[1..], f)
  }

  function Quantity(line: CartItem): int { line.quantity }

  function Amount(line: CartItem): int { line.price * line.quantity }

  /** The number of units in the cart. */
  function Count(items: seq<CartItem>): int { SumOf(items, Quantity) }

  /** The cart's value at the client's display prices. */
  function Total(items: seq<CartItem>): int { SumOf(items, Amount) }

  /** The units held under one key. */
  function QuantityOf(items: seq<CartItem>, id: string, kind: CartItemType): int {
    SumOf(items, line => if HasKey(line, id, kind) then line.quantity else 0)
  }

  lemma {:induction false} SumOfAppend(items: seq<CartItem>, line: CartItem, f: CartItem -> int)
    ensures SumOf(items + [line], f) == SumOf(items, f) + f(line)
  {
    if items != [] {
      assert (items + [line])[1..] == items[1..] + [line];
      SumOfAppend(items[1..], line, f);
    }
  }

  lemma {:induction false} SumOfUpdate(items: seq<CartItem>, k: nat, line: CartItem, f: CartItem -> int)
    requires k < |items|
    ensures SumOf(items[k := line], f) == SumOf(items, f) - f(items[k]) + f(line)
  {
    if k > 0 {
      assert items[k := line][1..] == items[1..][k - 1 := line];
      SumOfUpdate(items[1..], k - 1, line, f);
    }
  }

  // ---------------------------------------------------------------------------
  // The list operations behind the actions
  // ---------------------------------------------------------------------------

  /** `items.findIndex(i => i.id === id && i.type === kind)`: the first line with the key, or -1. */
  function FindIndex(items: seq<CartItem>, id: string, kind: CartItemType): (k: int)
    ensures -1 <= k < |items|
    ensures k == -1 <==> forall j :: 0 <= j < |items| ==> !HasKey(items[j], id, kind)
    ensures k >= 0 ==> HasKey(items[k], id, kind) && forall j :: 0 <= j < k ==> !HasKey(items[j], id, kind)
  {
    if items == [] then -1
    else if HasKey(items[0], id, kind) then 0
    else
      var k := FindIndex(items[1..], id, kind);
      assert forall j :: 1 <= j < |items| ==> items[j] == items[1..][j - 1];
      if k == -1 then -1 else k + 1
  }

  /** The lines after `addToCart`: the first line with the key gains `quantity` units,
      or a new line is appended. */
  function AddItem(items: seq<CartItem>, item: NewCartItem, quantity: int): seq<CartItem> {
    var k := FindIndex(items, item.id, item.kind);
    if k >= 0 then items[k := items[k].(quantity := items[k].quantity + quantity)]
    else items + [CartItem(item.id, item.kind, item.name, item.price, quantity, item.image)]
  }

  /** The lines after `removeFromCart`: every line with the key is dropped. */
  function RemoveItems(items: seq<CartItem>, id: string, kind: CartItemType): (r: seq<CartItem>)
    ensures |r| <= |items|
    ensures forall j :: 0 <= j < |r| ==> !HasKey(r[j], id, kind)
    ensures forall line :: line in r ==> line in items
  {
    if items == [] then []
    else (if HasKey(items[0], id, kind) then [] else [items[0]]) + RemoveItems(items[1..], id, kind)
  }

  /** The lines after `updateQuantity` with a positive quantity: every line with the key gets it. */
  function SetQuantity(items: seq<CartItem>, id: string, kind: CartItemType, quantity: int): seq<CartItem> {
    seq(|items|, j requires 0 <= j < |items| =>
      if HasKey(items[j], id, kind) then items[j].(quantity := quantity) else items[j])
  }

  // ---------------------------------------------------------------------------
  // Properties of adding
  // ---------------------------------------------------------------------------

  /** Adding an existing key merges into its first line: same length, that line keeps
      everything but gains `quantity` units, every other line is unchanged. */
  lemma AddMergesIntoExistingLine(items: seq<CartItem>, item: NewCartItem, quantity: int)
    requires exists j :: 0 <= j < |items| && HasKey(items[j], item.id, item.kind)
    ensures var r := AddItem(items, item, quantity);
      var k := FindIndex(items, item.id, item.kind);
      && 0 <= k && |r| == |items|
      && r[k] == items[k].(quantity := items[k].quantity + quantity)
      && forall j :: 0 <= j < |items| && j != k ==> r[j] == items[j]
  {
  }

  /** Adding a new key appends one line with the given quantity after the unchanged old lines. */
  lemma AddAppendsNewLine(items: seq<CartItem>, item: NewCartItem, quantity: int)
    requires forall j :: 0 <= j < |items| ==> !HasKey(items[j], item.id, item.kind)
    ensures var r := AddItem(items, item, quantity);
      && |r| == |items| + 1
      && r[..|items|] == items
      && r[|items|] == CartItem(item.id, item.kind, item.name, item.price, quantity, item.image)
  {
  }

  /** Adding moves exactly `quantity` units onto the item's key and leaves every other key's units alone. */
  lemma AddChangesOnlyItsKey(items: seq<CartItem>, item: NewCartItem, quantity: int, id: string, kind: CartItemType)
    ensures QuantityOf(AddItem(items, item, quantity), id, kind) ==
      QuantityOf(items, id, kind) + (if id == item.id && kind == item.kind then quantity else 0)
    ensures Count(AddItem(items, item, quantity)) == Count(items) + quantity
  {
    var k := FindIndex(items, item.id, item.kind);
    var f := line => if HasKey(line, id, kind) then line.quantity else 0;
    if k >= 0 {
      var line := items[k].(quantity := items[k].quantity + quantity);
      SumOfUpdate(items, k, line, f);
      SumOfUpdate(items, k, line, Quantity);
    } else {
      var line := CartItem(item.id, item.kind, item.name, item.price, quantity, item.image);
      SumOfAppend(items, line, f);
      SumOfAppend(items, line, Quantity);
    }
  }

  /** Adding raises the display total by `quantity` units at the price of the line that
      receives them: the existing line's price on a merge, the item's price on an append. */
  lemma AddRaisesTotal(items: seq<CartItem>, item: NewCartItem, quantity: int)
    ensures var k := FindIndex(items, item.id, item.kind);
      Total(AddItem(items, item, quantity)) ==
        Total(items) + (if k >= 0 then items[k].price else item.price) * quantity
  {
    var k := FindIndex(items, item.id, item.kind);
    if k >= 0 {
      var line := items[k].(quantity := items[k].quantity + quantity);
      SumOfUpdate(items, k, line, Amount);
      assert Amount(line) == Amount(items[k]) + items[k].price * quantity by {
        assert line.price * (items[k].quantity + quantity) == line.price * items[k].quantity + line.price * quantity;
      }
    } else {
      var line := CartItem(item.id, item.kind, item.name, item.price, quantity, item.image);
      SumOfAppend(items, line, Amount);
    }
  }

  /** Adding keeps the keys of a cart unique. */
  lemma AddKeepsKeysUnique(items: seq<CartItem>, item: NewCartItem, quantity: int)
    requires UniqueKeys(items)
    ensures UniqueKeys(AddItem(items, item, quantity))
  {
    var r := AddItem(items, item, quantity);
    var k := FindIndex(items, item.id, item.kind);
    if k >= 0 {
      forall i, j | 0 <= i < j < |r|
        ensures !HasKey(r[j], r[i].id, r[i].kind)
      {
        assert r[i].id == items[i].id && r[i].kind == items[i].kind;
        assert r[j].id == items[j].id && r[j].kind == items[j].kind;
      }
    }
  }

  /** The lines after a run of `addToCart` calls. */
  function AddAll(items: seq<CartItem>, adds: seq<(NewCartItem, int)>): seq<CartItem>
    decreases |adds|
  {
    if adds == [] then items
    else AddAll(AddItem(items, adds[0].0, adds[0].1), adds[1..])
  }

  /** A cart that starts empty and only ever grows through `addToCart` never holds two lines with one key. */
  lemma {:induction false} OnlyAddsKeepKeysUnique(items: seq<CartItem>, adds: seq<(NewCartItem, int)>)
    requires UniqueKeys(items)
    ensures UniqueKeys(AddAll(items, adds))
    decreases |adds|
  {
    if adds != [] {
      AddKeepsKeysUnique(items, adds[0].0, adds[0].1);
      OnlyAddsKeepKeysUnique(AddItem(items, adds[0].0, adds[0].1), adds[1..]);
    }
  }

  // ---------------------------------------------------------------------------
  // Properties of removing and updating
  // ---------------------------------------------------------------------------

  /** Removing keeps the other lines in their order: it splits over a concatenation. */
  lemma {:induction false} RemoveSplits(a: seq<CartItem>, b: seq<CartItem>, id: string, kind: CartItemType)
    ensures RemoveItems(a + b, id, kind) == RemoveItems(a, id, kind) + RemoveItems(b, id, kind)
  {
    if a == [] {
      assert a + b == b;
    } else {
      assert (a + b)[0] == a[0];
      assert (a + b)[1..] == a[1..] + b;
      RemoveSplits(a[1..], b, id, kind);
    }
  }

  /** Removing leaves a cart without the key untouched, so removing twice is removing once. */
  lemma {:induction false} RemoveAbsentKey(items: seq<CartItem>, id: string, kind: CartItemType)
    requires forall j :: 0 <= j < |items| ==> !HasKey(items[j], id, kind)
    ensures RemoveItems(items, id, kind) == items
  {
    if items != [] {
      RemoveAbsentKey(items[1..], id, kind);
    }
  }

  /** Removing takes away exactly the units held under the key. */
  lemma {:induction false} RemoveDropsItsUnits(items: seq<CartItem>, id: string, kind: CartItemType)
    ensures Count(RemoveItems(items, id, kind)) == Count(items) - QuantityOf(items, id, kind)
    ensures QuantityOf(RemoveItems(items, id, kind), id, kind) == 0
  {
    if items != [] {
      RemoveDropsItsUnits(items[1..], id, kind);
      var head := if HasKey(items[0], id, kind) then [] else [items[0]];
      var rest := RemoveItems(items[1..], id, kind);
      var f := line => if HasKey(line, id, kind) then line.quantity else 0;
      assert RemoveItems(items, id, kind) == head + rest;
      assert Count(items) == items[0].quantity + Count(items[1..]);
      assert QuantityOf(items, id, kind) == f(items[0]) + QuantityOf(items[1..], id, kind);
      if head != [] {
        assert (head + rest)[0] == items[0];
        assert (head + rest)[1..] == rest;
        assert Count(head + rest) == items[0].quantity + Count(rest);
        assert QuantityOf(head + rest, id, kind) == f(items[0]) + QuantityOf(rest, id, kind);
      } else {
        assert head + rest == rest;
      }
    }
  }

  /** Removing keeps the keys of a cart unique. */
  lemma RemoveKeepsKeysUnique(items: seq<CartItem>, id: string, kind: CartItemType)
    requires UniqueKeys(items)
    ensures UniqueKeys(RemoveItems(items, id, kind))
  {
    if items != [] {
      RemoveKeepsKeysUnique(items[1..], id, kind);
      var head := if HasKey(items[0], id, kind) then [] else [items[0]];
      var rest := RemoveItems(items[1..], id, kind);
      assert forall line :: line in rest ==> !HasKey(line, items[0].id, items[0].kind);
    }
  }

  /** Setting a quantity changes the quantity of the lines with the key and nothing else. */
  lemma SetQuantityOnlyTouchesItsKey(items: seq<CartItem>, id: string, kind: CartItemType, quantity: int)
    ensures var r := SetQuantity(items, id, kind, quantity);
      && |r| == |items|
      && (forall j :: 0 <= j < |items| && HasKey(items[j], id, kind) ==> r[j] == items[j].(quantity := quantity))
      && (forall j :: 0 <= j < |items| && !HasKey(items[j], id, kind) ==> r[j] == items[j])
      && UniqueKeys(r) == UniqueKeys(items)
  {
  }

  /** In a cart with unique keys, a set quantity is what the key then holds. */
  lemma {:induction false} SetQuantityWithUniqueKeys(items: seq<CartItem>, id: string, kind: CartItemType, quantity: int)
    requires UniqueKeys(items)
    requires exists j :: 0 <= j < |items| && HasKey(items[j], id, kind)
    ensures QuantityOf(SetQuantity(items, id, kind, quantity), id, kind) == quantity
  {
    var k := FindIndex(items, id, kind);
    var f := line => if HasKey(line, id, kind) then line.quantity else 0;
    var r := SetQuantity(items, id, kind, quantity);
    var cleared := items[k := items[k].(quantity := 0)];
    assert r == cleared[k := items[k].(quantity := quantity)];
    assert forall j :: 0 <= j < |items| && j != k ==> !HasKey(items[j], id, kind);
    OnlyKeyLineCounts(cleared, id, kind, k);
    SumOfUpdate(cleared, k, items[k].(quantity := quantity), f);
  }

  lemma {:induction false} OnlyKeyLineCounts(items: seq<CartItem>, id: string, kind: CartItemType, k: nat)
    requires k < |items| && items[k].quantity == 0
    requires forall j :: 0 <= j < |items| && j != k ==> !HasKey(items[j], id, kind)
    ensures QuantityOf(items, id, kind) == 0
  {
    if items != [] {
      if k == 0 {
        NoKeyNoUnits(items[1..], id, kind);
      } else {
        OnlyKeyLineCounts(items[1..], id, kind, k - 1);
      }
    }
  }

  lemma {:induction false} NoKeyNoUnits(items: seq<CartItem>, id: string, kind: CartItemType)
    requires forall j :: 0 <= j < |items| ==> !HasKey(items[j], id, kind)
    ensures QuantityOf(items, id, kind) == 0
  {
    if items != [] {
      NoKeyNoUnits(items[1..], id, kind);
    }
  }

  // ---------------------------------------------------------------------------
  // The store
  // ---------------------------------------------------------------------------

  /** The cart state cell. `now` parameters stand for `Date.now()`. */
  class Cart {
    var items: seq<CartItem>
    var lastUpdated: int

    constructor (now: int)
      ensures items == [] && lastUpdated == now
    {
      items := [];
      lastUpdated := now;
    }

    function CartCount(): int
      reads this
    {
      Count(items)
    }

    function CartTotal(): int
      reads this
    {
      Total(items)
    }

    function IsCartEmpty(): (empty: bool)
      reads this
      ensures empty <==> items == []
      ensures empty ==> CartCount() == 0 && CartTotal() == 0
    {
      |items| == 0
    }

    method AddToCart(item: NewCartItem, now: int, quantity: int := 1)
      modifies this
      ensures items == AddItem(old(items), item, quantity)
      ensures lastUpdated == now
      ensures CartCount() == old(CartCount()) + quantity
      ensures var k := FindIndex(old(items), item.id, item.kind);
        CartTotal() == old(CartTotal()) + (if k >= 0 then old(items)[k].price else item.price) * quantity
      ensures UniqueKeys(old(items)) ==> UniqueKeys(items)
    {
      AddChangesOnlyItsKey(items, item, quantity, item.id, item.kind);
      AddRaisesTotal(items, item, quantity);
      if UniqueKeys(items) {
        AddKeepsKeysUnique(items, item, quantity);
      }
      var existingIndex := FindIndex(items, item.id, item.kind);
      var newItems: seq<CartItem>;
      if existingIndex >= 0 {
        newItems := items[existingIndex := items[existingIndex].(quantity := items[existingIndex].quantity + quantity)];
      } else {
        newItems := items + [CartItem(item.id, item.kind, item.name, item.price, quantity, item.image)];
      }
      items, lastUpdated := newItems, now;
    }

    method RemoveFromCart(id: string, kind: CartItemType, now: int)
      modifies this
      ensures items == RemoveItems(old(items), id, kind)
      ensures lastUpdated == now
      ensures CartCount() == old(CartCount()) - QuantityOf(old(items), id, kind)
      ensures UniqueKeys(old(items)) ==> UniqueKeys(items)
    {
      RemoveDropsItsUnits(items, id, kind);
      if UniqueKeys(items) {
        RemoveKeepsKeysUnique(items, id, kind);
      }
      items, lastUpdated := RemoveItems(items, id, kind), now;
    }

    method UpdateQuantity(id: string, kind: CartItemType, quantity: int, now: int)
      modifies this
      ensures quantity <= 0 ==> items == RemoveItems(old(items), id, kind)
      ensures quantity > 0 ==> items == SetQuantity(old(items), id, kind, quantity)
      ensures lastUpdated == now
      ensures UniqueKeys(old(items)) ==> UniqueKeys(items)
    {
      if quantity <= 0 {
        RemoveFromCart(id, kind, now);
        return;
      }
      SetQuantityOnlyTouchesItsKey(items, id, kind, quantity);
      items, lastUpdated := SetQuantity(items, id, kind, quantity), now;
    }

    method ClearCart(now: int)
      modifies this
      ensures items == [] && lastUpdated == now
      ensures IsCartEmpty() && CartCount() == 0
    {
      items, lastUpdated := [], now;
    }
  }
}
