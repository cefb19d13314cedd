/**
  The cart's state and the handlers that change it: the budget, the item
  list, the theme flag and the browser's key/value store, which holds the
  budget, the saved cart and the theme flag.
 */
module ShoppingCart {
  import opened CartItems
  import Meter

  const BudgetKey: string := "budget"
  const SavedCartKey: string := "savedCart"
  const ThemeKey: string := "darkTheme"

  /** A value in the store, already decoded: a number, a list of items, or a flag. */
  datatype Stored = Number(number: real) | ItemList(list: seq<Item>) | Flag(flag: bool)

  /** The kinds of notification, which pick the banner's colour. */
  datatype NoticeKind = Success | Error | Warning | Info

  /** A notification shown to the user. */
  datatype Notice = Notice(message: string, kind: NoticeKind)

  /** The shape of every value this program writes under its three keys. */
  predicate StoreWellFormed(store: map<string, Stored>) {
    (BudgetKey in store ==> store[BudgetKey].Number? && store[BudgetKey].number > 0.0) &&
    (SavedCartKey in store ==> store[SavedCartKey].ItemList? && AllWellFormed(store[SavedCartKey].list)) &&
    (ThemeKey in store ==> store[ThemeKey].Flag?)
  }

  /** The loop behind `cartItems.filter(item => item.id !== id)`. */
  method Filtered(all: seq<Item>, id: int) returns (kept: seq<Item>)
    ensures kept == Without(all, id)
  {
    kept := [];
    var i := 0;
    while i < |all|
      invariant 0 <= i <= |all|
      invariant kept == Without(all[..i], id)
    {
      assert all[..i + 1] == all[..i] + [all[i]];
      assert Without([all[i]], id) == if all[i].id == id then [] else [all[i]] by {
        assert [all[i]][1..] == [];
      }
      WithoutConcat(all[..i], [all[i]], id);
      if all[i].id != id {
        kept := kept + [all[i]];
      }
      i := i + 1;
    }
    assert all[..i] == all;
  }

  class Cart {
    var budget: real
    var items: seq<Item>
    var isDarkTheme: bool
    var store: map<string, Stored>

    /**
      The budget is unset (0) or positive and is the one persisted; every
      item, current or saved, is well formed; the persisted theme flag is
      the current one.
     */
    ghost predicate Valid()
      reads this
    {
      StoreWellFormed(store) &&
      (budget == 0.0 || budget > 0.0) &&
      (BudgetKey in store ==> budget == store[BudgetKey].number) &&
      (BudgetKey !in store ==> budget == 0.0) &&
      AllWellFormed(items) &&
      (ThemeKey in store ==> store[ThemeKey] == Flag(isDarkTheme))
    }

    /** `initApp`: restores the theme and the budget from the store; the cart starts empty. */
    constructor (saved: map<string, Stored>)
      requires StoreWellFormed(saved)
      ensures Valid()
      ensures items == [] && store == saved
      ensures isDarkTheme <==> ThemeKey in saved && saved[ThemeKey] == Flag(true)
      ensures budget == if BudgetKey in saved then saved[BudgetKey].number else 0.0
    {
      budget := 0.0;
      items := [];
      isDarkTheme := false;
      store := saved;
      new;
      if ThemeKey in store && store[ThemeKey] == Flag(true) {
        ToggleTheme();
      }
      if BudgetKey in store {
        budget := store[BudgetKey].number;
      }
    }

    /** Whether the load button is enabled: something is saved. */
    predicate CanLoad()
      reads this
      ensures CanLoad() && StoreWellFormed(store) ==>
                SavedCartKey in store && store[SavedCartKey].ItemList? && AllWellFormed(store[SavedCartKey].list)
      ensures !CanLoad() ==> SavedCartKey !in store
    {
      SavedCartKey in store
    }

    /** The totals panel for the current state. */
    function CurrentTotals(): (t: Meter.Totals)
      reads this
      ensures t.subtotal == t.spent && t.remaining == budget - t.spent
      ensures AllWellFormed(items) ==> t.spent == Cost(items) && t.spent >= 0.0
      ensures AllWellFormed(items) && items != [] ==> t.remaining < budget
    {
      assert AllWellFormed(items) ==> Spent(items) == Cost(items) && Spent(items) >= 0.0 &&
                                      (items != [] ==> Spent(items) > 0.0) by {
        if AllWellFormed(items) {
          SpentIsCost(items);
          SpentNonNegative(items);
        }
      }
      Meter.ComputeTotals(budget, items)
    }

    /** The budget meter for the current state; none while the budget is unset. */
    function CurrentMeter(): (r: Option<Meter.Reading>)
      reads this
      ensures r.Some? <==> budget > 0.0
      ensures r.Some? ==> (r.value.alert <==> CurrentTotals().remaining <= 0.0)
      ensures r.Some? && AllWellFormed(items) ==> 0.0 <= r.value.fill <= 100.0
    {
      assert budget > 0.0 && AllWellFormed(items) ==>
               0.0 <= Meter.ReadMeter(budget, Spent(items)).value.fill <= 100.0 by {
        if budget > 0.0 && AllWellFormed(items) {
          Meter.MeterWithinRange(budget, items);
        }
      }
      Meter.ReadMeter(budget, Spent(items))
    }

    /** The set-budget handler. */
    method SetBudget(value: Option<real>) returns (notice: Notice)
      requires Valid()
      modifies this
      ensures Valid()
      ensures items == old(items) && isDarkTheme == old(isDarkTheme)
      ensures value.None? || value.value <= 0.0 ==>
                budget == old(budget) && store == old(store) &&
                notice == Notice("Please enter a valid budget amount", Error)
      ensures value.Some? && value.value > 0.0 ==>
                budget == value.value && store == old(store)[BudgetKey := Number(value.value)] &&
                notice == Notice("Budget set successfully!", Success)
    {
      if value.None? || value.value <= 0.0 {
        return Notice("Please enter a valid budget amount", Error);
      }
      budget := value.value;
      store := store[BudgetKey := Number(budget)];
      notice := Notice("Budget set successfully!", Success);
    }

    /** `addItemToCart`: appends the item built from already validated values. */
    method AddItemToCart(category: string, name: string, price: real, quantity: int, id: int)
      requires Valid()
      requires name != [] && Trim(name) == name && price > 0.0 && quantity > 0
      modifies this
      ensures Valid()
      ensures items == old(items) + [NewItem(id, category, name, price, quantity)]
      ensures Spent(items) == old(Spent(items)) + price * quantity as real
      ensures budget == old(budget) && store == old(store) && isDarkTheme == old(isDarkTheme)
    {
      var item := NewItem(id, category, name, price, quantity);
      assert (items + [item])[..|items|] == items;
      items := items + [item];
    }

    /** The add-item handler: rejects bad input, otherwise adds the item with the trimmed name. */
    method AddItem(category: string, name: string, price: Option<real>, quantity: Option<int>, id: int)
      returns (notice: Notice)
      requires Valid()
      modifies this
      ensures Valid()
      ensures budget == old(budget) && store == old(store) && isDarkTheme == old(isDarkTheme)
      ensures RejectsItemInput(name, price, quantity) ==>
                items == old(items) && notice == Notice("Please enter valid item details", Error)
      ensures !RejectsItemInput(name, price, quantity) ==>
                items == old(items) + [NewItem(id, category, Trim(name), price.value, quantity.value)] &&
                Spent(items) == old(Spent(items)) + price.value * quantity.value as real &&
                notice == Notice("Item added to cart!", Success)
    {
      var trimmed := Trim(name);
      if trimmed == [] || price.None? || price.value <= 0.0 || quantity.None? || quantity.value <= 0 {
        return Notice("Please enter valid item details", Error);
      }
      TrimIdempotent(name);
      AddItemToCart(category, trimmed, price.value, quantity.value, id);
      notice := Notice("Item added to cart!", Success);
    }

    /** `removeItemFromCart`: keeps, in order, every item whose id differs. */
    method RemoveItem(id: int)
      requires Valid()
      modifies this
      ensures Valid()
      ensures items == Without(old(items), id)
      ensures forall x :: x in items <==> x in old(items) && x.id != id
      ensures |items| < |old(items)| <==> exists x :: x in old(items) && x.id == id
      ensures budget == old(budget) && store == old(store) && isDarkTheme == old(isDarkTheme)
    {
      WithoutShortens(items, id);
      items := Filtered(items, id);
    }

    /**
      `editCartItem`: hands the first item with that id back to the form
      and removes it; an absent id changes nothing.
     */
    method EditItem(id: int) returns (found: Option<Item>, notice: Option<Notice>)
      requires Valid()
      modifies this
      ensures Valid()
      ensures found == Find(old(items), id)
      ensures items == Without(old(items), id)
      ensures found.None? ==> items == old(items) && notice == None
      ensures found.Some? ==> notice == Some(Notice("Edit item details and add again", Info))
      ensures budget == old(budget) && store == old(store) && isDarkTheme == old(isDarkTheme)
    {
      found := Find(items, id);
      if found.Some? {
        RemoveItem(id);
        notice := Some(Notice("Edit item details and add again", Info));
      } else {
        WithoutAbsent(items, id);
        notice := None;
      }
    }

    /** The save handler: an empty cart is refused, otherwise the saved cart is overwritten. */
    method SaveCart() returns (notice: Notice)
      requires Valid()
      modifies this
      ensures Valid()
      ensures items == old(items) && budget == old(budget) && isDarkTheme == old(isDarkTheme)
      ensures old(items) == [] ==>
                store == old(store) && notice == Notice("Cart is empty, nothing to save", Error)
      ensures old(items) != [] ==>
                store == old(store)[SavedCartKey := ItemList(items)] && CanLoad() &&
                notice == Notice("Cart saved successfully!", Success)
    {
      if |items| == 0 {
        return Notice("Cart is empty, nothing to save", Error);
      }
      store := store[SavedCartKey := ItemList(items)];
      notice := Notice("Cart saved successfully!", Success);
    }

    /** The load handler: replaces the items, in order, by the saved ones; nothing saved, nothing done. */
    method LoadCart() returns (notice: Option<Notice>)
      requires Valid()
      modifies this
      ensures Valid()
      ensures budget == old(budget) && store == old(store) && isDarkTheme == old(isDarkTheme)
      ensures !old(CanLoad()) ==> items == old(items) && notice == None
      ensures old(CanLoad()) ==>
                items == old(store)[SavedCartKey].list &&
                notice == Some(Notice("Cart loaded successfully!", Success))
    {
      if SavedCartKey !in store {
        return None;
      }
      var loaded := store[SavedCartKey].list;
      items := [];
      var i := 0;
      while i < |loaded|
        invariant 0 <= i <= |loaded|
        invariant items == loaded[..i]
        invariant budget == old(budget) && store == old(store) && isDarkTheme == old(isDarkTheme)
      {
        assert loaded[..i + 1] == loaded[..i] + [loaded[i]];
        items := items + [loaded[i]];
        i := i + 1;
      }
      assert loaded[..i] == loaded;
      notice := Some(Notice("Cart loaded successfully!", Success));
    }

    /** The clear handler: empties the items; leaves the budget and the saved cart alone. */
    method ClearCart() returns (notice: Notice)
      requires Valid()
      modifies this
      ensures Valid()
      ensures items == [] && CurrentTotals().spent == 0.0 && CurrentTotals().remaining == budget
      ensures budget == old(budget) && store == old(store) && isDarkTheme == old(isDarkTheme)
      ensures old(items) == [] ==> notice == Notice("Cart is already empty", Info)
      ensures old(items) != [] ==> notice == Notice("Cart cleared successfully!", Info)
    {
      if |items| == 0 {
        return Notice("Cart is already empty", Info);
      }
      items := [];
      notice := Notice("Cart cleared successfully!", Info);
    }

    /** `toggleTheme`: flips the flag and persists it. */
    method ToggleTheme()
      requires StoreWellFormed(store)
      modifies this
      ensures isDarkTheme == !old(isDarkTheme)
      ensures store == old(store)[ThemeKey := Flag(isDarkTheme)] && StoreWellFormed(store)
      ensures old(Valid()) ==> Valid()
      ensures budget == old(budget) && items == old(items)
    {
      isDarkTheme := !isDarkTheme;
      store := store[ThemeKey := Flag(isDarkTheme)];
    }
  }

  /** Saving a non-empty cart and loading it straight back restores the same items in order. */
  method SaveThenLoadRestores(cart: Cart)
    requires cart.Valid() && cart.items != []
    modifies cart
    ensures cart.Valid()
    ensures cart.items == old(cart.items) && cart.budget == old(cart.budget)
    ensures cart.store == old(cart.store)[SavedCartKey := ItemList(old(cart.items))]
  {
    var saved := cart.SaveCart();
    var loaded := cart.LoadCart();
  }

  /** A second removal of the same id does nothing. */
  method RemoveTwiceIsRemoveOnce(cart: Cart, id: int)
    requires cart.Valid()
    modifies cart
    ensures cart.Valid()
    ensures cart.items == Without(old(cart.items), id)
  {
    cart.RemoveItem(id);
    ghost var once := cart.items;
    cart.RemoveItem(id);
    WithoutIdempotent(old(cart.items), id);
    assert cart.items == Without(once, id);
  }

  /** Toggling the theme twice restores the flag and leaves it persisted. */
  method ToggleTwiceRestores(cart: Cart)
    requires cart.Valid()
    modifies cart
    ensures cart.Valid()
    ensures cart.isDarkTheme == old(cart.isDarkTheme)
    ensures cart.store == old(cart.store)[ThemeKey := Flag(old(cart.isDarkTheme))]
  {
    cart.ToggleTheme();
    cart.ToggleTheme();
  }
}
