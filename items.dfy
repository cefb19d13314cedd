/**
  Cart items and the pure computations over them: trimming of the name the
  user typed, validation of the add-item form, the line total, the running
  sum of line totals, removal by id, lookup by id, the category label and
  the quantity stepper of the form.
 */
module CartItems {

  datatype Option<T> = None | Some(value: T)

  /** A line of the cart. `total` is stored, as in the source, rather than derived. */
  datatype Item = Item(id: int, category: string, name: string, price: real, quantity: int, total: real)

  // ---------------------------------------------------------------------------
  // Trimming (String.prototype.trim)
  // ---------------------------------------------------------------------------

  /** The white space and line terminators that JavaScript's `trim` removes. */
  predicate IsWhitespace(c: char) {
    var n := c as int;
    n == 0x09 || n == 0x0A || n == 0x0B || n == 0x0C || n == 0x0D || n == 0x20 ||
    n == 0xA0 || n == 0x1680 || (0x2000 <= n <= 0x200A) || n == 0x2028 || n == 0x2029 ||
    n == 0x202F || n == 0x205F || n == 0x3000 || n == 0xFEFF
  }

  /** Drops the leading white space: the result is a suffix of `s`, everything dropped is white space. */
  function TrimStart(s: string): (r: string)
    ensures |r| <= |s| && r == s[|s| - |r|..]
    ensures r == [] || !IsWhitespace(r[0])
    ensures forall k :: 0 <= k < |s| - |r| ==> IsWhitespace(s[k])
  {
    if s != [] && IsWhitespace(s[0]) then TrimStart(s[1..]) else s
  }

  /** Drops the trailing white space: the result is a prefix of `s`, everything dropped is white space. */
  function TrimEnd(s: string): (r: string)
    ensures |r| <= |s| && r == s[..|r|]
    ensures r == [] || !IsWhitespace(r[|r| - 1])
    ensures forall k :: |r| <= k < |s| ==> IsWhitespace(s[k])
  {
    if s != [] && IsWhitespace(s[|s| - 1]) then TrimEnd(s[..|s| - 1]) else s
  }

  /** `s.trim()`. */
  function Trim(s: string): (r: string)
    ensures r == [] || (!IsWhitespace(r[0]) && !IsWhitespace(r[|r| - 1]))
  {
    TrimEnd(TrimStart(s))
  }

  /** The trimmed name is empty exactly when every character typed was white space. */
  lemma TrimEmptyIffBlank(s: string)
    ensures Trim(s) == [] <==> forall k :: 0 <= k < |s| ==> IsWhitespace(s[k])
  {
  }

  /** Trimming twice is trimming once. */
  lemma TrimIdempotent(s: string)
    ensures Trim(Trim(s)) == Trim(s)
  {
    var r := Trim(s);
    assert TrimStart(r) == r;
    assert TrimEnd(r) == r;
  }

  // ---------------------------------------------------------------------------
  // The add-item form
  // ---------------------------------------------------------------------------

  /**
    The guard of the add-item handler. A parsed number is `None` where
    `parseFloat`/`parseInt` would give NaN.
   */
  predicate RejectsItemInput(name: string, price: Option<real>, quantity: Option<int>)
    ensures RejectsItemInput(name, price, quantity) <==>
              (forall k :: 0 <= k < |name| ==> IsWhitespace(name[k])) ||
              price.None? || price.value <= 0.0 || quantity.None? || quantity.value <= 0
  {
    TrimEmptyIffBlank(name);
    Trim(name) == [] || price.None? || price.value <= 0.0 || quantity.None? || quantity.value <= 0
  }

  /** The record `addItemToCart` builds; `name` is the already-trimmed name. */
  function NewItem(id: int, category: string, name: string, price: real, quantity: int): (item: Item)
    ensures item.id == id && item.category == category && item.name == name
    ensures item.price == price && item.quantity == quantity
    ensures WellFormed(item) <==> name != [] && Trim(name) == name && price > 0.0 && quantity > 0
  {
    Item(id, category, name, price, quantity, price * quantity as real)
  }

  /** What every item built from accepted form input satisfies. */
  predicate WellFormed(item: Item) {
    item.name != [] && Trim(item.name) == item.name &&
    item.price > 0.0 && item.quantity > 0 &&
    item.total == item.price * item.quantity as real
  }

  predicate AllWellFormed(items: seq<Item>) {
    forall x :: x in items ==> WellFormed(x)
  }

  /** Accepted input yields a well-formed item carrying the typed fields and the trimmed name. */
  lemma AcceptedInputWellFormed(id: int, category: string, name: string, price: Option<real>, quantity: Option<int>)
    requires !RejectsItemInput(name, price, quantity)
    ensures WellFormed(NewItem(id, category, Trim(name), price.value, quantity.value))
    ensures NewItem(id, category, Trim(name), price.value, quantity.value).total > 0.0
  {
    TrimIdempotent(name);
    assert price.value * quantity.value as real > 0.0 by {
      assert quantity.value as real >= 1.0;
    }
  }

  /** Decrease button: never goes below 1; a NaN field stays NaN. */
  function StepDown(qty: Option<int>): (r: Option<int>)
    ensures r.None? <==> qty.None?
    ensures qty.Some? && qty.value >= 1 ==> r.value >= 1
    ensures qty.Some? && qty.value <= 1 ==> r == qty
    ensures qty.Some? && qty.value > 1 ==> r == Some(qty.value - 1)
  {
    match qty
    case None => None
    case Some(q) => if q > 1 then Some(q - 1) else qty
  }

  /** Increase button: adds one; NaN + 1 is NaN. */
  function StepUp(qty: Option<int>): (r: Option<int>)
    ensures r.None? <==> qty.None?
    ensures qty.Some? && qty.value >= 1 ==> r.value > 1
    ensures qty.Some? ==> r == Some(qty.value + 1)
  {
    match qty
    case None => None
    case Some(q) => Some(q + 1)
  }

  /** A press of increase undoes a press of decrease that moved the value, and the other way round. */
  lemma StepRoundTrip(qty: Option<int>)
    ensures qty.Some? && qty.value >= 1 ==> StepDown(StepUp(qty)) == qty
    ensures qty.Some? && qty.value > 1 ==> StepUp(StepDown(qty)) == qty
  {
  }

  // ---------------------------------------------------------------------------
  // Sums
  // ---------------------------------------------------------------------------

  /** `items.reduce((sum, item) => sum + item.total, 0)`: a left fold of the stored totals. */
  function Spent(items: seq<Item>): (r: real)
    ensures (forall k :: 0 <= k < |items| ==> items[k].total >= 0.0) ==> r >= 0.0
    ensures |items| == 1 ==> r == items[0].total
  {
    if items == [] then 0.0 else Spent(items[..|items| - 1]) + items[|items| - 1].total
  }

  /** Independent reference: the cost of the cart, price times quantity per line, summed from the right. */
  function Cost(items: seq<Item>): real {
    if items == [] then 0.0 else items[0].price * items[0].quantity as real + Cost(items[1..])
  }

  /** The sum over a concatenation is the sum of the sums. */
  lemma {:induction false} SpentConcat(s: seq<Item>, t: seq<Item>)
    ensures Spent(s + t) == Spent(s) + Spent(t)
  {
    if t == [] {
      assert s + t == s;
    } else {
      var u := t[..|t| - 1];
      assert (s + t)[..|s + t| - 1] == s + u;
      SpentConcat(s, u);
    }
  }

  /** For well-formed items the displayed spent amount is the exact sum of price times quantity. */
  lemma {:induction false} SpentIsCost(items: seq<Item>)
    requires AllWellFormed(items)
    ensures Spent(items) == Cost(items)
  {
    if items != [] {
      assert items == [items[0]] + items[1..];
      SpentConcat([items[0]], items[1..]);
      assert [items[0]][..0] == [];
      assert Spent([items[0]]) == items[0].total;
      assert WellFormed(items[0]);
      SpentIsCost(items[1..]);
    }
  }

  /** Totals of well-formed items are positive, so the sum never goes negative. */
  lemma {:induction false} SpentNonNegative(items: seq<Item>)
    requires AllWellFormed(items)
    ensures Spent(items) >= 0.0
    ensures items != [] ==> Spent(items) > 0.0
  {
    if items != [] {
      var last := items[|items| - 1];
      assert last in items;
      assert WellFormed(last);
      assert last.total > 0.0 by {
        assert last.quantity as real >= 1.0;
      }
      SpentNonNegative(items[..|items| - 1]);
    }
  }

  // ---------------------------------------------------------------------------
  // Removal and lookup by id
  // ---------------------------------------------------------------------------

  /** `items.filter(item => item.id !== id)`. */
  function Without(items: seq<Item>, id: int): (r: seq<Item>)
    ensures |r| <= |items|
    ensures forall x :: x in r <==> x in items && x.id != id
  {
    if items == [] then []
    else (if items[0].id == id then [] else [items[0]]) + Without(items[1..], id)
  }

  /** Removal works piecewise: it keeps the relative order of the items it keeps. */
  lemma {:induction false} WithoutConcat(s: seq<Item>, t: seq<Item>, id: int)
    ensures Without(s + t, id) == Without(s, id) + Without(t, id)
  {
    if s == [] {
      assert s + t == t;
    } else {
      assert (s + t)[0] == s[0];
      assert (s + t)[1..] == s[1..] + t;
      WithoutConcat(s[1..], t, id);
    }
  }

  /** Removing an id that no item carries changes nothing. */
  lemma {:induction false} WithoutAbsent(items: seq<Item>, id: int)
    requires forall x :: x in items ==> x.id != id
    ensures Without(items, id) == items
  {
    if items != [] {
      assert items[0] in items;
      assert forall x :: x in items[1..] ==> x in items;
      WithoutAbsent(items[1..], id);
    }
  }

  /** Removal is idempotent. */
  lemma WithoutIdempotent(items: seq<Item>, id: int)
    ensures Without(Without(items, id), id) == Without(items, id)
  {
    WithoutAbsent(Without(items, id), id);
  }

  /** Removal strictly shortens the cart exactly when some item carries the id. */
  lemma {:induction false} WithoutShortens(items: seq<Item>, id: int)
    ensures |Without(items, id)| < |items| <==> exists x :: x in items && x.id == id
  {
    if items != [] {
      WithoutShortens(items[1..], id);
      assert items == [items[0]] + items[1..];
      assert forall x :: x in items <==> x == items[0] || x in items[1..];
    }
  }

  /** `items.find(item => item.id === id)`: the first item with that id, if any. */
  function Find(items: seq<Item>, id: int): (r: Option<Item>)
    ensures r.None? <==> forall x :: x in items ==> x.id != id
    ensures r.Some? ==> r.value in items && r.value.id == id
    ensures r.Some? ==> exists k :: 0 <= k < |items| && items[k] == r.value &&
                                    forall j :: 0 <= j < k ==> items[j].id != id
  {
    if items == [] then None
    else if items[0].id == id then Some(items[0])
    else
      var r := Find(items[1..], id);
      assert forall x :: x in items <==> x == items[0] || x in items[1..];
      assert r.Some? ==> exists k :: 0 <= k < |items| && items[k] == r.value &&
                                     forall j :: 0 <= j < k ==> items[j].id != id by {
        if r.Some? {
          var k :| 0 <= k < |items[1..]| && items[1..][k] == r.value &&
                   forall j :: 0 <= j < k ==> items[1..][j].id != id;
          assert items[k + 1] == r.value;
          assert forall j :: 0 <= j < k + 1 ==> items[j].id != id by {
            forall j | 0 <= j < k + 1 ensures items[j].id != id {
              if j > 0 { assert items[j] == items[1..][j - 1]; }
            }
          }
        }
      }
      r
  }

  // ---------------------------------------------------------------------------
  // Category label
  // ---------------------------------------------------------------------------

  function UpperAscii(c: char): char {
    if 'a' <= c <= 'z' then (c as int - 32) as char else c
  }

  /** `capitalizeFirstLetter`: upper-cases the first character and keeps the rest. */
  function Capitalize(s: string): (r: string)
    ensures |r| == |s|
    ensures forall k :: 1 <= k < |s| ==> r[k] == s[k]
    ensures s != [] ==> !('a' <= r[0] <= 'z')
    ensures s != [] && !('a' <= s[0] <= 'z') ==> r == s
    ensures s != [] && 'a' <= s[0] <= 'z' ==> r[0] as int + 32 == s[0] as int
  {
    if s == [] then [] else [UpperAscii(s[0])] + s[1..]
  }

  /** Capitalizing a label twice is capitalizing it once. */
  lemma CapitalizeIdempotent(s: string)
    ensures Capitalize(Capitalize(s)) == Capitalize(s)
  {
  }
}
