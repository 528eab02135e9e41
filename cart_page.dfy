/**
 * The Order screen's summary: the "N items" label, the subtotal, the tax and
 * the total. Amounts are kept in thousands of rupiah and shown in rupiah
 * after the app's conversion of the scaled amount to a 32-bit `Int`.
 */
module CartPage {
  import opened Catalog
  import opened Wrappers
  import opened Cart

  /** `cart.sumOf { it.count }`: the number in the "Subtotal (N items)" label. */
  function ItemCount(entries: seq<OrderEntry>): (r: int)
  {
    if entries == [] then 0 else entries[0].count + ItemCount(entries[1..])
  }

  /** `cart.sumOf { it.item.price * it.count }`, in thousands of rupiah. */
  function Subtotal(entries: seq<OrderEntry>): (r: int)
  {
    if entries == [] then 0 else entries[0].item.price * entries[0].count + Subtotal(entries[1..])
  }

  const MaxInt: int := 0x7FFF_FFFF
  const MinInt: int := -0x8000_0000

  /** Kotlin's `Double.toInt()` on a whole amount: it saturates at `Int.MIN_VALUE` and `Int.MAX_VALUE`. */
  function ToInt(x: int): (r: int)
    ensures MinInt <= r <= MaxInt
    ensures MinInt <= x <= MaxInt ==> r == x
    ensures x > MaxInt ==> r == MaxInt
    ensures x < MinInt ==> r == MinInt
  {
    if x > MaxInt then MaxInt else if x < MinInt then MinInt else x
  }

  /** The rupiah amount on an entry's line: unit price times count, times 1000. */
  function LineAmount(e: OrderEntry): (r: int)
  {
    ToInt(e.item.price * 1000 * e.count)
  }

  /** The subtotal as shown, in rupiah. */
  function ShownSubtotal(entries: seq<OrderEntry>): (r: int)
  {
    ToInt(Subtotal(entries) * 1000)
  }

  /** "Tax & Fees" as shown, in rupiah. */
  function ShownTax(entries: seq<OrderEntry>): (r: int)
  {
    ToInt(Subtotal(entries) * 100)
  }

  /** "Total" as shown, in rupiah. */
  function ShownTotal(entries: seq<OrderEntry>): (r: int)
  {
    ToInt(Subtotal(entries) * 1000 + Subtotal(entries) * 100)
  }

  /** The sum of the line amounts shown on the entries' cards, in rupiah. */
  function SumOfLines(entries: seq<OrderEntry>): (r: int)
  {
    if entries == [] then 0 else LineAmount(entries[0]) + SumOfLines(entries[1..])
  }

  /** In a well-formed cart the counts and amounts are positive, and there are at least as many units as entries. */
  lemma {:induction false} SumsNonNegative(entries: seq<OrderEntry>)
    requires WellFormed(entries)
    ensures ItemCount(entries) >= |entries|
    ensures Subtotal(entries) >= 0
  {
    if entries != [] {
      assert WellFormed(entries[1..]);
      SumsNonNegative(entries[1..]);
    }
  }

  /**
   * The empty cart's item count and amounts evaluate to 0 (the Order screen
   * itself shows no summary for an empty cart).
   */
  lemma EmptyCartTotals()
    ensures ItemCount([]) == 0 && Subtotal([]) == 0
    ensures ShownSubtotal([]) == 0 && ShownTax([]) == 0 && ShownTotal([]) == 0
  {
  }

  /**
   * The shown tax is 10% of the shown subtotal and the shown total is their
   * sum, as long as the total fits in an `Int`.
   */
  lemma {:induction false} TaxIsTenPercent(entries: seq<OrderEntry>)
    requires WellFormed(entries)
    requires Subtotal(entries) * 1100 <= MaxInt
    ensures ShownTax(entries) * 10 == ShownSubtotal(entries)
    ensures ShownTotal(entries) == ShownSubtotal(entries) + ShownTax(entries)
    ensures ShownTotal(entries) == Subtotal(entries) * 1100
  {
    SumsNonNegative(entries);
  }

  /** A line amount that fits in an `Int` is shown exactly: unit price times count, in rupiah. */
  lemma LineAmountInRange(e: OrderEntry)
    requires MinInt <= e.item.price * 1000 * e.count <= MaxInt
    ensures LineAmount(e) == e.item.price * 1000 * e.count
  {
  }

  /**
   * In a well-formed cart whose shown subtotal fits in an `Int`, the amounts
   * shown on the lines add up to the shown subtotal.
   */
  lemma {:induction false} LinesAddUpToSubtotal(entries: seq<OrderEntry>)
    requires WellFormed(entries)
    requires Subtotal(entries) * 1000 <= MaxInt
    ensures SumOfLines(entries) == ShownSubtotal(entries)
  {
    if entries != [] {
      var e, rest := entries[0], entries[1..];
      assert WellFormed(rest);
      SumsNonNegative(rest);
      var line := e.item.price * e.count;
      assert line >= 0 && Subtotal(entries) == line + Subtotal(rest);
      assert e.item.price * 1000 * e.count == line * 1000;
      assert 0 <= line * 1000 <= Subtotal(entries) * 1000;
      assert Subtotal(rest) * 1000 <= Subtotal(entries) * 1000;
      LineAmountInRange(e);
      LinesAddUpToSubtotal(rest);
      assert SumOfLines(entries) == line * 1000 + Subtotal(rest) * 1000;
    }
  }

  lemma {:induction false} SumsAppend(entries: seq<OrderEntry>, e: OrderEntry)
    ensures ItemCount(entries + [e]) == ItemCount(entries) + e.count
    ensures Subtotal(entries + [e]) == Subtotal(entries) + e.item.price * e.count
  {
    if entries == [] {
      assert [] + [e] == [e];
    } else {
      assert (entries + [e])[1..] == entries[1..] + [e];
      SumsAppend(entries[1..], e);
    }
  }

  lemma {:induction false} SumsUpdate(entries: seq<OrderEntry>, i: nat, e: OrderEntry)
    requires i < |entries|
    ensures ItemCount(entries[i := e]) == ItemCount(entries) - entries[i].count + e.count
    ensures Subtotal(entries[i := e]) == Subtotal(entries) - entries[i].item.price * entries[i].count + e.item.price * e.count
  {
    if i > 0 {
      assert entries[i := e][1..] == entries[1..][i - 1 := e];
      SumsUpdate(entries[1..], i - 1, e);
    }
  }

  /**
   * One add-one adds one unit to the "N items" count, and adds to the
   * subtotal the price of the entry that received the unit: the existing
   * entry's item, or the added item for a new entry.
   */
  lemma AddOneSums(entries: seq<OrderEntry>, item: DrinkItem)
    ensures ItemCount(AddOneTo(entries, item)) == ItemCount(entries) + 1
    ensures Subtotal(AddOneTo(entries, item)) == Subtotal(entries) +
              match FindIndex(entries, item.id)
              case Some(i) => entries[i].item.price
              case None => item.price
  {
    match FindIndex(entries, item.id)
    case Some(i) =>
      SumsUpdate(entries, i, OrderEntry(entries[i].item, entries[i].count + 1));
    case None =>
      SumsAppend(entries, OrderEntry(item, 1));
  }

  /** All entry items come from the catalog. */
  predicate FromCatalog(entries: seq<OrderEntry>)
  {
    forall i :: 0 <= i < |entries| ==> entries[i].item in AllDrinks
  }

  /** With catalog items, whose ids identify them, one add-one raises the subtotal by the added item's price. */
  lemma AddOneCatalogSubtotal(entries: seq<OrderEntry>, item: DrinkItem)
    requires FromCatalog(entries) && item in AllDrinks
    ensures FromCatalog(AddOneTo(entries, item))
    ensures Subtotal(AddOneTo(entries, item)) == Subtotal(entries) + item.price
  {
    AddOneSums(entries, item);
    match FindIndex(entries, item.id)
    case Some(i) =>
      CatalogIdDetermines(entries[i].item, item);
    case None =>
  }

  /** The cart after a sequence of add-one clicks, one per item, in order. */
  function AddAll(entries: seq<OrderEntry>, items: seq<DrinkItem>): (r: seq<OrderEntry>)
    decreases |items|
  {
    if items == [] then entries else AddAll(AddOneTo(entries, items[0]), items[1..])
  }

  /** How many of the clicked items have the given id. */
  function Occurrences(items: seq<DrinkItem>, id: int): (r: nat)
  {
    if items == [] then 0 else (if items[0].id == id then 1 else 0) + Occurrences(items[1..], id)
  }

  /**
   * Any run of add-one clicks keeps the cart well-formed, adds one unit per
   * click to the "N items" count, and raises each item's quantity by the
   * number of clicks on it.
   */
  lemma {:induction false} AddAllEffect(entries: seq<OrderEntry>, items: seq<DrinkItem>, id: int)
    requires WellFormed(entries)
    ensures WellFormed(AddAll(entries, items))
    ensures ItemCount(AddAll(entries, items)) == ItemCount(entries) + |items|
    ensures Quantity(AddAll(entries, items), id) == Quantity(entries, id) + Occurrences(items, id)
    decreases |items|
  {
    if items != [] {
      var next := AddOneTo(entries, items[0]);
      AddPreservesWellFormed(entries, items[0]);
      AddOneSums(entries, items[0]);
      QuantityAfterAdd(entries, items[0], id);
      AddAllEffect(next, items[1..], id);
    }
  }

  /**
   * Starting from the empty cart, after n clicks the label reads n items
   * and every item's badge quantity is the number of clicks on it.
   */
  lemma SessionTotals(items: seq<DrinkItem>, id: int)
    ensures WellFormed(AddAll([], items))
    ensures ItemCount(AddAll([], items)) == |items|
    ensures Quantity(AddAll([], items), id) == Occurrences(items, id)
  {
    AddAllEffect([], items, id);
  }

  /** Two clicks on "Coffee 1": one entry of count 2, subtotal 100, shown total Rp110.000. */
  lemma TwoCoffeesExample()
    ensures AddAll([], [CoffeeDrinks[0], CoffeeDrinks[0]]) == [OrderEntry(CoffeeDrinks[0], 2)]
    ensures Subtotal([OrderEntry(CoffeeDrinks[0], 2)]) == 100
    ensures ShownTotal([OrderEntry(CoffeeDrinks[0], 2)]) == 110000
  {
    var coffee := CoffeeDrinks[0];
    var once := AddOneTo([], coffee);
    assert once == [OrderEntry(coffee, 1)];
    assert FindIndex(once, coffee.id) == Some(0);
    var twice := AddOneTo(once, coffee);
    assert twice == [OrderEntry(coffee, 2)];
    assert [coffee, coffee][1..] == [coffee];
    assert AddAll([], [coffee, coffee]) == AddAll(once, [coffee]);
    assert AddAll(once, [coffee]) == AddAll(twice, []);
  }
}
