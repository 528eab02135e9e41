/**
 * The shopping cart: an ordered list of order entries, changed only by the
 * "add one unit" click handler of the two item cards, and read back by the
 * per-item quantity badge.
 */
module Cart {
  import opened Wrappers
  import opened Catalog

  /** One line of the cart: an item and how many units of it were added. */
  datatype OrderEntry = OrderEntry(item: DrinkItem, count: int)

  /** The cart's invariant: at most one entry per item id, and every count at least 1. */
  predicate WellFormed(entries: seq<OrderEntry>)
  {
    (forall i, j :: 0 <= i < j < |entries| ==> entries[i].item.id != entries[j].item.id)
    && (forall i :: 0 <= i < |entries| ==> entries[i].count >= 1)
  }

  /** The first index at or after `from` whose entry has the given item id. */
  function FindFrom(entries: seq<OrderEntry>, id: int, from: nat): (r: Option<nat>)
    requires from <= |entries|
    decreases |entries| - from
    ensures r.Some? ==> from <= r.value < |entries| && entries[r.value].item.id == id
    ensures r.Some? ==> forall j :: from <= j < r.value ==> entries[j].item.id != id
    ensures r.None? ==> forall j :: from <= j < |entries| ==> entries[j].item.id != id
  {
    if from == |entries| then None
    else if entries[from].item.id == id then Some(from)
    else FindFrom(entries, id, from + 1)
  }

  /** The position of `cart.find { it.item.id == id }`. */
  function FindIndex(entries: seq<OrderEntry>, id: int): (r: Option<nat>)
    ensures r.Some? ==> r.value < |entries| && entries[r.value].item.id == id
    ensures r.Some? ==> forall j :: 0 <= j < r.value ==> entries[j].item.id != id
    ensures r.None? ==> forall j :: 0 <= j < |entries| ==> entries[j].item.id != id
  {
    FindFrom(entries, id, 0)
  }

  /** `cart.find { it.item.id == id }`: the first entry with that id, or None. */
  function Find(entries: seq<OrderEntry>, id: int): (r: Option<OrderEntry>)
    ensures r.Some? <==> exists i :: 0 <= i < |entries| && entries[i].item.id == id
    ensures r.Some? ==> r.value in entries && r.value.item.id == id
    ensures r.Some? ==> exists i :: 0 <= i < |entries| && entries[i] == r.value
                                    && forall j :: 0 <= j < i ==> entries[j].item.id != id
  {
    match FindIndex(entries, id)
    case Some(i) => Some(entries[i])
    case None => None
  }

  /** In a well-formed cart the entry with a given id is the only one, so `find` returns it. */
  lemma {:induction false} FindUnique(entries: seq<OrderEntry>, i: nat)
    requires WellFormed(entries) && i < |entries|
    ensures FindIndex(entries, entries[i].item.id) == Some(i)
    ensures Find(entries, entries[i].item.id) == Some(entries[i])
  {
    var r := FindIndex(entries, entries[i].item.id);
    assert r.Some?;
  }

  /**
   * The state after one click of an item's "add" button: the count of the
   * first entry with the item's id goes up by one, or a new entry with count
   * 1 is appended when there is none. Its properties are stated by
   * `AddExisting`, `AddNew` and `AddPreservesWellFormed`.
   */
  function AddOneTo(entries: seq<OrderEntry>, item: DrinkItem): (r: seq<OrderEntry>)
  {
    match FindIndex(entries, item.id)
    case Some(i) => entries[i := OrderEntry(entries[i].item, entries[i].count + 1)]
    case None => entries + [OrderEntry(item, 1)]
  }

  /**
   * Adding an item that is in the cart raises that entry's count by exactly 1
   * and changes nothing else: same length, same order, the entry keeps the
   * item it was created with, every other entry is as it was.
   */
  lemma AddExisting(entries: seq<OrderEntry>, item: DrinkItem, i: nat)
    requires i < |entries| && entries[i].item.id == item.id
    requires forall j :: 0 <= j < i ==> entries[j].item.id != item.id
    ensures |AddOneTo(entries, item)| == |entries|
    ensures AddOneTo(entries, item)[i] == OrderEntry(entries[i].item, entries[i].count + 1)
    ensures forall j :: 0 <= j < |entries| && j != i ==> AddOneTo(entries, item)[j] == entries[j]
  {
    var r := FindIndex(entries, item.id);
    assert r.Some?;
  }

  /** Adding an item that is not in the cart appends `OrderEntry(item, 1)` behind the unchanged entries. */
  lemma AddNew(entries: seq<OrderEntry>, item: DrinkItem)
    requires forall j :: 0 <= j < |entries| ==> entries[j].item.id != item.id
    ensures AddOneTo(entries, item) == entries + [OrderEntry(item, 1)]
  {
  }

  /** Add-one keeps the cart well-formed. */
  lemma AddPreservesWellFormed(entries: seq<OrderEntry>, item: DrinkItem)
    requires WellFormed(entries)
    ensures WellFormed(AddOneTo(entries, item))
  {
    match FindIndex(entries, item.id)
    case Some(i) =>
      AddExisting(entries, item, i);
    case None =>
      AddNew(entries, item);
  }

  /** How many units of the item with this id the cart holds: the count of its entry, 0 when absent. */
  function Quantity(entries: seq<OrderEntry>, id: int): (r: int)
    ensures (forall i :: 0 <= i < |entries| ==> entries[i].item.id != id) ==> r == 0
    ensures WellFormed(entries) ==> r >= 0
  {
    match Find(entries, id)
    case Some(e) => e.count
    case None => 0
  }

  /**
   * The quantity badge of an item card: the count of the found entry, shown
   * only when there is an entry and its count is positive.
   */
  function Badge(entries: seq<OrderEntry>, id: int): (r: Option<int>)
    ensures r.Some? ==> r.value > 0 && r.value == Quantity(entries, id)
  {
    match Find(entries, id)
    case Some(e) => if e.count > 0 then Some(e.count) else None
    case None => None
  }

  /**
   * In a well-formed cart the badge of an item shows the count of the unique
   * entry with its id, and no badge is shown for an absent item.
   */
  lemma BadgeShowsQuantity(entries: seq<OrderEntry>, id: int)
    requires WellFormed(entries)
    ensures forall i :: 0 <= i < |entries| && entries[i].item.id == id ==>
              Badge(entries, id) == Some(entries[i].count) && Quantity(entries, id) == entries[i].count
    ensures (forall i :: 0 <= i < |entries| ==> entries[i].item.id != id) <==> Badge(entries, id) == None
    ensures Badge(entries, id) == None <==> Quantity(entries, id) == 0
  {
    forall i | 0 <= i < |entries| && entries[i].item.id == id
      ensures Badge(entries, id) == Some(entries[i].count)
    {
      FindUnique(entries, i);
    }
  }

  /** After one add-one of an item its quantity is one more, and every other item's quantity is unchanged. */
  lemma QuantityAfterAdd(entries: seq<OrderEntry>, item: DrinkItem, id: int)
    requires WellFormed(entries)
    ensures Quantity(AddOneTo(entries, item), id)
            == Quantity(entries, id) + (if id == item.id then 1 else 0)
  {
    var r := AddOneTo(entries, item);
    AddPreservesWellFormed(entries, item);
    match FindIndex(entries, item.id)
    case Some(i) =>
      AddExisting(entries, item, i);
      FindUnique(entries, i);
      FindUnique(r, i);
      if id != item.id {
        match FindIndex(entries, id)
        case Some(k) =>
          FindUnique(entries, k);
          FindUnique(r, k);
        case None =>
          assert forall j :: 0 <= j < |r| ==> r[j].item.id == entries[j].item.id;
      }
    case None =>
      AddNew(entries, item);
      FindUnique(r, |entries|);
      if id != item.id {
        match FindIndex(entries, id)
        case Some(k) =>
          FindUnique(entries, k);
          FindUnique(r, k);
        case None =>
      }
  }

  /** The cart shared by the Menu and Order screens, created empty when the app starts. */
  class Cart {
    var entries: seq<OrderEntry>

    ghost predicate Valid()
      reads this
    {
      WellFormed(entries)
    }

    constructor ()
      ensures entries == [] && Valid()
    {
      entries := [];
    }

    /** The loop behind `cart.find { it.item.id == id }`: the index of the first entry with that id. */
    method IndexOf(id: int) returns (found: bool, index: nat)
      ensures found ==> index < |entries| && entries[index].item.id == id
      ensures found ==> forall j :: 0 <= j < index ==> entries[j].item.id != id
      ensures !found ==> forall j :: 0 <= j < |entries| ==> entries[j].item.id != id
      ensures FindIndex(entries, id) == if found then Some(index) else None
    {
      index := 0;
      while index < |entries|
        invariant index <= |entries|
        invariant forall j :: 0 <= j < index ==> entries[j].item.id != id
        invariant FindIndex(entries, id) == FindFrom(entries, id, index)
      {
        if entries[index].item.id == id {
          return true, index;
        }
        index := index + 1;
      }
      return false, index;
    }

    /** The click handler of an item's "add" button. */
    method AddOne(item: DrinkItem)
      modifies this
      ensures entries == AddOneTo(old(entries), item)
      ensures old(Valid()) ==> Valid()
    {
      var found, i := IndexOf(item.id);
      if found {
        var existing := entries[i];
        entries := entries[i := OrderEntry(existing.item, existing.count + 1)];
      } else {
        entries := entries + [OrderEntry(item, 1)];
      }
      if old(Valid()) {
        AddPreservesWellFormed(old(entries), item);
      }
    }
  }
}
