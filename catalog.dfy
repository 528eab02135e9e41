/**
 * The static catalog: four fixed item lists, the category lookup and the
 * Menu screen's choice of which category sections to render.
 * Prices are whole numbers of thousands of rupiah (the app multiplies every
 * price by 1000 before showing it); image resource ids are not modelled.
 */
module Catalog {

  /** A catalog item: id, title and price in thousands of rupiah. */
  datatype DrinkItem = DrinkItem(id: int, title: string, price: nat)

  const CoffeeDrinks: seq<DrinkItem> := [
    DrinkItem(1, "Coffee 1", 50),
    DrinkItem(2, "Coffee 2", 32),
    DrinkItem(3, "Coffee 3", 28),
    DrinkItem(4, "Coffee 4", 40)
  ]

  const TeaDrinks: seq<DrinkItem> := [
    DrinkItem(5, "Tea 1", 25),
    DrinkItem(6, "Tea 2", 30),
    DrinkItem(7, "Tea 3", 28)
  ]

  const FrappuccinoDrinks: seq<DrinkItem> := [
    DrinkItem(8, "Frappuccino 1", 45),
    DrinkItem(9, "Frappuccino 2", 48),
    DrinkItem(10, "Frappuccino 3", 42),
    DrinkItem(11, "Frappuccino 4", 46)
  ]

  const FoodItems: seq<DrinkItem> := [
    DrinkItem(12, "Food 1", 35),
    DrinkItem(13, "Food 2", 25),
    DrinkItem(14, "Food 3", 30)
  ]

  /** The Menu screen's concatenation used for searching. */
  const AllDrinks: seq<DrinkItem> := CoffeeDrinks + TeaDrinks + FrappuccinoDrinks + FoodItems

  /** Names of the category chips, in display order. */
  const MenuCategories: seq<string> := ["All", "Coffee", "Tea", "Frappuccino", "Food", "Label"]

  /** The four names that have a list of their own. */
  const SectionNames: seq<string> := ["Coffee", "Tea", "Frappuccino", "Food"]

  /** No two items of a list share an id. */
  predicate UniqueIds(items: seq<DrinkItem>)
  {
    forall i, j :: 0 <= i < j < |items| ==> items[i].id != items[j].id
  }

  /** The catalog is numbered 1..14 in list order, so ids are unique across all four lists. */
  lemma CatalogIds()
    ensures |AllDrinks| == 14
    ensures forall i :: 0 <= i < |AllDrinks| ==> AllDrinks[i].id == i + 1
    ensures UniqueIds(AllDrinks)
  {
  }

  /** Items with the same id in the catalog are the same item. */
  lemma {:induction false} CatalogIdDetermines(x: DrinkItem, y: DrinkItem)
    requires x in AllDrinks && y in AllDrinks && x.id == y.id
    ensures x == y
  {
    CatalogIds();
    var i :| 0 <= i < |AllDrinks| && AllDrinks[i] == x;
    var j :| 0 <= j < |AllDrinks| && AllDrinks[j] == y;
    assert i + 1 == j + 1;
  }

  /** `getDrinksByCategory`: the fixed list of a named category, empty for any other name. */
  function DrinksByCategory(category: string): (r: seq<DrinkItem>)
    ensures category == "Coffee" ==> r == CoffeeDrinks
    ensures category == "Tea" ==> r == TeaDrinks
    ensures category == "Frappuccino" ==> r == FrappuccinoDrinks
    ensures category == "Food" ==> r == FoodItems
    ensures category !in SectionNames ==> r == []
    ensures forall x :: x in r ==> x in AllDrinks
  {
    match category
    case "Coffee" => CoffeeDrinks
    case "Tea" => TeaDrinks
    case "Frappuccino" => FrappuccinoDrinks
    case "Food" => FoodItems
    case _ => []
  }

  /** The four named categories concatenate, in chip order, to the whole catalog. */
  lemma CategoriesCoverCatalog()
    ensures AllDrinks == DrinksByCategory("Coffee") + DrinksByCategory("Tea")
                         + DrinksByCategory("Frappuccino") + DrinksByCategory("Food")
  {
  }

  /** The four category lists share no item: the groups partition the catalog. */
  lemma CategoriesDisjoint(x: DrinkItem)
    ensures x in CoffeeDrinks ==> x !in TeaDrinks && x !in FrappuccinoDrinks && x !in FoodItems
    ensures x in TeaDrinks ==> x !in FrappuccinoDrinks && x !in FoodItems
    ensures x in FrappuccinoDrinks ==> x !in FoodItems
  {
  }

  /**
   * The sections the Menu screen renders for the selected chip, by name, in
   * display order: each of the four is shown when it is selected or when
   * "All" is.
   */
  function MenuSections(selected: string): (r: seq<string>)
    ensures selected == "All" ==> r == SectionNames
    ensures selected in SectionNames ==> r == [selected]
    ensures selected != "All" && selected !in SectionNames ==> r == []
    ensures forall name :: name in r ==> name in SectionNames
  {
    (if selected == "Coffee" || selected == "All" then ["Coffee"] else [])
    + (if selected == "Tea" || selected == "All" then ["Tea"] else [])
    + (if selected == "Frappuccino" || selected == "All" then ["Frappuccino"] else [])
    + (if selected == "Food" || selected == "All" then ["Food"] else [])
  }

  /** The items a list of sections shows, section after section. */
  function SectionItems(names: seq<string>): (r: seq<DrinkItem>)
  {
    if names == [] then [] else DrinksByCategory(names[0]) + SectionItems(names[1..])
  }

  /**
   * What the Menu screen shows for a chip agrees with the category lookup:
   * "All" shows the whole catalog, any other chip exactly its own list
   * (nothing for "Label").
   */
  lemma MenuShowsCategory(selected: string)
    ensures selected == "All" ==> SectionItems(MenuSections(selected)) == AllDrinks
    ensures selected != "All" ==> SectionItems(MenuSections(selected)) == DrinksByCategory(selected)
  {
    if selected == "All" {
      assert SectionItems(SectionNames) == CoffeeDrinks + (TeaDrinks + (FrappuccinoDrinks + (FoodItems + [])));
    } else if selected in SectionNames {
      assert SectionItems([selected]) == DrinksByCategory(selected) + [];
    }
  }

  /** Every chip of the category bar: "Label" selects nothing. */
  lemma LabelShowsNothing()
    ensures "Label" in MenuCategories
    ensures MenuSections("Label") == [] && DrinksByCategory("Label") == []
    ensures DrinksByCategory("All") == []
  {
  }
}
