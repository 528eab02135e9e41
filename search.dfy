/**
 * The two search boxes. Both keep, in catalog order, the items whose title
 * contains the query ignoring case; they differ in what a blank query gives
 * and in which lists they search.
 */
module Search {
  import opened Text
  import opened Catalog

  /** The filter's predicate: `it.title.contains(query, ignoreCase = true)`. */
  predicate Matches(x: DrinkItem, query: string)
  {
    ContainsIgnoreCase(x.title, query)
  }

  /** `items.filter { Matches(it, query) }`. */
  function Filter(items: seq<DrinkItem>, query: string): (r: seq<DrinkItem>)
    ensures |r| <= |items|
    ensures forall x :: x in r ==> x in items && Matches(x, query)
    ensures forall x :: x in items && Matches(x, query) ==> x in r
  {
    if items == [] then []
    else (if Matches(items[0], query) then [items[0]] else []) + Filter(items[1..], query)
  }

  /** `s` is `t` with some elements left out, the rest in their original order. */
  predicate IsSubsequence(s: seq<DrinkItem>, t: seq<DrinkItem>)
    decreases |t|
  {
    s == [] || (t != [] && ((s[0] == t[0] && IsSubsequence(s[1..], t[1..])) || IsSubsequence(s, t[1..])))
  }

  lemma {:induction false} SubsequenceMultiset(s: seq<DrinkItem>, t: seq<DrinkItem>)
    requires IsSubsequence(s, t)
    ensures multiset(s) <= multiset(t)
    decreases |t|
  {
    if s != [] {
      assert t == [t[0]] + t[1..];
      if s[0] == t[0] && IsSubsequence(s[1..], t[1..]) {
        SubsequenceMultiset(s[1..], t[1..]);
        assert s == [s[0]] + s[1..];
      } else {
        SubsequenceMultiset(s, t[1..]);
      }
    }
  }

  /** Filtering keeps the order of the list it filters. */
  lemma {:induction false} FilterIsSubsequence(items: seq<DrinkItem>, query: string)
    ensures IsSubsequence(Filter(items, query), items)
  {
    if items != [] {
      FilterIsSubsequence(items[1..], query);
      var r := Filter(items, query);
      if Matches(items[0], query) {
        assert r[0] == items[0] && r[1..] == Filter(items[1..], query);
      } else {
        assert r == Filter(items[1..], query);
      }
    }
  }

  /** Filtering keeps every matching element as often as it occurs, and nothing else. */
  lemma {:induction false} FilterCounts(items: seq<DrinkItem>, query: string, x: DrinkItem)
    ensures multiset(Filter(items, query))[x] == if Matches(x, query) then multiset(items)[x] else 0
  {
    if items != [] {
      FilterCounts(items[1..], query, x);
      assert items == [items[0]] + items[1..];
    }
  }

  /** Filtering a concatenation filters each part. */
  lemma {:induction false} FilterAppend(a: seq<DrinkItem>, b: seq<DrinkItem>, query: string)
    ensures Filter(a + b, query) == Filter(a, query) + Filter(b, query)
  {
    if a == [] {
      assert a + b == b;
    } else {
      var head := if Matches(a[0], query) then [a[0]] else [];
      assert (a + b)[0] == a[0] && (a + b)[1..] == a[1..] + b;
      calc {
        Filter(a + b, query);
        head + Filter(a[1..] + b, query);
        { FilterAppend(a[1..], b, query); }
        head + (Filter(a[1..], query) + Filter(b, query));
        (head + Filter(a[1..], query)) + Filter(b, query);
        Filter(a, query) + Filter(b, query);
      }
    }
  }

  /**
   * The filter is the only order-preserving selection that keeps exactly the
   * matching elements: any such subsequence equals it.
   */
  lemma {:induction false} FilterUnique(items: seq<DrinkItem>, query: string, s: seq<DrinkItem>)
    requires IsSubsequence(s, items)
    requires forall i :: 0 <= i < |s| ==> Matches(s[i], query)
    requires forall x :: multiset(s)[x] == if Matches(x, query) then multiset(items)[x] else 0
    ensures s == Filter(items, query)
    decreases |items|
  {
    if items == [] {
      assert s == [];
    } else {
      var h, t := items[0], items[1..];
      assert items == [h] + t;
      if Matches(h, query) {
        assert multiset(s)[h] >= 1;
        assert s != [];
        if !(s[0] == h && IsSubsequence(s[1..], t)) {
          SubsequenceMultiset(s, t);
          assert false;
        }
        assert s == [h] + s[1..];
        forall x ensures multiset(s[1..])[x] == if Matches(x, query) then multiset(t)[x] else 0 {
        }
        FilterUnique(t, query, s[1..]);
      } else {
        assert s == [] || s[0] != h;
        assert IsSubsequence(s, t);
        forall x ensures multiset(s)[x] == if Matches(x, query) then multiset(t)[x] else 0 {
          if Matches(x, query) {
            assert x != h;
          }
        }
        FilterUnique(t, query, s);
      }
    }
  }

  /**
   * Home screen search (coffee only): a blank query gives the whole coffee
   * list, any other query the coffee items whose title contains it.
   */
  function HomeSearch(query: string): (r: seq<DrinkItem>)
    ensures forall x :: x in r ==> x in CoffeeDrinks
    ensures IsBlank(query) ==> r == CoffeeDrinks
    ensures !IsBlank(query) ==> forall x :: x in r <==> x in CoffeeDrinks && Matches(x, query)
  {
    if IsBlank(query) then CoffeeDrinks else Filter(CoffeeDrinks, query)
  }

  /**
   * Menu screen search (whole catalog): a blank query gives the empty list,
   * any other query the catalog items whose title contains it.
   */
  function MenuSearch(query: string): (r: seq<DrinkItem>)
    ensures forall x :: x in r ==> x in AllDrinks
    ensures IsBlank(query) ==> r == []
    ensures !IsBlank(query) ==> forall x :: x in r <==> x in AllDrinks && Matches(x, query)
  {
    if IsBlank(query) then [] else Filter(AllDrinks, query)
  }

  /** A non-blank home search is the order-preserving filter of the coffee list, with each match once. */
  lemma HomeSearchFilters(query: string)
    requires !IsBlank(query)
    ensures IsSubsequence(HomeSearch(query), CoffeeDrinks)
    ensures forall x :: multiset(HomeSearch(query))[x] == if Matches(x, query) then multiset(CoffeeDrinks)[x] else 0
  {
    FilterIsSubsequence(CoffeeDrinks, query);
    forall x ensures multiset(HomeSearch(query))[x] == if Matches(x, query) then multiset(CoffeeDrinks)[x] else 0 {
      FilterCounts(CoffeeDrinks, query, x);
    }
  }

  /**
   * A non-blank menu search is the order-preserving filter of the whole
   * catalog, each match once, and lists the coffee matches first, then tea,
   * frappuccino and food.
   */
  lemma MenuSearchFilters(query: string)
    requires !IsBlank(query)
    ensures IsSubsequence(MenuSearch(query), AllDrinks)
    ensures forall x :: multiset(MenuSearch(query))[x] == if Matches(x, query) then multiset(AllDrinks)[x] else 0
    ensures MenuSearch(query) == Filter(CoffeeDrinks, query) + Filter(TeaDrinks, query)
                                 + Filter(FrappuccinoDrinks, query) + Filter(FoodItems, query)
  {
    FilterIsSubsequence(AllDrinks, query);
    forall x ensures multiset(MenuSearch(query))[x] == if Matches(x, query) then multiset(AllDrinks)[x] else 0 {
      FilterCounts(AllDrinks, query, x);
    }
    FilterAppend(CoffeeDrinks + TeaDrinks + FrappuccinoDrinks, FoodItems, query);
    FilterAppend(CoffeeDrinks + TeaDrinks, FrappuccinoDrinks, query);
    FilterAppend(CoffeeDrinks, TeaDrinks, query);
  }

  lemma ConcatPrefix(a: seq<DrinkItem>, b: seq<DrinkItem>, c: seq<DrinkItem>, d: seq<DrinkItem>)
    ensures |a| <= |a + b + c + d| && (a + b + c + d)[..|a|] == a
  {
    assert a + b + c + d == a + (b + c + d);
  }

  /** On a non-blank query the home screen's results are the first results of the menu screen's. */
  lemma HomeSearchIsMenuPrefix(query: string)
    requires !IsBlank(query)
    ensures |HomeSearch(query)| <= |MenuSearch(query)|
    ensures HomeSearch(query) == MenuSearch(query)[..|HomeSearch(query)|]
  {
    MenuSearchFilters(query);
    ConcatPrefix(Filter(CoffeeDrinks, query), Filter(TeaDrinks, query),
                 Filter(FrappuccinoDrinks, query), Filter(FoodItems, query));
  }

  /** Matching ignores case: the query "COFFEE" finds "Coffee 1". */
  lemma MatchIgnoresCaseExample()
    ensures Matches(CoffeeDrinks[0], "COFFEE")
  {
    assert RegionMatches("Coffee 1", "COFFEE", 0);
  }

  /** A blank query empties the menu search and leaves the home list whole. */
  lemma BlankQueryExample()
    ensures MenuSearch(" ") == [] && HomeSearch(" ") == CoffeeDrinks
  {
  }

  /** The home screen searches coffee only: "tea" finds nothing there. */
  lemma HomeSearchCoffeeOnlyExample()
    ensures HomeSearch("tea") == []
  {
    assert !IsWhitespace("tea"[0]);
    forall x | x in CoffeeDrinks ensures !Matches(x, "tea") {
      MissingFirstCharNoMatch(x.title, "tea");
    }
  }
}
