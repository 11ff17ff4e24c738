/** The browse page: the availability, type and text filters, the four sort
    orders, the list of meal types on offer, the disabled-card rule and the
    filter reset. */
module BrowsePage {
  import opened Wrappers
  import opened Strings
  import opened Lists
  import opened Types
  import Api

  /** A meal that cannot be ordered: sold out or out of stock. */
  predicate IsSoldOut(m: Meal) {
    m.is_sold_out || m.quantity <= 0
  }

  /** A card is disabled, and has no click handler, exactly for such meals. */
  predicate Disabled(m: Meal) {
    IsSoldOut(m)
  }

  function RestaurantName(m: Meal): string {
    if m.restaurant.Some? && m.restaurant.value.name.Some? then m.restaurant.value.name.value else ""
  }

  /** The lower-cased "title description restaurant" text searched: the
      three parts, lower-cased, at their places between single spaces. */
  function Haystack(m: Meal): (r: string)
    ensures |r| == |m.title| + 1 + |m.description.GetOr("")| + 1 + |RestaurantName(m)|
    ensures OccursAt(r, Lower(m.title), 0)
    ensures OccursAt(r, Lower(m.description.GetOr("")), |m.title| + 1)
    ensures OccursAt(r, Lower(RestaurantName(m)), |m.title| + 1 + |m.description.GetOr("")| + 1)
    ensures r[|m.title|] == ' ' && r[|m.title| + 1 + |m.description.GetOr("")|] == ' '
  {
    var t, d, n := m.title, m.description.GetOr(""), RestaurantName(m);
    LowerJoin(t, d, n);
    var r := Lower(t + " " + d + " " + n);
    PartsOfJoin(Lower(t), Lower(d), Lower(n));
    r
  }

  /** Lower-casing the joined text lower-cases each part and keeps the spaces. */
  lemma LowerJoin(t: string, d: string, n: string)
    ensures Lower(t + " " + d + " " + n) == Lower(t) + " " + Lower(d) + " " + Lower(n)
  {
    LowerAppend(t, " ");
    LowerAppend(t + " ", d);
    LowerAppend(t + " " + d, " ");
    LowerAppend(t + " " + d + " ", n);
    assert Lower(" ") == " ";
  }

  /** Where each part of a space-joined text sits. */
  lemma PartsOfJoin(t: string, d: string, n: string)
    ensures var r := t + " " + d + " " + n;
      OccursAt(r, t, 0) && OccursAt(r, d, |t| + 1) && OccursAt(r, n, |t| + 1 + |d| + 1) &&
      r[|t|] == ' ' && r[|t| + 1 + |d|] == ' '
  {
    var r := t + " " + d + " " + n;
    assert r[0..|t|] == t;
    assert r[|t| + 1..|t| + 1 + |d|] == d;
    assert r[|t| + 1 + |d| + 1..|t| + 1 + |d| + 1 + |n|] == n;
  }

  /** The trimmed, lower-cased search text. */
  function Query(search: string): string {
    Lower(Trim(search))
  }

  /** One meal passes the filters: available (when asked), of the chosen
      type, and containing the query (when there is one). */
  predicate KeepMeal(availableOnly: bool, typeFilter: TypeFilter, q: string, m: Meal) {
    !(availableOnly && IsSoldOut(m)) &&
    (typeFilter.AllTypes? || m.mealType == typeFilter.mealType) &&
    (q == "" || Contains(Haystack(m), q))
  }

  /** A search of only white space filters nothing. */
  lemma BlankSearchKeepsAll(search: string, m: Meal)
    requires IsBlank(search)
    ensures KeepMeal(false, AllTypes, Query(search), m)
  {
    TrimEmptyIffBlank(search);
  }

  /** The savings in percent; 0 for a meal without a positive original price. */
  function SavingsPct(m: Meal): (r: real)
    ensures m.original_price <= 0 ==> r == 0.0
  {
    if m.original_price > 0
    then (m.original_price - m.discount_price) as real / m.original_price as real * 100.0
    else 0.0
  }

  /** A discount between 0 and the original price saves between 0 and 100 percent. */
  lemma SavingsPctInRange(m: Meal)
    requires 0 <= m.discount_price <= m.original_price
    ensures 0.0 <= SavingsPct(m) <= 100.0
  {
    if m.original_price > 0 {
      var d, o := (m.original_price - m.discount_price) as real, m.original_price as real;
      FractionAtMostOne(d, o);
    }
  }

  lemma FractionAtMostOne(d: real, o: real)
    requires 0.0 <= d <= o && o > 0.0
    ensures 0.0 <= d / o <= 1.0
  {
    assert d / o * o == d;
  }

  /** The sort key: the comparator of each sort option orders by it ascending. */
  function SortKey(sortBy: SortOption, m: Meal): real {
    match sortBy
    case PriceLow => m.discount_price as real
    case PriceHigh => -(m.discount_price as real)
    case SavingsHigh => -SavingsPct(m)
    case Newest => -(m.created_at as real)
  }

  /** What each order means for two meals in sorted position. */
  lemma SortKeyMeaning(sortBy: SortOption, a: Meal, b: Meal)
    requires SortKey(sortBy, a) <= SortKey(sortBy, b)
    ensures sortBy == PriceLow ==> a.discount_price <= b.discount_price
    ensures sortBy == PriceHigh ==> a.discount_price >= b.discount_price
    ensures sortBy == SavingsHigh ==> SavingsPct(a) >= SavingsPct(b)
    ensures sortBy == Newest ==> a.created_at >= b.created_at
  {
  }

  predicate Sorted(sortBy: SortOption, s: seq<Meal>) {
    forall i, j :: 0 <= i < j < |s| ==> SortKey(sortBy, s[i]) <= SortKey(sortBy, s[j])
  }

  /** Puts a meal into a sorted list ahead of the first meal it does not follow. */
  function Insert(sortBy: SortOption, x: Meal, s: seq<Meal>): (r: seq<Meal>)
    requires Sorted(sortBy, s)
    ensures Sorted(sortBy, r)
    ensures multiset(r) == multiset(s) + multiset{x}
    ensures |r| == |s| + 1
    decreases |s|
  {
    if s == [] then [x]
    else if SortKey(sortBy, x) <= SortKey(sortBy, s[0]) then
      SortedCons(sortBy, x, s);
      [x] + s
    else
      assert s == [s[0]] + s[1..];
      SortedTail(sortBy, s);
      var rest := Insert(sortBy, x, s[1..]);
      InsertedAbove(sortBy, s[0], x, s[1..], rest);
      SortedCons(sortBy, s[0], rest);
      [s[0]] + rest
  }

  /** The tail of a sorted list is sorted, and bounded below by its head. */
  lemma SortedTail(sortBy: SortOption, s: seq<Meal>)
    requires Sorted(sortBy, s) && s != []
    ensures Sorted(sortBy, s[1..])
    ensures forall i :: 0 <= i < |s[1..]| ==> SortKey(sortBy, s[0]) <= SortKey(sortBy, s[1..][i])
  {
    var t := s[1..];
    forall i, j | 0 <= i < j < |t|
      ensures SortKey(sortBy, t[i]) <= SortKey(sortBy, t[j])
    {
      assert t[i] == s[i + 1] && t[j] == s[j + 1];
    }
    forall i | 0 <= i < |t|
      ensures SortKey(sortBy, s[0]) <= SortKey(sortBy, t[i])
    {
      assert t[i] == s[i + 1];
    }
  }

  /** Elements drawn from a list bounded below by `lo`, or equal to a meal
      bounded below by `lo`, are bounded below by `lo`. */
  lemma InsertedAbove(sortBy: SortOption, lo: Meal, x: Meal, t: seq<Meal>, rest: seq<Meal>)
    requires forall i :: 0 <= i < |t| ==> SortKey(sortBy, lo) <= SortKey(sortBy, t[i])
    requires SortKey(sortBy, lo) <= SortKey(sortBy, x)
    requires multiset(rest) == multiset(t) + multiset{x}
    ensures forall i :: 0 <= i < |rest| ==> SortKey(sortBy, lo) <= SortKey(sortBy, rest[i])
  {
    forall i | 0 <= i < |rest|
      ensures SortKey(sortBy, lo) <= SortKey(sortBy, rest[i])
    {
      assert rest[i] in multiset(rest);
      if rest[i] != x {
        assert rest[i] in multiset(t);
        var j :| 0 <= j < |t| && t[j] == rest[i];
      }
    }
  }

  /** A meal that no meal of a sorted list precedes can go in front of it. */
  lemma SortedCons(sortBy: SortOption, x: Meal, s: seq<Meal>)
    requires Sorted(sortBy, s)
    requires s == [] || SortKey(sortBy, x) <= SortKey(sortBy, s[0])
    ensures Sorted(sortBy, [x] + s)
  {
    var r := [x] + s;
    forall i, j | 0 <= i < j < |r|
      ensures SortKey(sortBy, r[i]) <= SortKey(sortBy, r[j])
    {
      if i == 0 {
        assert r[j] == s[j - 1];
        if j > 1 {
          assert SortKey(sortBy, s[0]) <= SortKey(sortBy, s[j - 1]);
        }
      } else {
        assert r[i] == s[i - 1] && r[j] == s[j - 1];
      }
    }
  }

  /** `list.sort(comparator)` on the filtered copy. */
  function SortMeals(sortBy: SortOption, s: seq<Meal>): (r: seq<Meal>)
    ensures Sorted(sortBy, r)
    ensures multiset(r) == multiset(s)
    ensures |r| == |s|
    decreases |s|
  {
    if s == [] then []
    else
      assert s == [s[0]] + s[1..];
      Insert(sortBy, s[0], SortMeals(sortBy, s[1..]))
  }

  /** The meals whose sort key is `k`. */
  function KeyIs(sortBy: SortOption, k: real): Meal -> bool {
    m => SortKey(sortBy, m) == k
  }

  /** One step of an insertion past the head of `s`, which cannot share the
      key of the inserted meal `x`: the key-filtered lists still agree. */
  lemma StableStep(s: seq<Meal>, x: Meal, rest: seq<Meal>, p: Meal -> bool)
    requires s != [] && !(p(s[0]) && p(x))
    requires Filter(rest, p) == (if p(x) then [x] else []) + Filter(s[1..], p)
    ensures Filter([s[0]] + rest, p) == (if p(x) then [x] else []) + Filter(s, p)
  {
    FilterCons(s[0], rest, p);
    if p(s[0]) {
      assert Filter(s, p) == [s[0]] + Filter(s[1..], p);
      assert Filter(rest, p) == Filter(s[1..], p);
    } else {
      assert Filter(s, p) == Filter(s[1..], p);
      assert Filter([s[0]] + rest, p) == Filter(rest, p);
    }
  }

  /** Inserting puts the new meal ahead of the meals with its key and keeps
      the meals of every key in their order. */
  lemma {:induction false} InsertStable(sortBy: SortOption, x: Meal, s: seq<Meal>, k: real)
    requires Sorted(sortBy, s)
    ensures Filter(Insert(sortBy, x, s), KeyIs(sortBy, k))
      == (if SortKey(sortBy, x) == k then [x] else []) + Filter(s, KeyIs(sortBy, k))
    decreases |s|
  {
    var p := KeyIs(sortBy, k);
    if s == [] || SortKey(sortBy, x) <= SortKey(sortBy, s[0]) {
      assert Insert(sortBy, x, s) == [x] + s;
      FilterCons(x, s, p);
    } else {
      SortedTail(sortBy, s);
      InsertStable(sortBy, x, s[1..], k);
      assert p(x) <==> SortKey(sortBy, x) == k;
      assert p(s[0]) <==> SortKey(sortBy, s[0]) == k;
      StableStep(s, x, Insert(sortBy, x, s[1..]), p);
    }
  }

  /** The sort is stable: for every key, the meals with that key leave the
      sort in the order they entered it. */
  lemma {:induction false} SortMealsStable(sortBy: SortOption, s: seq<Meal>, k: real)
    ensures Filter(SortMeals(sortBy, s), KeyIs(sortBy, k)) == Filter(s, KeyIs(sortBy, k))
    decreases |s|
  {
    if s != [] {
      SortMealsStable(sortBy, s[1..], k);
      InsertStable(sortBy, s[0], SortMeals(sortBy, s[1..]), k);
      FilterCons(s[0], s[1..], KeyIs(sortBy, k));
      assert s == [s[0]] + s[1..];
    }
  }

  /** The filter test as the callback handed to `filter`. */
  function MealFilter(availableOnly: bool, typeFilter: TypeFilter, q: string): Meal -> bool {
    m => KeepMeal(availableOnly, typeFilter, q, m)
  }

  /** The meals passing the filters, in their original order: every passing
      meal, each copy of it, and nothing else. */
  function Kept(meals: seq<Meal>, search: string, typeFilter: TypeFilter, availableOnly: bool): (r: seq<Meal>)
    ensures forall i :: 0 <= i < |r| ==> r[i] in meals && KeepMeal(availableOnly, typeFilter, Query(search), r[i])
    ensures forall i :: 0 <= i < |meals| && KeepMeal(availableOnly, typeFilter, Query(search), meals[i]) ==> meals[i] in r
    ensures IsSubsequence(r, meals)
    ensures |r| == Count(meals, MealFilter(availableOnly, typeFilter, Query(search)))
  {
    var p := MealFilter(availableOnly, typeFilter, Query(search));
    FilterIsSubsequence(meals, p);
    Filter(meals, p)
  }

  /** `filteredMeals`: the meals passing the filters, as a permutation sorted
      by the chosen option. */
  function FilteredMeals(meals: seq<Meal>, search: string, typeFilter: TypeFilter, availableOnly: bool, sortBy: SortOption): (r: seq<Meal>)
    ensures Sorted(sortBy, r)
    ensures multiset(r) == multiset(Kept(meals, search, typeFilter, availableOnly))
    ensures forall i :: 0 <= i < |r| ==> r[i] in meals && KeepMeal(availableOnly, typeFilter, Query(search), r[i])
    ensures forall i :: 0 <= i < |meals| && KeepMeal(availableOnly, typeFilter, Query(search), meals[i]) ==> meals[i] in r
    ensures |r| == Count(meals, MealFilter(availableOnly, typeFilter, Query(search)))
  {
    var q := Query(search);
    var kept := Kept(meals, search, typeFilter, availableOnly);
    var r := SortMeals(sortBy, kept);
    PermutedSelection(meals, kept, r, MealFilter(availableOnly, typeFilter, q));
    assert |r| == |multiset(r)| == |multiset(kept)| == |kept|;
    r
  }

  /** Meals that tie under the chosen order are shown in the order they
      were fetched. */
  lemma FilteredMealsStable(meals: seq<Meal>, search: string, typeFilter: TypeFilter, availableOnly: bool, sortBy: SortOption, k: real)
    ensures Filter(FilteredMeals(meals, search, typeFilter, availableOnly, sortBy), KeyIs(sortBy, k))
      == Filter(Kept(meals, search, typeFilter, availableOnly), KeyIs(sortBy, k))
  {
    SortMealsStable(sortBy, Kept(meals, search, typeFilter, availableOnly), k);
  }

  /** A permutation of the members of `meals` satisfying `p` is again
      exactly those members. */
  lemma PermutedSelection(meals: seq<Meal>, kept: seq<Meal>, r: seq<Meal>, p: Meal -> bool)
    requires multiset(r) == multiset(kept)
    requires forall i :: 0 <= i < |kept| ==> kept[i] in meals && p(kept[i])
    requires forall i :: 0 <= i < |meals| && p(meals[i]) ==> meals[i] in kept
    ensures forall i :: 0 <= i < |r| ==> r[i] in meals && p(r[i])
    ensures forall i :: 0 <= i < |meals| && p(meals[i]) ==> meals[i] in r
  {
    forall i | 0 <= i < |r|
      ensures r[i] in meals && p(r[i])
    {
      assert r[i] in multiset(r);
      var j :| 0 <= j < |kept| && kept[j] == r[i];
    }
    forall i | 0 <= i < |meals| && p(meals[i])
      ensures meals[i] in r
    {
      assert meals[i] in multiset(kept);
    }
  }

  /** With "available only" set no sold-out or out-of-stock meal is shown,
      and with a type chosen only meals of that type. */
  lemma FilteredMealsExclude(meals: seq<Meal>, search: string, typeFilter: TypeFilter, availableOnly: bool, sortBy: SortOption, i: nat)
    requires i < |FilteredMeals(meals, search, typeFilter, availableOnly, sortBy)|
    ensures var m := FilteredMeals(meals, search, typeFilter, availableOnly, sortBy)[i];
      (availableOnly ==> !m.is_sold_out && m.quantity > 0) &&
      (typeFilter.OnlyType? ==> m.mealType == typeFilter.mealType) &&
      (Query(search) != "" ==> Contains(Haystack(m), Query(search)))
  {
  }

  /** Each type in `r` first appears in `ts` before every type after it in `r`. */
  predicate FirstAppearanceOrder(r: seq<MealType>, ts: seq<MealType>) {
    forall i, j, k :: 0 <= i < j < |r| && 0 <= k < |ts| && ts[k] == r[j] ==> r[i] in ts[..k]
  }

  /** The types in the list in order of first appearance, each once. */
  function DistinctTypes(ts: seq<MealType>): (r: seq<MealType>)
    ensures forall i, j :: 0 <= i < j < |r| ==> r[i] != r[j]
    ensures forall t :: t in r <==> t in ts
    ensures FirstAppearanceOrder(r, ts)
    decreases |ts|
  {
    if ts == [] then []
    else
      var d := DistinctTypes(ts[..|ts| - 1]);
      var last := ts[|ts| - 1];
      assert ts == ts[..|ts| - 1] + [last];
      if last in d then d else d + [last]
  }

  function MealTypes(meals: seq<Meal>): (r: seq<MealType>)
    ensures |r| == |meals| && forall i :: 0 <= i < |meals| ==> r[i] == meals[i].mealType
  {
    seq(|meals|, i requires 0 <= i < |meals| => meals[i].mealType)
  }

  /** `availableTypes`: each meal type present in the list, exactly once,
      in order of first appearance. */
  function AvailableTypes(meals: seq<Meal>): (r: seq<MealType>)
    ensures forall i, j :: 0 <= i < j < |r| ==> r[i] != r[j]
    ensures FirstAppearanceOrder(r, MealTypes(meals))
    ensures forall t :: t in r <==> exists i :: 0 <= i < |meals| && meals[i].mealType == t
  {
    var ts := MealTypes(meals);
    assert forall t :: t in ts <==> exists i :: 0 <= i < |meals| && meals[i].mealType == t by {
      forall t ensures t in ts ==> exists i :: 0 <= i < |meals| && meals[i].mealType == t {
        if t in ts {
          var i :| 0 <= i < |ts| && ts[i] == t;
          assert meals[i].mealType == t;
        }
      }
    }
    DistinctTypes(ts)
  }

  class BrowsePageState {
    var meals: seq<Meal>
    var loading: bool
    var error: Option<string>
    var search: string
    var typeFilter: TypeFilter
    var availableOnly: bool
    var sortBy: SortOption
    var selectedMeal: Option<Meal>
    var showOrderModal: bool

    constructor ()
      ensures meals == [] && loading && error.None?
      ensures search == "" && typeFilter == AllTypes && availableOnly && sortBy == Newest
      ensures selectedMeal.None? && !showOrderModal
    {
      meals := [];
      loading := true;
      error := None;
      search := "";
      typeFilter := AllTypes;
      availableOnly := true;
      sortBy := Newest;
      selectedMeal := None;
      showOrderModal := false;
    }

    /** `loadMeals`: the error is cleared first; without a user nothing is
        fetched; a fetch error is recorded and keeps the meals; otherwise the
        returned meals (or none) replace them. Loading ends false. */
    method LoadMeals(signedIn: bool, response: Api.Response<seq<Meal>>)
      modifies this
      ensures !loading
      ensures !signedIn ==> error.None? && meals == old(meals)
      ensures signedIn && response.error.Some? ==> error == response.error && meals == old(meals)
      ensures signedIn && response.error.None? ==> error.None? && meals == response.data.GetOr([])
      ensures search == old(search) && typeFilter == old(typeFilter) && availableOnly == old(availableOnly)
      ensures sortBy == old(sortBy) && selectedMeal == old(selectedMeal) && showOrderModal == old(showOrderModal)
    {
      loading := true;
      error := None;
      if !signedIn {
        loading := false;
        return;
      }
      if response.error.Some? {
        error := response.error;
      } else {
        meals := response.data.GetOr([]);
      }
      loading := false;
    }

    /** `handleMealClick`: a signed-in user opens the order modal on the meal. */
    method HandleMealClick(m: Meal, signedIn: bool)
      modifies this
      ensures signedIn ==> selectedMeal == Some(m) && showOrderModal
      ensures !signedIn ==> selectedMeal == old(selectedMeal) && showOrderModal == old(showOrderModal)
      ensures meals == old(meals) && loading == old(loading) && error == old(error)
      ensures search == old(search) && typeFilter == old(typeFilter) && availableOnly == old(availableOnly) && sortBy == old(sortBy)
    {
      if !signedIn {
        return;
      }
      selectedMeal := Some(m);
      showOrderModal := true;
    }

    /** A click on a card: a disabled card has no handler. */
    method ClickCard(m: Meal, signedIn: bool)
      modifies this
      ensures Disabled(m) || !signedIn ==> selectedMeal == old(selectedMeal) && showOrderModal == old(showOrderModal)
      ensures !Disabled(m) && signedIn ==> selectedMeal == Some(m) && showOrderModal
      ensures meals == old(meals) && loading == old(loading) && error == old(error)
      ensures search == old(search) && typeFilter == old(typeFilter) && availableOnly == old(availableOnly) && sortBy == old(sortBy)
    {
      if !Disabled(m) {
        HandleMealClick(m, signedIn);
      }
    }

    /** The reset button restores the default filters. */
    method Reset()
      modifies this
      ensures search == "" && typeFilter == AllTypes && availableOnly && sortBy == Newest
      ensures meals == old(meals) && loading == old(loading) && error == old(error)
      ensures selectedMeal == old(selectedMeal) && showOrderModal == old(showOrderModal)
    {
      search := "";
      typeFilter := AllTypes;
      availableOnly := true;
      sortBy := Newest;
    }

    /** After a reset only the available meals are shown, newest first. */
    lemma ResetShowsAvailableNewest()
      requires search == "" && typeFilter == AllTypes && availableOnly && sortBy == Newest
      ensures var r := FilteredMeals(meals, search, typeFilter, availableOnly, sortBy);
        Sorted(Newest, r) &&
        (forall i :: 0 <= i < |r| ==> !IsSoldOut(r[i])) &&
        (forall i :: 0 <= i < |meals| && !IsSoldOut(meals[i]) ==> meals[i] in r)
    {
      assert Query("") == "" by {
        assert IsBlank("");
        TrimEmptyIffBlank("");
      }
      assert forall m :: KeepMeal(true, AllTypes, "", m) <==> !IsSoldOut(m);
    }
  }
}
