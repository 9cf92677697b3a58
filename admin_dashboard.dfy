/**
 * The super-admin dashboard: the restaurant search box, the dish counts in the
 * statistics cards and in each table row, and the row's status badge. The
 * restaurants and dishes are fixed demonstration data in the page.
 */
module AdminDashboard {
  import opened Common
  import opened Seqs
  import opened Text
  import opened Schema

  /** A demonstration dish as the page holds it. */
  datatype DemoDish = DemoDish(id: string, name: string, restaurantId: string, isAvailable: bool)

  /**
   * The search predicate: the lowercased name includes the lowercased term,
   * or the restaurant has a cuisine whose lowercased form includes it.
   */
  predicate Matches(r: Restaurant, term: string) {
    Contains(Lower(r.name), Lower(term)) || (r.cuisine.Some? && Contains(Lower(r.cuisine.value), Lower(term)))
  }

  /** `filteredRestaurants`: the restaurants that match, in their original order. */
  function FilterRestaurants(restaurants: seq<Restaurant>, term: string): (r: seq<Restaurant>)
    ensures IsSubsequence(r, restaurants)
    ensures forall x :: x in r <==> x in restaurants && Matches(x, term)
  {
    Filter(restaurants, (x: Restaurant) => Matches(x, term))
  }

  /** An empty search box lists every restaurant. */
  lemma EmptyTermKeepsAll(restaurants: seq<Restaurant>)
    ensures FilterRestaurants(restaurants, "") == restaurants
  {
    forall i | 0 <= i < |restaurants|
      ensures Matches(restaurants[i], "")
    {
      ContainsEmpty(Lower(restaurants[i].name));
    }
    FilterAll(restaurants, (x: Restaurant) => Matches(x, ""));
  }

  /** The search ignores the case of the term. */
  lemma SearchIgnoresTermCase(restaurants: seq<Restaurant>, term: string)
    ensures FilterRestaurants(restaurants, Lower(term)) == FilterRestaurants(restaurants, term)
  {
    LowerIdempotent(term);
    FilterSame(restaurants, (x: Restaurant) => Matches(x, Lower(term)), (x: Restaurant) => Matches(x, term));
  }

  /** The number in a row's "Dishes" column: the dishes of that restaurant. */
  function DishCount(dishes: seq<DemoDish>, restaurantId: string): (n: nat)
    ensures n <= |dishes|
  {
    |Filter(dishes, (d: DemoDish) => d.restaurantId == restaurantId)|
  }

  /** One more dish raises exactly its own restaurant's count, by one. */
  lemma DishCountAppend(dishes: seq<DemoDish>, d: DemoDish, restaurantId: string)
    ensures DishCount(dishes + [d], restaurantId)
      == DishCount(dishes, restaurantId) + (if d.restaurantId == restaurantId then 1 else 0)
  {
    var p := (x: DemoDish) => x.restaurantId == restaurantId;
    FilterAppend(dishes, [d], p);
    assert [d][1..] == [];
  }

  /** The figures on the statistics cards. */
  datatype Stats = Stats(totalRestaurants: nat, activeRestaurants: nat, totalDishes: nat, activeDishes: nat)

  /**
   * Every restaurant is counted as active, whatever its flag; the active
   * dishes are the available ones.
   */
  function DashboardStats(restaurants: seq<Restaurant>, dishes: seq<DemoDish>): (s: Stats)
    ensures s.totalRestaurants == |restaurants| && s.activeRestaurants == |restaurants|
    ensures s.totalDishes == |dishes| && s.activeDishes <= s.totalDishes
    ensures s.activeDishes == |dishes| <==> forall i :: 0 <= i < |dishes| ==> dishes[i].isAvailable
  {
    var active := Filter(dishes, (d: DemoDish) => d.isAvailable);
    if forall i :: 0 <= i < |dishes| ==> dishes[i].isAvailable then
      FilterAll(dishes, (d: DemoDish) => d.isAvailable);
      Stats(|restaurants|, |restaurants|, |dishes|, |active|)
    else
      FilterDropsFailing(dishes, (d: DemoDish) => d.isAvailable);
      Stats(|restaurants|, |restaurants|, |dishes|, |active|)
  }

  /** When some element fails the predicate, the filter is strictly shorter. */
  lemma {:induction false} FilterDropsFailing<T>(s: seq<T>, p: T -> bool)
    requires exists i :: 0 <= i < |s| && !p(s[i])
    ensures |Filter(s, p)| < |s|
  {
    if p(s[0]) {
      var i :| 0 <= i < |s| && !p(s[i]);
      assert s[1..][i - 1] == s[i];
      FilterDropsFailing(s[1..], p);
    }
  }

  datatype Variant = Default | Secondary

  /** A status badge: its text and its style. */
  datatype Badge = Badge(text: string, variant: Variant)

  /**
   * The badge as the page draws it: the text reads "Active" unless the flag
   * is exactly false, but the style is the active one only when the flag is
   * set and true.
   */
  function StatusBadgeAsWritten(isEnabled: Option<bool>): (b: Badge)
    ensures b.text == "Active" <==> isEnabled != Some(false)
    ensures b.text == "Inactive" <==> isEnabled == Some(false)
    ensures b.variant == Default <==> isEnabled == Some(true)
  {
    Badge(if isEnabled != Some(false) then "Active" else "Inactive",
          if isEnabled == Some(true) then Default else Secondary)
  }

  /** A restaurant without the flag gets the text "Active" in the inactive style. */
  lemma UnsetFlagMixedBadge()
    ensures StatusBadgeAsWritten(None) == Badge("Active", Secondary)
    ensures StatusBadgeAsWritten(None).variant != StatusBadgeAsWritten(Some(true)).variant
  {
  }

  /** The badge with style and text decided by the same rule: an unset flag means enabled. */
  function StatusBadge(isEnabled: Option<bool>): (b: Badge)
    ensures b.text == "Active" <==> isEnabled != Some(false)
    ensures b.text == "Inactive" <==> isEnabled == Some(false)
    ensures b.variant == Default <==> b.text == "Active"
  {
    if isEnabled != Some(false) then Badge("Active", Default) else Badge("Inactive", Secondary)
  }

  /** The two agree on every restaurant whose flag is set. */
  lemma BadgeAgreesWhenSet(enabled: bool)
    ensures StatusBadge(Some(enabled)) == StatusBadgeAsWritten(Some(enabled))
  {
  }

  /** One row of the restaurants table. */
  datatype Row = Row(id: string, name: string, cuisine: string, dishCount: nat, badge: Badge)

  /**
   * A row as the page draws it: the cuisine shows "Various" when absent or
   * empty, and the badge is the page's own, so a restaurant without the flag
   * reads "Active" in the inactive style.
   */
  function RestaurantRow(r: Restaurant, dishes: seq<DemoDish>): (row: Row)
    ensures row.id == r.id && row.name == r.name
    ensures row.cuisine == (if Truthy(r.cuisine) then r.cuisine.value else "Various")
    ensures row.dishCount == DishCount(dishes, r.id)
    ensures row.badge.text == "Active" <==> r.isEnabled != Some(false)
    ensures row.badge.variant == Default <==> r.isEnabled == Some(true)
  {
    Row(r.id, r.name, if Truthy(r.cuisine) then r.cuisine.value else "Various",
        DishCount(dishes, r.id), StatusBadgeAsWritten(r.isEnabled))
  }

  /** The rows shown under the search box. */
  function Rows(restaurants: seq<Restaurant>, dishes: seq<DemoDish>, term: string): (rows: seq<Row>)
    ensures |rows| == |FilterRestaurants(restaurants, term)|
    ensures forall i :: 0 <= i < |rows| ==>
      rows[i] == RestaurantRow(FilterRestaurants(restaurants, term)[i], dishes)
  {
    var shown := FilterRestaurants(restaurants, term);
    seq(|shown|, i requires 0 <= i < |shown| => RestaurantRow(shown[i], dishes))
  }
}
