/**
 * The wishlist page: saved businesses filtered by a text query and a category select,
 * single and bulk removal, a checkbox selection and the summary stats. The sort select
 * is stored but never applied to the list.
 */
module Wishlist {
  import opened Wrappers
  import opened Text
  import opened Toasts
  import Seqs

  datatype WishlistItem = WishlistItem(
    id: string,
    name: string,
    category: string,
    ratingTenths: nat,
    reviewCount: nat,
    priceRange: string,
    address: string,
    distanceTenths: nat,
    isOpen: bool,
    openUntil: string,
    tags: seq<string>,
    isFavorited: bool,
    hasDelivery: bool,
    isPromoted: bool,
    addedDate: string,
    notes: string)

  /** The page's initial `mockWishlistItems`. */
  const MockWishlistItems: seq<WishlistItem> := [
    WishlistItem("1", "Sharma Ji Ka Dhaba", "Dhaba", 48, 1247, "\U{20B9}\U{20B9}", "Connaught Place, New Delhi", 8,
      true, "11:00 PM", ["Authentic", "Family-friendly", "Parking"], true, true, true,
      "2024-01-15", "Must try their butter chicken!"),
    WishlistItem("2", "Chai Tapri", "Cafe", 46, 892, "\U{20B9}", "Karol Bagh, New Delhi", 12,
      true, "12:00 AM", ["Late Night", "Budget-friendly", "Outdoor Seating"], true, false, false,
      "2024-01-20", "Perfect for late night study sessions"),
    WishlistItem("3", "Gold's Gym", "Gym", 44, 567, "\U{20B9}\U{20B9}\U{20B9}", "Rajouri Garden, New Delhi", 21,
      true, "10:00 PM", ["Modern Equipment", "Personal Training", "AC"], true, false, false,
      "2024-01-25", "Great equipment and trainers")
  ]

  /** The category select's option values. */
  const CategoryOptions: seq<string> := ["all", "dhaba", "cafe", "gym", "salon", "shopping"]

  // ---------------------------------------------------------------------------
  // The filtered list

  /** The text test; unlike the search page there is no special case for an empty query. */
  predicate MatchesSearch(item: WishlistItem, query: string) {
    || ContainsIgnoreCase(item.name, query)
    || ContainsIgnoreCase(item.category, query)
    || exists t :: t in item.tags && ContainsIgnoreCase(t, query)
  }

  predicate MatchesCategory(item: WishlistItem, filterCategory: string) {
    filterCategory == "all" || Lower(item.category) == Lower(filterCategory)
  }

  function Matches(query: string, filterCategory: string): WishlistItem -> bool {
    (item: WishlistItem) => MatchesSearch(item, query) && MatchesCategory(item, filterCategory)
  }

  /** `filteredItems`: exactly the matching items, in wishlist order. */
  function FilteredItems(items: seq<WishlistItem>, query: string, filterCategory: string): (r: seq<WishlistItem>)
    ensures forall i :: 0 <= i < |r| ==>
              r[i] in items && MatchesSearch(r[i], query) && MatchesCategory(r[i], filterCategory)
    ensures forall i :: 0 <= i < |items| && MatchesSearch(items[i], query) && MatchesCategory(items[i], filterCategory) ==>
              items[i] in r
    ensures Seqs.IsSubsequence(r, items)
    ensures forall x :: multiset(r)[x] == if MatchesSearch(x, query) && MatchesCategory(x, filterCategory) then multiset(items)[x] else 0
  {
    Seqs.FilterIsSubsequence(items, Matches(query, filterCategory));
    Seqs.FilterMultiset(items, Matches(query, filterCategory));
    Seqs.Filter(items, Matches(query, filterCategory))
  }

  /** Every string contains the empty one, so an empty query matches every item. */
  lemma EmptyQueryMatchesAll(items: seq<WishlistItem>)
    ensures FilteredItems(items, "", "all") == items
  {
    forall i | 0 <= i < |items| ensures MatchesSearch(items[i], "") {
      ContainsEmpty(Lower(items[i].name));
    }
  }

  // ---------------------------------------------------------------------------
  // Removing items

  function NotId(id: string): WishlistItem -> bool {
    (item: WishlistItem) => item.id != id
  }

  /** `removeFromWishlist(id)`'s update: that id goes, the other items keep their order. */
  function WithoutItem(items: seq<WishlistItem>, id: string): (r: seq<WishlistItem>)
    ensures forall i :: 0 <= i < |r| ==> r[i].id != id && r[i] in items
    ensures forall i :: 0 <= i < |items| && items[i].id != id ==> items[i] in r
    ensures Seqs.IsSubsequence(r, items)
    ensures forall x :: multiset(r)[x] == if x.id != id then multiset(items)[x] else 0
    ensures (forall i :: 0 <= i < |items| ==> items[i].id != id) ==> r == items
  {
    Seqs.FilterIsSubsequence(items, NotId(id));
    Seqs.FilterMultiset(items, NotId(id));
    Seqs.Filter(items, NotId(id))
  }

  function NotSelected(selected: seq<string>): WishlistItem -> bool {
    (item: WishlistItem) => item.id !in selected
  }

  /** `removeSelectedItems`'s update: every selected id goes, the rest keep their order. */
  function WithoutSelected(items: seq<WishlistItem>, selected: seq<string>): (r: seq<WishlistItem>)
    ensures forall i :: 0 <= i < |r| ==> r[i].id !in selected && r[i] in items
    ensures forall i :: 0 <= i < |items| && items[i].id !in selected ==> items[i] in r
    ensures Seqs.IsSubsequence(r, items)
    ensures forall x :: multiset(r)[x] == if x.id !in selected then multiset(items)[x] else 0
    ensures selected == [] ==> r == items
  {
    Seqs.FilterIsSubsequence(items, NotSelected(selected));
    Seqs.FilterMultiset(items, NotSelected(selected));
    Seqs.Filter(items, NotSelected(selected))
  }

  /** Removing a selection of ids is removing them one after the other. */
  lemma WithoutSelectedStepwise(items: seq<WishlistItem>, selected: seq<string>, id: string)
    ensures WithoutSelected(items, selected + [id]) == WithoutItem(WithoutSelected(items, selected), id)
  {
    Seqs.FilterFilter(items, NotSelected(selected), NotId(id), NotSelected(selected + [id]));
  }

  // ---------------------------------------------------------------------------
  // Stats

  /** The distinct category strings, `new Set(items.map((item) => item.category))`. */
  function CategorySet(items: seq<WishlistItem>): set<string> {
    set i | 0 <= i < |items| :: items[i].category
  }

  /** The "Categories" stat: never more than the number of items, and 0 only for an empty list. */
  lemma {:induction false} CategoriesStatBounds(items: seq<WishlistItem>)
    ensures |CategorySet(items)| <= |items|
    ensures |CategorySet(items)| == 0 <==> items == []
    decreases |items|
  {
    if items != [] {
      CategoriesStatBounds(items[1..]);
      assert CategorySet(items) == {items[0].category} + CategorySet(items[1..]) by {
        forall c ensures c in CategorySet(items) <==> c in {items[0].category} + CategorySet(items[1..]) {
          if c in CategorySet(items) {
            var i :| 0 <= i < |items| && items[i].category == c;
            if i > 0 {
              assert items[1..][i - 1].category == c;
            }
          }
          if c in CategorySet(items[1..]) {
            var i :| 0 <= i < |items[1..]| && items[1..][i].category == c;
            assert items[i + 1].category == c;
          }
        }
      }
      assert items[0].category in CategorySet(items);
    }
  }

  function IsOpen(item: WishlistItem): bool {
    item.isOpen
  }

  /** The "Open Now" stat: how many items are open; all of them exactly when every item is open. */
  function OpenCount(items: seq<WishlistItem>): (n: nat)
    ensures n <= |items|
    ensures n == |items| <==> forall i :: 0 <= i < |items| ==> items[i].isOpen
    ensures n == |set i | 0 <= i < |items| && items[i].isOpen|
  {
    var r := Seqs.Filter(items, IsOpen);
    assert |r| == |set i | 0 <= i < |items| && items[i].isOpen| by {
      Seqs.FilterCountsIndices(items, IsOpen);
      assert Seqs.PassingIndices(items, IsOpen, |items|) == set i | 0 <= i < |items| && items[i].isOpen;
    }
    Seqs.FilterMultiplicityAll(items, IsOpen);
    assert |r| == |items| ==> forall i :: 0 <= i < |items| ==> items[i].isOpen by {
      if |r| == |items| {
        forall i | 0 <= i < |items| ensures items[i].isOpen {
          assert r[i] == items[i];
        }
      }
    }
    |r|
  }

  const RemovedToast: ToastRequest :=
    ToastRequest("Removed from Wishlist", Some("Business removed from your wishlist"), Some(Success), None)

  /** The bulk-removal toast: "<n> items removed from wishlist". */
  function ItemsRemovedToast(n: nat): ToastRequest {
    ToastRequest("Items Removed", Some(NatToString(n) + " items removed from wishlist"), Some(Success), None)
  }

  // ---------------------------------------------------------------------------
  // Page state

  class WishlistPage {
    var wishlistItems: seq<WishlistItem>
    var gridView: bool
    var sortBy: string
    var filterCategory: string
    var searchQuery: string
    var selectedItems: seq<string>

    constructor ()
      ensures wishlistItems == MockWishlistItems && gridView && sortBy == "recent"
      ensures filterCategory == "all" && searchQuery == "" && selectedItems == []
    {
      wishlistItems := MockWishlistItems;
      gridView := true;
      sortBy := "recent";
      filterCategory := "all";
      searchQuery := "";
      selectedItems := [];
    }

    /** The cards the page shows: the filtered items in wishlist order, whatever `sortBy` is. */
    function Displayed(): seq<WishlistItem>
      reads this
    {
      FilteredItems(wishlistItems, searchQuery, filterCategory)
    }

    method RemoveFromWishlist(toasts: ToastProvider, toastId: string, id: string)
      modifies this`wishlistItems, toasts
      ensures wishlistItems == WithoutItem(old(wishlistItems), id)
      ensures toasts.toasts == old(toasts.toasts) + [WithId(RemovedToast, toastId)]
    {
      wishlistItems := WithoutItem(wishlistItems, id);
      toasts.Toast(RemovedToast, toastId);
    }

    /** `removeSelectedItems`: the toast counts the selection as it was before it is cleared. */
    method RemoveSelectedItems(toasts: ToastProvider, toastId: string)
      modifies this`wishlistItems, this`selectedItems, toasts
      ensures wishlistItems == WithoutSelected(old(wishlistItems), old(selectedItems))
      ensures selectedItems == []
      ensures toasts.toasts == old(toasts.toasts) + [WithId(ItemsRemovedToast(|old(selectedItems)|), toastId)]
    {
      var count := |selectedItems|;
      wishlistItems := WithoutSelected(wishlistItems, selectedItems);
      selectedItems := [];
      toasts.Toast(ItemsRemovedToast(count), toastId);
    }

    method SetChecked(id: string, checked: bool)
      modifies this`selectedItems
      ensures selectedItems == Seqs.Checked(old(selectedItems), id, checked)
    {
      selectedItems := Seqs.Checked(selectedItems, id, checked);
    }

    method SetSearchQuery(q: string)
      modifies this`searchQuery
      ensures searchQuery == q
    {
      searchQuery := q;
    }

    method SetFilterCategory(c: string)
      modifies this`filterCategory
      ensures filterCategory == c
    {
      filterCategory := c;
    }

    /** The sort select only records its value: the displayed list does not change. */
    method SetSortBy(option: string)
      modifies this`sortBy
      ensures sortBy == option
      ensures Displayed() == old(Displayed())
    {
      sortBy := option;
    }

    /** The empty state's "Clear Filters": with no query and "all", every saved item is shown. */
    method ClearFilters()
      modifies this`searchQuery, this`filterCategory
      ensures searchQuery == "" && filterCategory == "all"
      ensures Displayed() == wishlistItems
    {
      searchQuery := "";
      filterCategory := "all";
      EmptyQueryMatchesAll(wishlistItems);
    }
  }
}
