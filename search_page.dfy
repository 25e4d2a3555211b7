/**
 * The business search page: a text/category/price/rating filter over the mock
 * businesses, then a sort chosen by `sortBy`; the URL's `category` parameter
 * preselects a category. Ratings and distances are integer tenths
 * (4.8 stars is 48, "0.8 km" is 8).
 */
module Search {
  import opened Wrappers
  import opened Text
  import Seqs

  datatype Business = Business(
    id: string,
    name: string,
    category: string,
    ratingTenths: nat,
    reviewCount: nat,
    priceRange: string,
    address: string,
    distanceTenths: nat,
    isOpen: bool,
    openUntil: string,
    tags: seq<string>,
    isFavorited: bool,
    hasDelivery: bool,
    isPromoted: bool)

  /** The page's mock data `allBusinesses`. */
  const AllBusinesses: seq<Business> := [
    Business("1", "Sharma Ji Ka Dhaba", "Restaurants", 48, 1247, "\U{20B9}\U{20B9}", "Connaught Place, New Delhi", 8,
      true, "11:00 PM", ["Authentic", "Family-friendly", "Parking"], false, true, true),
    Business("2", "Chai Tapri", "Cafes", 46, 892, "\U{20B9}", "Karol Bagh, New Delhi", 12,
      true, "12:00 AM", ["Late Night", "Budget-friendly", "Outdoor Seating"], true, false, false),
    Business("3", "Gold's Gym", "Gyms", 44, 567, "\U{20B9}\U{20B9}\U{20B9}", "Rajouri Garden, New Delhi", 21,
      true, "10:00 PM", ["Modern Equipment", "Personal Training", "AC"], false, false, false),
    Business("4", "Punjabi Dhaba Express", "Restaurants", 42, 324, "\U{20B9}\U{20B9}", "Lajpat Nagar, New Delhi", 18,
      false, "Opens at 11:00 AM", ["Punjabi", "Vegetarian", "Home Delivery"], false, true, false),
    Business("5", "Coffee Bean Cafe", "Cafes", 47, 445, "\U{20B9}\U{20B9}", "Khan Market, New Delhi", 5,
      true, "9:00 PM", ["WiFi", "Study Friendly", "Artisan Coffee"], false, false, true),
    Business("6", "Fitness First", "Gyms", 41, 234, "\U{20B9}\U{20B9}", "Saket, New Delhi", 32,
      true, "11:00 PM", ["Group Classes", "Swimming Pool", "Spa"], true, false, false),
    Business("7", "Looks Salon", "Salons", 45, 678, "\U{20B9}\U{20B9}\U{20B9}", "Greater Kailash, New Delhi", 25,
      true, "8:00 PM", ["Unisex", "Bridal Services", "Premium"], false, false, false),
    Business("8", "Auto Care Center", "Auto Service", 43, 156, "\U{20B9}\U{20B9}", "Mayur Vihar, New Delhi", 41,
      true, "7:00 PM", ["Multi-brand", "Quick Service", "Warranty"], false, false, false)
  ]

  /** The sidebar's category labels. */
  const Categories: seq<string> := ["All", "Restaurants", "Cafes", "Gyms", "Salons", "Auto Service", "Shopping"]
  const PriceRanges: seq<string> := ["All", "\U{20B9}", "\U{20B9}\U{20B9}", "\U{20B9}\U{20B9}\U{20B9}"]
  const Ratings: seq<string> := ["All", "4.5+", "4.0+", "3.5+"]
  /** The sort options that reorder the list; "relevance" (and any other value) keeps filter order. */
  const SortingOptions: seq<string> := ["rating", "distance", "reviews"]

  // ---------------------------------------------------------------------------
  // Filtering

  /** The filter selections the result depends on; the location box is not one of them. */
  datatype Filters = Filters(query: string, category: string, priceRange: string, rating: string)

  predicate IsDigit(c: char) {
    '0' <= c <= '9'
  }

  /**
   * `parseFloat(label.replace("+", ""))` in tenths, for labels of the form "d.d+", the form of
   * every rating label the page offers other than "All". None marks any other string; the
   * model parses no other shape and applies no bound for it.
   */
  function MinRatingTenths(s: string): (r: Option<nat>)
    ensures r.Some? <==> |s| == 4 && IsDigit(s[0]) && s[1] == '.' && IsDigit(s[2]) && s[3] == '+'
    ensures r.Some? ==> r.value / 10 == s[0] as int - '0' as int && r.value % 10 == s[2] as int - '0' as int
    ensures r.Some? ==> r.value < 100
  {
    if |s| == 4 && IsDigit(s[0]) && s[1] == '.' && IsDigit(s[2]) && s[3] == '+' then
      Some(10 * (s[0] as int - '0' as int) + (s[2] as int - '0' as int))
    else
      None
  }

  /** The three rating labels the page offers parse to 4.5, 4.0 and 3.5. */
  lemma RatingLabelsParse()
    ensures MinRatingTenths("4.5+") == Some(45)
    ensures MinRatingTenths("4.0+") == Some(40)
    ensures MinRatingTenths("3.5+") == Some(35)
    ensures MinRatingTenths("All") == None
  {
  }

  /** Some tag of `b` contains the query, ignoring case. */
  predicate SomeTagMatches(b: Business, query: string) {
    exists t :: t in b.tags && ContainsIgnoreCase(t, query)
  }

  /** The text filter: an empty query passes; otherwise name, category or a tag must contain it. */
  predicate MatchesQuery(b: Business, query: string) {
    query == "" || ContainsIgnoreCase(b.name, query) || ContainsIgnoreCase(b.category, query) || SomeTagMatches(b, query)
  }

  predicate MatchesRating(b: Business, rating: string) {
    rating == "All" || MinRatingTenths(rating).None? || b.ratingTenths >= MinRatingTenths(rating).value
  }

  /** The `filter` callback: every test must pass. */
  predicate PassesFilters(b: Business, f: Filters) {
    && MatchesQuery(b, f.query)
    && (f.category == "All" || b.category == f.category)
    && (f.priceRange == "All" || b.priceRange == f.priceRange)
    && MatchesRating(b, f.rating)
  }

  function Passes(f: Filters): Business -> bool {
    (b: Business) => PassesFilters(b, f)
  }

  /** `allBusinesses.filter(...)`: exactly the passing businesses, in their original order. */
  function Filtered(bs: seq<Business>, f: Filters): (r: seq<Business>)
    ensures forall i :: 0 <= i < |r| ==> r[i] in bs && PassesFilters(r[i], f)
    ensures forall i :: 0 <= i < |bs| && PassesFilters(bs[i], f) ==> bs[i] in r
    ensures Seqs.IsSubsequence(r, bs)
    ensures forall x :: multiset(r)[x] == if PassesFilters(x, f) then multiset(bs)[x] else 0
  {
    Seqs.FilterIsSubsequence(bs, Passes(f));
    Seqs.FilterMultiset(bs, Passes(f));
    Seqs.Filter(bs, Passes(f))
  }

  /** With no query and every selection "All", nothing is filtered out. */
  lemma NoFilterKeepsAll(bs: seq<Business>)
    ensures Filtered(bs, Filters("", "All", "All", "All")) == bs
  {
  }

  // ---------------------------------------------------------------------------
  // Sorting

  /**
   * The comparator of `sortBy` as a key: a smaller key sorts first. Ratings and review
   * counts are negated because the source sorts them high to low.
   */
  function SortKey(b: Business, sortBy: string): int {
    if sortBy == "rating" then -(b.ratingTenths as int)
    else if sortBy == "distance" then b.distanceTenths as int
    else if sortBy == "reviews" then -(b.reviewCount as int)
    else 0
  }

  predicate SortedBy(bs: seq<Business>, sortBy: string) {
    forall i, j :: 0 <= i < j < |bs| ==> SortKey(bs[i], sortBy) <= SortKey(bs[j], sortBy)
  }

  function HasKey(sortBy: string, k: int): Business -> bool {
    (b: Business) => SortKey(b, sortBy) == k
  }

  /** Places `x` after every element whose key is not larger than its own. */
  function Insert(s: seq<Business>, x: Business, sortBy: string): (r: seq<Business>)
    ensures multiset(r) == multiset(s) + multiset{x}
    ensures forall y :: y in r ==> y in s || y == x
    decreases |s|
  {
    if s == [] || SortKey(s[|s| - 1], sortBy) <= SortKey(x, sortBy) then
      s + [x]
    else
      var front, last := s[..|s| - 1], s[|s| - 1];
      assert s == front + [last];
      Insert(front, x, sortBy) + [last]
  }

  /** Inserting into a sorted list leaves it sorted. */
  lemma {:induction false} InsertSorted(s: seq<Business>, x: Business, sortBy: string)
    requires SortedBy(s, sortBy)
    ensures SortedBy(Insert(s, x, sortBy), sortBy)
    decreases |s|
  {
    if !(s == [] || SortKey(s[|s| - 1], sortBy) <= SortKey(x, sortBy)) {
      var front, last := s[..|s| - 1], s[|s| - 1];
      InsertSorted(front, x, sortBy);
      var r0 := Insert(front, x, sortBy);
      assert forall y :: y in front ==> SortKey(y, sortBy) <= SortKey(last, sortBy);
      assert forall i :: 0 <= i < |r0| ==> SortKey(r0[i], sortBy) <= SortKey(last, sortBy) by {
        forall i | 0 <= i < |r0| ensures SortKey(r0[i], sortBy) <= SortKey(last, sortBy) {
          assert r0[i] in r0;
        }
      }
      assert Insert(s, x, sortBy) == r0 + [last];
    }
  }

  /** A stable sort by `SortKey` (ECMAScript requires `Array.prototype.sort` to be stable). */
  function InsertionSort(s: seq<Business>, sortBy: string): (r: seq<Business>)
    ensures multiset(r) == multiset(s)
    ensures SortedBy(r, sortBy)
    decreases |s|
  {
    if s == [] then []
    else
      var front, last := s[..|s| - 1], s[|s| - 1];
      assert s == front + [last];
      InsertSorted(InsertionSort(front, sortBy), last, sortBy);
      Insert(InsertionSort(front, sortBy), last, sortBy)
  }

  /** Inserting keeps, for every key, the elements with that key in arrival order. */
  lemma {:induction false} InsertStable(s: seq<Business>, x: Business, sortBy: string, k: int)
    ensures Seqs.Filter(Insert(s, x, sortBy), HasKey(sortBy, k))
         == Seqs.Filter(s, HasKey(sortBy, k)) + Seqs.Filter([x], HasKey(sortBy, k))
    decreases |s|
  {
    var p := HasKey(sortBy, k);
    if s == [] || SortKey(s[|s| - 1], sortBy) <= SortKey(x, sortBy) {
      Seqs.FilterAppend(s, [x], p);
    } else {
      var front, last := s[..|s| - 1], s[|s| - 1];
      assert s == front + [last];
      var r0 := Insert(front, x, sortBy);
      assert Insert(s, x, sortBy) == r0 + [last];
      InsertStable(front, x, sortBy, k);
      Seqs.FilterSwapLast(r0, front, x, last, p);
    }
  }

  lemma {:induction false} InsertionSortStable(s: seq<Business>, sortBy: string, k: int)
    ensures Seqs.Filter(InsertionSort(s, sortBy), HasKey(sortBy, k)) == Seqs.Filter(s, HasKey(sortBy, k))
    decreases |s|
  {
    if s != [] {
      var front, last := s[..|s| - 1], s[|s| - 1];
      assert s == front + [last];
      InsertionSortStable(front, sortBy, k);
      InsertStable(InsertionSort(front, sortBy), last, sortBy, k);
      Seqs.FilterAppend(front, [last], HasKey(sortBy, k));
    }
  }

  /**
   * The `switch (sortBy)`: the three sort options sort stably, any other value keeps the order;
   * either way the list is a permutation of `bs`.
   */
  function SortResults(bs: seq<Business>, sortBy: string): (r: seq<Business>)
    ensures multiset(r) == multiset(bs)
    ensures sortBy == "rating" ==> forall i, j :: 0 <= i < j < |r| ==> r[i].ratingTenths >= r[j].ratingTenths
    ensures sortBy == "reviews" ==> forall i, j :: 0 <= i < j < |r| ==> r[i].reviewCount >= r[j].reviewCount
    ensures sortBy == "distance" ==> forall i, j :: 0 <= i < j < |r| ==> r[i].distanceTenths <= r[j].distanceTenths
    ensures forall k :: Seqs.Filter(r, HasKey(sortBy, k)) == Seqs.Filter(bs, HasKey(sortBy, k))
    ensures sortBy !in SortingOptions ==> r == bs
  {
    var r := if sortBy in SortingOptions then InsertionSort(bs, sortBy) else bs;
    assert sortBy in SortingOptions ==> SortedBy(r, sortBy);
    forall k ensures Seqs.Filter(r, HasKey(sortBy, k)) == Seqs.Filter(bs, HasKey(sortBy, k)) {
      if sortBy in SortingOptions {
        InsertionSortStable(bs, sortBy, k);
      }
    }
    r
  }

  /**
   * The memoised result list: a permutation of the filtered businesses, ordered as
   * `sortBy` asks, with ties (and the "relevance" option) in filter order.
   */
  function SearchResults(f: Filters, sortBy: string): (r: seq<Business>)
    ensures multiset(r) == multiset(Filtered(AllBusinesses, f))
    ensures sortBy == "rating" ==> forall i, j :: 0 <= i < j < |r| ==> r[i].ratingTenths >= r[j].ratingTenths
    ensures sortBy == "reviews" ==> forall i, j :: 0 <= i < j < |r| ==> r[i].reviewCount >= r[j].reviewCount
    ensures sortBy == "distance" ==> forall i, j :: 0 <= i < j < |r| ==> r[i].distanceTenths <= r[j].distanceTenths
    ensures forall k :: Seqs.Filter(r, HasKey(sortBy, k)) == Seqs.Filter(Filtered(AllBusinesses, f), HasKey(sortBy, k))
    ensures sortBy !in SortingOptions ==> r == Filtered(AllBusinesses, f)
  {
    SortResults(Filtered(AllBusinesses, f), sortBy)
  }

  /** A sidebar count: the businesses whose category is exactly that label, whatever else is selected. */
  function CategoryCount(name: string): nat {
    |Seqs.Filter(AllBusinesses, (b: Business) => name == "All" || b.category == name)|
  }

  /** Each sidebar count is the length of the list that choosing that label alone would show. */
  lemma CategoryCountMatchesFilter(name: string)
    ensures CategoryCount(name) == |Filtered(AllBusinesses, Filters("", name, "All", "All"))|
  {
    Seqs.FilterCongruent(AllBusinesses, (b: Business) => name == "All" || b.category == name,
      Passes(Filters("", name, "All", "All")));
  }

  // ---------------------------------------------------------------------------
  // The category URL parameter

  /**
   * The URL rewrite as written: upper-case only the first character, so a parameter's
   * later characters keep the case they have in the URL.
   */
  function UrlCategoryAsWritten(param: string): (c: string)
    ensures |c| == |param|
    ensures param != "" ==> c[0] == UpperChar(param[0])
    ensures forall i :: 0 < i < |param| ==> c[i] == param[i]
  {
    UpperFirst(param)
  }

  /** The first label whose lower-case form is `lowered`. */
  function FindLabel(labels: seq<string>, lowered: string): (r: Option<string>)
    ensures r.Some? ==> r.value in labels && Lower(r.value) == lowered
    ensures r.None? ==> forall i :: 0 <= i < |labels| ==> Lower(labels[i]) != lowered
    ensures r.Some? && labels != [] && Lower(labels[0]) == lowered ==> r.value == labels[0]
  {
    if labels == [] then None
    else if Lower(labels[0]) == lowered then Some(labels[0])
    else FindLabel(labels[1..], lowered)
  }

  /**
   * The URL rewrite as evidently intended: the sidebar label that matches the parameter
   * ignoring case, falling back to the as-written rewrite for other values.
   */
  function CategoryFromParam(param: string): (c: string)
    ensures (exists i :: 0 <= i < |Categories| && Lower(Categories[i]) == Lower(param)) ==>
              c in Categories && Lower(c) == Lower(param)
    ensures (forall i :: 0 <= i < |Categories| ==> Lower(Categories[i]) != Lower(param)) ==>
              c == UrlCategoryAsWritten(param)
  {
    match FindLabel(Categories, Lower(param))
    case Some(l) => l
    case None => UrlCategoryAsWritten(param)
  }

  /** No two sidebar labels differ only in case (their lengths already differ). */
  lemma CategoriesDistinctIgnoringCase()
    ensures forall i, j :: 0 <= i < j < |Categories| ==> Lower(Categories[i]) != Lower(Categories[j])
  {
    assert forall i :: 0 <= i < |Categories| ==> |Lower(Categories[i])| == |Categories[i]|;
  }

  /** Any sidebar label, lower-cased into a URL, comes back as that label. */
  lemma {:induction false} CategoryParamRoundTrip(i: nat)
    requires i < |Categories|
    ensures CategoryFromParam(Lower(Categories[i])) == Categories[i]
  {
    var c := Categories[i];
    LowerIdempotent(c);
    CategoriesDistinctIgnoringCase();
    FindLabelFirst(Categories, i, Lower(c));
  }

  lemma {:induction false} FindLabelFirst(labels: seq<string>, i: nat, lowered: string)
    requires i < |labels| && Lower(labels[i]) == lowered
    requires forall j :: 0 <= j < i ==> Lower(labels[j]) != lowered
    ensures FindLabel(labels, lowered) == Some(labels[i])
    decreases i
  {
    if i > 0 {
      FindLabelFirst(labels[1..], i - 1, lowered);
    }
  }

  /** The categories of the mock businesses, in list order. */
  lemma BusinessCategories()
    ensures |AllBusinesses| == 8
    ensures AllBusinesses[0].category == "Restaurants" && AllBusinesses[1].category == "Cafes"
    ensures AllBusinesses[2].category == "Gyms" && AllBusinesses[3].category == "Restaurants"
    ensures AllBusinesses[4].category == "Cafes" && AllBusinesses[5].category == "Gyms"
    ensures AllBusinesses[6].category == "Salons" && AllBusinesses[7].category == "Auto Service"
  {
  }

  /** Selecting a category no business has (and nothing else) lists nothing. */
  lemma UnknownCategoryListsNothing(c: string)
    requires c != "All" && forall i :: 0 <= i < |AllBusinesses| ==> AllBusinesses[i].category != c
    ensures Filtered(AllBusinesses, Filters("", c, "All", "All")) == []
  {
    var g := Passes(Filters("", c, "All", "All"));
    assert forall i :: 0 <= i < |AllBusinesses| ==> !g(AllBusinesses[i]);
  }

  /** Selecting the category only the last business has lists exactly that business. */
  lemma LastOnlyCategoryListsIt(c: string)
    requires c != "All" && AllBusinesses[7].category == c
    requires forall i :: 0 <= i < 7 ==> AllBusinesses[i].category != c
    ensures Filtered(AllBusinesses, Filters("", c, "All", "All")) == [AllBusinesses[7]]
  {
    var g := Passes(Filters("", c, "All", "All"));
    assert |AllBusinesses| == 8;
    assert g(AllBusinesses[7]);
    Seqs.FilterOnlyLast(AllBusinesses, g);
  }

  lemma NoBusinessInAutoservice()
    ensures forall i :: 0 <= i < |AllBusinesses| ==> AllBusinesses[i].category != "Auto service"
  {
    BusinessCategories();
    var c := "Auto service";
    assert |c| == 12 && c[5] == 's';
    forall i | 0 <= i < |AllBusinesses| ensures AllBusinesses[i].category != c {
      var d := AllBusinesses[i].category;
      assert |d| != 12 || d[5] == 'S';
    }
  }

  lemma AutoServiceRewrite()
    ensures UrlCategoryAsWritten("auto service") == "Auto service"
  {
    var p := "auto service";
    assert UpperChar(p[0]) == 'A';
    assert [UpperChar(p[0])] + p[1..] == "Auto service";
  }

  /**
   * As written, the link "/search?category=auto service" selects "Auto service", which
   * no business has: the page lists nothing although one "Auto Service" business exists.
   */
  lemma AutoServiceLinkFindsNothing()
    ensures UrlCategoryAsWritten("auto service") == "Auto service"
    ensures Filtered(AllBusinesses, Filters("", "Auto service", "All", "All")) == []
    ensures CategoryCount("Auto Service") == 1
  {
    AutoServiceRewrite();
    NoBusinessInAutoservice();
    UnknownCategoryListsNothing("Auto service");
    AutoServiceCount();
  }

  /** The sidebar shows 1 next to "Auto Service". */
  lemma AutoServiceCount()
    ensures CategoryCount("Auto Service") == 1
  {
    AutoServiceOnlyLast();
    LastOnlyCategoryListsIt("Auto Service");
    CategoryCountMatchesFilter("Auto Service");
  }

  lemma AutoServiceOnlyLast()
    ensures AllBusinesses[7].category == "Auto Service"
    ensures forall i :: 0 <= i < 7 ==> AllBusinesses[i].category != "Auto Service"
  {
    BusinessCategories();
    forall i | 0 <= i < 7 ensures AllBusinesses[i].category != "Auto Service" {
      assert |AllBusinesses[i].category| != 12;
    }
  }

  lemma LowerAutoService()
    ensures Lower("Auto Service") == "auto service"
  {
    var s := "Auto Service";
    assert LowerChar(s[0]) == 'a' && LowerChar(s[5]) == 's';
    assert forall i :: 0 <= i < |s| && i != 0 && i != 5 ==> LowerChar(s[i]) == s[i];
  }

  /** With the corrected rewrite the same link lists the "Auto Service" business. */
  lemma AutoServiceLinkCorrected()
    ensures CategoryFromParam("auto service") == "Auto Service"
    ensures Filtered(AllBusinesses, Filters("", CategoryFromParam("auto service"), "All", "All")) == [AllBusinesses[7]]
  {
    LowerAutoService();
    assert Categories[5] == "Auto Service";
    CategoryParamRoundTrip(5);
    AutoServiceOnlyLast();
    LastOnlyCategoryListsIt("Auto Service");
  }

  /** With no query and no selection, the page lists every business (in some order). */
  lemma ClearedListsAll(sortBy: string)
    ensures multiset(SearchResults(Filters("", "All", "All", "All"), sortBy)) == multiset(AllBusinesses)
  {
    NoFilterKeepsAll(AllBusinesses);
  }

  // ---------------------------------------------------------------------------
  // Page state

  /** The search page's selections. */
  class SearchPage {
    var searchQuery: string
    var locationQuery: string
    var selectedCategory: string
    var selectedPriceRange: string
    var selectedRating: string
    var sortBy: string
    var gridView: bool
    var showFilters: bool

    function CurrentFilters(): Filters
      reads this
    {
      Filters(searchQuery, selectedCategory, selectedPriceRange, selectedRating)
    }

    /** The list the page shows. */
    function Results(): seq<Business>
      reads this
    {
      SearchResults(CurrentFilters(), sortBy)
    }

    /** Initial state from the URL's `q`, `location` and `category` parameters (`|| ""`, `|| "All"`). */
    constructor (q: Option<string>, location: Option<string>, category: Option<string>)
      ensures searchQuery == q.GetOr("") && locationQuery == location.GetOr("")
      ensures selectedCategory == (if category.Some? && category.value != "" then category.value else "All")
      ensures selectedPriceRange == "All" && selectedRating == "All" && sortBy == "relevance"
      ensures gridView && !showFilters
    {
      searchQuery := q.GetOr("");
      locationQuery := location.GetOr("");
      selectedCategory := if category.Some? && category.value != "" then category.value else "All";
      selectedPriceRange := "All";
      selectedRating := "All";
      sortBy := "relevance";
      gridView := true;
      showFilters := false;
    }

    /**
     * The effect on the URL's `category`: a non-empty parameter selects the as-written
     * rewrite of it (see `AutoServiceLinkFindsNothing` for what that misses).
     */
    method ApplyUrlCategory(category: Option<string>)
      modifies this
      ensures category.Some? && category.value != "" ==> selectedCategory == UrlCategoryAsWritten(category.value)
      ensures !(category.Some? && category.value != "") ==> selectedCategory == old(selectedCategory)
      ensures searchQuery == old(searchQuery) && locationQuery == old(locationQuery)
      ensures selectedPriceRange == old(selectedPriceRange) && selectedRating == old(selectedRating)
      ensures sortBy == old(sortBy) && gridView == old(gridView) && showFilters == old(showFilters)
    {
      if category.Some? && category.value != "" {
        selectedCategory := UrlCategoryAsWritten(category.value);
      }
    }

    method SetSearchQuery(q: string)
      modifies this`searchQuery
      ensures searchQuery == q
    {
      searchQuery := q;
    }

    /** Typing a location changes nothing the page lists. */
    method SetLocationQuery(location: string)
      modifies this`locationQuery
      ensures locationQuery == location
      ensures Results() == old(Results())
    {
      locationQuery := location;
    }

    method SelectCategory(category: string)
      modifies this`selectedCategory
      ensures selectedCategory == category
    {
      selectedCategory := category;
    }

    method SelectPriceRange(range: string)
      modifies this`selectedPriceRange
      ensures selectedPriceRange == range
    {
      selectedPriceRange := range;
    }

    /** A click on one of the rating buttons, which offer exactly the `Ratings` labels. */
    method SelectRating(rating: string)
      requires rating in Ratings
      modifies this`selectedRating
      ensures selectedRating == rating
    {
      selectedRating := rating;
    }

    method SetSortBy(option: string)
      modifies this`sortBy
      ensures sortBy == option
    {
      sortBy := option;
    }

    /** "Clear All": the three sidebar selections go back to "All"; the query stays. */
    method ClearAll()
      modifies this`selectedCategory, this`selectedPriceRange, this`selectedRating
      ensures selectedCategory == "All" && selectedPriceRange == "All" && selectedRating == "All"
      ensures Results() == SearchResults(Filters(searchQuery, "All", "All", "All"), sortBy)
    {
      selectedCategory, selectedPriceRange, selectedRating := "All", "All", "All";
    }

    /** The empty state's "Clear" button: query and selections are reset, so every business is listed again (`ClearedListsAll`). */
    method ClearSearch()
      modifies this`searchQuery, this`selectedCategory, this`selectedPriceRange, this`selectedRating
      ensures searchQuery == "" && selectedCategory == "All" && selectedPriceRange == "All" && selectedRating == "All"
      ensures Results() == SearchResults(Filters("", "All", "All", "All"), sortBy)
    {
      searchQuery := "";
      selectedCategory, selectedPriceRange, selectedRating := "All", "All", "All";
    }
  }
}
