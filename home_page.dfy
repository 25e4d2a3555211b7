/**
 * The home page: the hero search form and its guard, the category shortcuts, the search
 * suggestions, the rotating testimonial and the live counters. Timer ticks are atomic
 * steps; the counters' random increments and `encodeURIComponent` are parameters.
 */
module Home {
  import opened Wrappers
  import opened Text
  import CategoriesPage

  datatype Testimonial = Testimonial(name: string, role: string, content: string, rating: nat)

  const Testimonials: seq<Testimonial> := [
    Testimonial("Rahul Kumar", "Food Blogger",
      "Help has revolutionized how I discover local gems. The reviews are authentic and the community is amazing!", 5),
    Testimonial("Sneha Patel", "Local Explorer",
      "Found the best dhaba in my area through Help. The recommendations are spot on!", 5),
    Testimonial("Amit Singh", "Business Owner",
      "Help helped my restaurant reach more customers. The platform is incredible for businesses!", 5)
  ]

  const SearchSuggestions: seq<string> := [
    "Butter Chicken near me",
    "Best Gyms in Delhi",
    "Hair Salons with AC",
    "24/7 Cafes",
    "Authentic Dhabas",
    "Car Service Centers"
  ]

  /** The names of the category shortcuts, in display order. */
  const HomeCategories: seq<string> := ["Restaurants", "Cafes", "Gyms", "Salons", "Auto Service", "Shopping"]

  // ---------------------------------------------------------------------------
  // Testimonials

  /** The rotation timer's update `(prev + 1) % testimonials.length`. */
  function NextTestimonial(i: nat): (j: nat)
    ensures j < |Testimonials|
    ensures i + 1 < |Testimonials| ==> j == i + 1
    ensures i == |Testimonials| - 1 ==> j == 0
  {
    (i + 1) % |Testimonials|
  }

  /** Three ticks bring any shown testimonial back. */
  lemma RotationCycles(i: nat)
    requires i < |Testimonials|
    ensures NextTestimonial(NextTestimonial(NextTestimonial(i))) == i
  {
  }

  // ---------------------------------------------------------------------------
  // Search

  /**
   * `handleSearch`: navigates only when the query has a character that is not white space;
   * the URL carries the query and the location untrimmed, each through `encode`.
   */
  function SearchRoute(query: string, location: string, encode: string -> string): (route: Option<string>)
    ensures route.Some? <==> !AllWhitespace(query)
    ensures route.Some? ==> route.value == "/search?q=" + encode(query) + "&location=" + encode(location)
  {
    if Trim(query) != "" then Some("/search?q=" + encode(query) + "&location=" + encode(location)) else None
  }

  /** Adding white space around a query does not change whether the form navigates. */
  lemma PaddingDoesNotMatter(query: string, location: string, encode: string -> string)
    ensures SearchRoute(" " + query + " ", location, encode).Some? == SearchRoute(query, location, encode).Some?
  {
    var padded := " " + query + " ";
    assert forall i :: 0 <= i < |query| ==> padded[i + 1] == query[i];
    if !AllWhitespace(query) {
      var i :| 0 <= i < |query| && !IsWhitespace(query[i]);
      assert !IsWhitespace(padded[i + 1]);
    }
  }

  /** `handleCategoryClick(name)`: the same link the categories page gives that name. */
  function CategoryRoute(name: string): (route: string)
    ensures route == CategoriesPage.CategoryLink(name)
    ensures route[|"/search?category="|..] == Lower(name)
  {
    "/search?category=" + Lower(name)
  }

  /** The suggestion chips: the first four suggestions. */
  function ShownSuggestions(): (r: seq<string>)
    ensures |r| == 4 && r <= SearchSuggestions
  {
    SearchSuggestions[..4]
  }

  // ---------------------------------------------------------------------------
  // Live counters

  datatype LiveStats = LiveStats(users: nat, reviews: nat, businesses: nat)

  const InitialStats: LiveStats := LiveStats(50000, 1000000, 25000)

  /** One counter tick: each counter grows by its `Math.floor(Math.random() * n)` draw. */
  function Tick(s: LiveStats, du: nat, dr: nat, db: nat): (r: LiveStats)
    requires du < 3 && dr < 5 && db < 2
    ensures s.users <= r.users <= s.users + 2
    ensures s.reviews <= r.reviews <= s.reviews + 4
    ensures s.businesses <= r.businesses <= s.businesses + 1
  {
    LiveStats(s.users + du, s.reviews + dr, s.businesses + db)
  }

  predicate NoSmaller(a: LiveStats, b: LiveStats) {
    a.users <= b.users && a.reviews <= b.reviews && a.businesses <= b.businesses
  }

  /** A run of ticks, one draw triple per tick. */
  function Ticks(s: LiveStats, draws: seq<(nat, nat, nat)>): (r: LiveStats)
    requires forall k :: 0 <= k < |draws| ==> draws[k].0 < 3 && draws[k].1 < 5 && draws[k].2 < 2
    decreases |draws|
  {
    if draws == [] then s else Ticks(Tick(s, draws[0].0, draws[0].1, draws[0].2), draws[1..])
  }

  /** The counters never go down, however many ticks pass, and grow by at most 2, 4 and 1 per tick. */
  lemma {:induction false} CountersNeverDecrease(s: LiveStats, draws: seq<(nat, nat, nat)>)
    requires forall k :: 0 <= k < |draws| ==> draws[k].0 < 3 && draws[k].1 < 5 && draws[k].2 < 2
    ensures NoSmaller(s, Ticks(s, draws))
    ensures Ticks(s, draws).users <= s.users + 2 * |draws|
    ensures Ticks(s, draws).reviews <= s.reviews + 4 * |draws|
    ensures Ticks(s, draws).businesses <= s.businesses + |draws|
    decreases |draws|
  {
    if draws != [] {
      CountersNeverDecrease(Tick(s, draws[0].0, draws[0].1, draws[0].2), draws[1..]);
    }
  }

  // ---------------------------------------------------------------------------
  // Page state

  class HomePage {
    var searchQuery: string
    var locationQuery: string
    var currentTestimonial: nat
    var liveStats: LiveStats

    predicate Valid()
      reads this
    {
      currentTestimonial < |Testimonials|
    }

    constructor ()
      ensures Valid()
      ensures searchQuery == "" && locationQuery == "" && currentTestimonial == 0 && liveStats == InitialStats
    {
      searchQuery, locationQuery := "", "";
      currentTestimonial := 0;
      liveStats := InitialStats;
    }

    /** The testimonial on screen. */
    function ShownTestimonial(): Testimonial
      requires Valid()
      reads this
    {
      Testimonials[currentTestimonial]
    }

    /** The five-second rotation timer. */
    method RotateTestimonial()
      requires Valid()
      modifies this`currentTestimonial
      ensures Valid()
      ensures currentTestimonial == NextTestimonial(old(currentTestimonial))
    {
      currentTestimonial := (currentTestimonial + 1) % |Testimonials|;
    }

    /** Indicator `i` (one per testimonial). */
    method SelectTestimonial(i: nat)
      requires i < |Testimonials|
      modifies this`currentTestimonial
      ensures Valid() && currentTestimonial == i
    {
      currentTestimonial := i;
    }

    /** The three-second counter timer, with its three random draws. */
    method TickStats(du: nat, dr: nat, db: nat)
      requires du < 3 && dr < 5 && db < 2
      modifies this`liveStats
      ensures liveStats == Tick(old(liveStats), du, dr, db)
      ensures NoSmaller(old(liveStats), liveStats)
    {
      liveStats := LiveStats(liveStats.users + du, liveStats.reviews + dr, liveStats.businesses + db);
    }

    method SetSearchQuery(q: string)
      modifies this`searchQuery
      ensures searchQuery == q
    {
      searchQuery := q;
    }

    method SetLocationQuery(l: string)
      modifies this`locationQuery
      ensures locationQuery == l
    {
      locationQuery := l;
    }

    /** Suggestion chip `k` fills the search box with that suggestion. */
    method PickSuggestion(k: nat)
      requires k < |ShownSuggestions()|
      modifies this`searchQuery
      ensures searchQuery == ShownSuggestions()[k]
    {
      searchQuery := SearchSuggestions[k];
    }

    /** Submitting the hero form. */
    method HandleSearch(encode: string -> string) returns (route: Option<string>)
      ensures route == SearchRoute(searchQuery, locationQuery, encode)
      ensures route.Some? <==> !AllWhitespace(searchQuery)
    {
      if Trim(searchQuery) != "" {
        route := Some("/search?q=" + encode(searchQuery) + "&location=" + encode(locationQuery));
      } else {
        route := None;
      }
    }
  }

  /** The "Auto Service" shortcut sends "auto service", which the search page's as-written rewrite turns into "Auto service". */
  lemma AutoServiceShortcut()
    ensures CategoryRoute(HomeCategories[4]) == "/search?category=auto service"
  {
    var name := HomeCategories[4];
    assert Lower(name) == "auto service";
  }
}
