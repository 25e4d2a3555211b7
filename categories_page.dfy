/**
 * The categories page: the nine category cards filtered by a search box, each card
 * linking to the search page with its lower-cased name. Ratings are integer tenths.
 */
module CategoriesPage {
  import opened Text
  import Seqs
  import Search

  datatype Category = Category(
    name: string,
    count: string,
    description: string,
    businesses: nat,
    avgRatingTenths: nat,
    trending: bool)

  /** The page's `categories`. */
  const AllCategories: seq<Category> := [
    Category("Restaurants", "12,547", "From street food to fine dining", 12547, 42, true),
    Category("Cafes", "8,234", "Coffee, tea, and cozy vibes", 8234, 44, true),
    Category("Gyms", "3,456", "Fitness centers and yoga studios", 3456, 41, true),
    Category("Salons", "5,678", "Beauty and grooming services", 5678, 43, true),
    Category("Auto Service", "2,345", "Car repair and maintenance", 2345, 40, false),
    Category("Shopping", "15,789", "Retail stores and markets", 15789, 42, true),
    Category("Healthcare", "4,567", "Hospitals, clinics, and pharmacies", 4567, 45, false),
    Category("Education", "3,234", "Schools, colleges, and training centers", 3234, 43, false),
    Category("Entertainment", "2,890", "Movies, games, and fun activities", 2890, 44, true)
  ]

  predicate MatchesQuery(c: Category, query: string) {
    ContainsIgnoreCase(c.name, query) || ContainsIgnoreCase(c.description, query)
  }

  function Matches(query: string): Category -> bool {
    (c: Category) => MatchesQuery(c, query)
  }

  /** `filteredCategories`: exactly the categories whose name or description contains the query. */
  function FilteredCategories(cs: seq<Category>, query: string): (r: seq<Category>)
    ensures forall i :: 0 <= i < |r| ==> r[i] in cs && MatchesQuery(r[i], query)
    ensures forall i :: 0 <= i < |cs| && MatchesQuery(cs[i], query) ==> cs[i] in r
    ensures Seqs.IsSubsequence(r, cs)
    ensures forall x :: multiset(r)[x] == if MatchesQuery(x, query) then multiset(cs)[x] else 0
  {
    Seqs.FilterIsSubsequence(cs, Matches(query));
    Seqs.FilterMultiset(cs, Matches(query));
    Seqs.Filter(cs, Matches(query))
  }

  /** An empty search box shows all nine cards. */
  lemma EmptyQueryShowsAll()
    ensures FilteredCategories(AllCategories, "") == AllCategories
    ensures |AllCategories| == 9
  {
    forall i | 0 <= i < |AllCategories| ensures MatchesQuery(AllCategories[i], "") {
      ContainsEmpty(Lower(AllCategories[i].name));
    }
  }

  /** The number in the header bubble: all categories, whatever the filter keeps. */
  function CountBubble(query: string): (n: nat)
    ensures n == 9
    ensures n >= |FilteredCategories(AllCategories, query)|
  {
    |AllCategories|
  }

  /** A card's link: the search page with the lower-cased category name. */
  function CategoryLink(name: string): (url: string)
    ensures |url| == |"/search?category="| + |name|
    ensures url[..|"/search?category="|] == "/search?category="
    ensures url[|"/search?category="|..] == Lower(name)
  {
    "/search?category=" + Lower(name)
  }

  /** What a card shows beyond its text: the link target and the "Trending" badge. */
  datatype Card = Card(href: string, trendingBadge: bool)

  function CardFor(c: Category): (card: Card)
    ensures card.trendingBadge <==> c.trending
    ensures card.href == CategoryLink(c.name)
  {
    Card(CategoryLink(c.name), c.trending)
  }

  /**
   * A card whose name is also a search-sidebar label leads, through the corrected URL
   * rewrite, to that very label.
   */
  lemma CardLinkSelectsItsCategory(i: nat, j: nat)
    requires i < |AllCategories| && j < |Search.Categories|
    requires AllCategories[i].name == Search.Categories[j]
    ensures Search.CategoryFromParam(CategoryLink(AllCategories[i].name)[|"/search?category="|..])
         == AllCategories[i].name
  {
    Search.CategoryParamRoundTrip(j);
  }
}
