/**
 * The events page: events filtered by a text query and a category chip, and a list of
 * liked event ids toggled by the heart button.
 */
module Events {
  import opened Text
  import Seqs

  datatype Organizer = Organizer(name: string, avatar: string, verified: bool)

  datatype Event = Event(
    id: string,
    title: string,
    description: string,
    category: string,
    date: string,
    time: string,
    location: string,
    price: string,
    attendees: nat,
    maxAttendees: nat,
    ratingTenths: nat,
    organizer: Organizer,
    tags: seq<string>,
    isLiked: bool,
    isFeatured: bool)

  /** The category chips, in display order. */
  const EventCategories: seq<string> := ["All", "Food", "Music", "Art", "Sports", "Gaming", "Learning"]

  /** The page's `events`. */
  const AllEvents: seq<Event> := [
    Event("1", "Delhi Food Festival 2024",
      "Experience the best street food and fine dining from across Delhi. Over 100 vendors, live cooking demos, and celebrity chef appearances.",
      "Food", "2024-02-15", "10:00 AM - 10:00 PM", "Pragati Maidan, New Delhi", "\U{20B9}299", 2500, 5000, 48,
      Organizer("Delhi Food Council", "/placeholder.svg", true),
      ["Street Food", "Fine Dining", "Live Demos", "Celebrity Chefs"], false, true),
    Event("2", "Indie Music Night",
      "Discover amazing indie artists from across India. Live performances, open mic sessions, and networking with music lovers.",
      "Music", "2024-02-20", "7:00 PM - 11:00 PM", "Hard Rock Cafe, Connaught Place", "\U{20B9}599", 150, 200, 46,
      Organizer("Indie Music Delhi", "/placeholder.svg", true),
      ["Live Music", "Indie Artists", "Open Mic", "Networking"], true, false),
    Event("3", "Digital Art Workshop",
      "Learn digital art techniques from professional artists. Hands-on workshop with tablets provided. Perfect for beginners and intermediates.",
      "Art", "2024-02-25", "2:00 PM - 6:00 PM", "Creative Hub, Hauz Khas", "\U{20B9}1,299", 25, 30, 49,
      Organizer("Art Academy Delhi", "/placeholder.svg", true),
      ["Digital Art", "Workshop", "Hands-on", "Beginner Friendly"], false, true),
    Event("4", "Weekend Cricket Tournament",
      "Join the most exciting cricket tournament in Delhi. Teams of 11, professional umpires, and amazing prizes for winners.",
      "Sports", "2024-03-02", "8:00 AM - 6:00 PM", "Feroz Shah Kotla Ground", "\U{20B9}500 per team", 220, 264, 47,
      Organizer("Delhi Cricket Club", "/placeholder.svg", true),
      ["Cricket", "Tournament", "Team Sport", "Prizes"], false, false)
  ]

  /** The liked ids the page starts with. */
  const InitialLikedEvents: seq<string> := ["2"]

  // ---------------------------------------------------------------------------
  // Filtering

  predicate MatchesSearch(e: Event, query: string) {
    || ContainsIgnoreCase(e.title, query)
    || ContainsIgnoreCase(e.description, query)
    || exists t :: t in e.tags && ContainsIgnoreCase(t, query)
  }

  predicate MatchesCategory(e: Event, category: string) {
    category == "All" || e.category == category
  }

  function Matches(query: string, category: string): Event -> bool {
    (e: Event) => MatchesSearch(e, query) && MatchesCategory(e, category)
  }

  /** `filteredEvents`: exactly the matching events, in list order. */
  function FilteredEvents(es: seq<Event>, query: string, category: string): (r: seq<Event>)
    ensures forall i :: 0 <= i < |r| ==> r[i] in es && MatchesSearch(r[i], query) && MatchesCategory(r[i], category)
    ensures forall i :: 0 <= i < |es| && MatchesSearch(es[i], query) && MatchesCategory(es[i], category) ==> es[i] in r
    ensures Seqs.IsSubsequence(r, es)
    ensures forall x :: multiset(r)[x] == if MatchesSearch(x, query) && MatchesCategory(x, category) then multiset(es)[x] else 0
  {
    Seqs.FilterIsSubsequence(es, Matches(query, category));
    Seqs.FilterMultiset(es, Matches(query, category));
    Seqs.Filter(es, Matches(query, category))
  }

  /** The "No Events Found" block: shown exactly when nothing matches. */
  predicate ShowsEmptyState(query: string, category: string) {
    |FilteredEvents(AllEvents, query, category)| == 0
  }

  /** The categories the events have, in list order. */
  lemma EventCategoriesOfEvents()
    ensures |AllEvents| == 4
    ensures AllEvents[0].category == "Food" && AllEvents[1].category == "Music"
    ensures AllEvents[2].category == "Art" && AllEvents[3].category == "Sports"
  {
  }

  /** A chip no event has shows the empty state, whatever the query. */
  lemma UnusedCategoryIsEmpty(query: string, category: string)
    requires category != "All"
    requires forall i :: 0 <= i < |AllEvents| ==> AllEvents[i].category != category
    ensures ShowsEmptyState(query, category)
  {
    var m := Matches(query, category);
    assert forall i :: 0 <= i < |AllEvents| ==> !m(AllEvents[i]);
  }

  /** No event's category starts with 'G' or 'L'. */
  lemma NoEventIn(category: string)
    requires |category| > 0 && (category[0] == 'G' || category[0] == 'L')
    ensures forall i :: 0 <= i < |AllEvents| ==> AllEvents[i].category != category
  {
    EventCategoriesOfEvents();
    forall i | 0 <= i < |AllEvents| ensures AllEvents[i].category != category {
      var c := AllEvents[i].category;
      assert c[0] != 'G' && c[0] != 'L';
    }
  }

  /** The "Gaming" and "Learning" chips have no event: choosing either always shows the empty state. */
  lemma ChipsWithoutEvents(query: string)
    ensures ShowsEmptyState(query, "Gaming")
    ensures ShowsEmptyState(query, "Learning")
  {
    NoEventIn("Gaming");
    NoEventIn("Learning");
    UnusedCategoryIsEmpty(query, "Gaming");
    UnusedCategoryIsEmpty(query, "Learning");
  }

  // ---------------------------------------------------------------------------
  // Likes

  /** `toggleLike(id)`'s update: a liked id is unliked (every copy removed), any other is appended. */
  function WithLikeToggled(liked: seq<string>, id: string): (r: seq<string>)
    ensures id in r <==> id !in liked
    ensures forall i :: 0 <= i < |liked| && liked[i] != id ==> liked[i] in r
    ensures forall i :: 0 <= i < |r| && r[i] != id ==> r[i] in liked
    ensures Seqs.NoDuplicates(liked) ==> Seqs.NoDuplicates(r)
    ensures id !in liked ==> r == liked + [id]
    ensures id in liked ==> Seqs.IsSubsequence(r, liked)
    ensures id in liked ==> forall x :: multiset(r)[x] == if x == id then 0 else multiset(liked)[x]
  {
    if id in liked then
      assert Seqs.NoDuplicates(liked) ==> Seqs.NoDuplicates(Seqs.RemoveAll(liked, id)) by {
        if Seqs.NoDuplicates(liked) {
          Seqs.FilterNoDuplicates(liked, Seqs.Differs(id));
        }
      }
      Seqs.RemoveAll(liked, id)
    else
      liked + [id]
  }

  /** Toggling an id that was not liked twice gives back the same list. */
  lemma ToggleTwiceRestores(liked: seq<string>, id: string)
    requires id !in liked
    ensures WithLikeToggled(WithLikeToggled(liked, id), id) == liked
  {
    Seqs.RemoveAllAppended(liked, id);
  }

  /**
   * Toggling a liked id twice keeps the same liked ids, but that id moves to the end
   * of the list.
   */
  lemma ToggleTwiceMovesToEnd(liked: seq<string>, id: string)
    requires id in liked
    ensures WithLikeToggled(WithLikeToggled(liked, id), id) == Seqs.RemoveAll(liked, id) + [id]
    ensures forall x :: x in WithLikeToggled(WithLikeToggled(liked, id), id) <==> x in liked
  {
    var once := WithLikeToggled(liked, id);
    var twice := WithLikeToggled(once, id);
    forall x ensures x in twice <==> x in liked {
      if x != id && x in liked {
        var i :| 0 <= i < |liked| && liked[i] == x;
        assert liked[i] in once;
      }
      if x != id && x in twice {
        var i :| 0 <= i < |twice| && twice[i] == x;
        assert x in once;
        var j :| 0 <= j < |once| && once[j] == x;
      }
    }
  }

  // ---------------------------------------------------------------------------
  // Page state

  class EventsPage {
    var searchQuery: string
    var selectedCategory: string
    var sortBy: string
    var likedEvents: seq<string>

    /** The liked list never holds an id twice. */
    predicate Valid()
      reads this
    {
      Seqs.NoDuplicates(likedEvents)
    }

    constructor ()
      ensures Valid()
      ensures searchQuery == "" && selectedCategory == "All" && sortBy == "date"
      ensures likedEvents == InitialLikedEvents
    {
      searchQuery := "";
      selectedCategory := "All";
      sortBy := "date";
      likedEvents := InitialLikedEvents;
    }

    function Displayed(): seq<Event>
      reads this
    {
      FilteredEvents(AllEvents, searchQuery, selectedCategory)
    }

    /** The heart button. */
    method ToggleLike(id: string)
      requires Valid()
      modifies this`likedEvents
      ensures Valid()
      ensures likedEvents == WithLikeToggled(old(likedEvents), id)
      ensures id in likedEvents <==> id !in old(likedEvents)
    {
      likedEvents := WithLikeToggled(likedEvents, id);
    }

    method SetSearchQuery(q: string)
      modifies this`searchQuery
      ensures searchQuery == q
    {
      searchQuery := q;
    }

    method SelectCategory(c: string)
      modifies this`selectedCategory
      ensures selectedCategory == c
    {
      selectedCategory := c;
    }
  }
}
