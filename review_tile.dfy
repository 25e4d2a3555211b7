/**
 * The review tile: a like/dislike pair with a likes counter, a "Read more" toggle over
 * a 200-character excerpt, and a row of five stars. Ratings are integer tenths.
 */
module ReviewTile {
  import opened Wrappers

  datatype Reviewer = Reviewer(name: string, avatar: string, reviewCount: nat, isElite: Option<bool>)

  /** The `review` prop; it never changes while the tile is shown. */
  datatype Review = Review(
    id: string,
    user: Reviewer,
    ratingTenths: int,
    date: string,
    text: string,
    images: Option<seq<string>>,
    likes: nat,
    dislikes: nat,
    replies: nat,
    isHelpful: Option<bool>,
    tags: Option<seq<string>>)

  // ---------------------------------------------------------------------------
  // Like and dislike

  /** The tile's reaction state: `isLiked`, `isDisliked` and `likesCount`. */
  datatype Reaction = Reaction(isLiked: bool, isDisliked: bool, likesCount: int)

  /** The counter is the review's likes plus one for the reader's own like, and like excludes dislike. */
  predicate Consistent(likes: nat, s: Reaction) {
    s.likesCount == likes + (if s.isLiked then 1 else 0) && !(s.isLiked && s.isDisliked)
  }

  function Initial(likes: nat): (s: Reaction)
    ensures Consistent(likes, s) && !s.isLiked && !s.isDisliked
  {
    Reaction(false, false, likes)
  }

  /** `handleLike`: a like is withdrawn, or given (clearing any dislike). */
  function Like(s: Reaction): (r: Reaction)
    ensures r.isLiked == !s.isLiked
    ensures r.likesCount == s.likesCount + (if s.isLiked then -1 else 1)
    ensures r.isDisliked == (s.isDisliked && s.isLiked)
    ensures forall likes: nat :: Consistent(likes, s) ==> Consistent(likes, r)
  {
    if s.isLiked then s.(likesCount := s.likesCount - 1, isLiked := false)
    else Reaction(true, false, s.likesCount + 1)
  }

  /** `handleDislike`: the dislike flips, and a like is withdrawn. */
  function Dislike(s: Reaction): (r: Reaction)
    ensures r.isDisliked == !s.isDisliked && !r.isLiked
    ensures r.likesCount == s.likesCount - (if s.isLiked then 1 else 0)
    ensures forall likes: nat :: Consistent(likes, s) ==> Consistent(likes, r)
  {
    var flipped := s.(isDisliked := !s.isDisliked);
    if s.isLiked then flipped.(likesCount := flipped.likesCount - 1, isLiked := false) else flipped
  }

  /** Liking twice gives back the state exactly when there was no dislike to clear. */
  lemma LikeTwice(s: Reaction)
    ensures Like(Like(s)) == s <==> !s.isDisliked
  {
  }

  /** Disliking twice gives back the state exactly when there was no like to withdraw. */
  lemma DislikeTwice(s: Reaction)
    ensures Dislike(Dislike(s)) == s <==> !s.isLiked
  {
  }

  /** Whatever the clicks, the counter stays within one of the review's own likes. */
  lemma CounterBounds(likes: nat, s: Reaction)
    requires Consistent(likes, s)
    ensures likes <= s.likesCount <= likes + 1
  {
  }

  // ---------------------------------------------------------------------------
  // Text

  /** `truncatedText`: at most 200 characters, with "..." when something was cut. */
  function Truncated(text: string): (r: string)
    ensures |text| <= 200 ==> r == text
    ensures |text| > 200 ==> |r| == 203 && r[..200] == text[..200] && r[200..] == "..."
  {
    if |text| > 200 then text[..200] + "..." else text
  }

  /** The excerpt is the whole text exactly when the text is short, or is its own cut. */
  lemma TruncatedUnchanged(text: string)
    ensures Truncated(text) == text <==> |text| <= 200 || (|text| == 203 && text[200..] == "...")
  {
    if |text| == 203 && text[200..] == "..." {
      assert text == text[..200] + text[200..];
    }
  }

  /** The "Read more" / "Show less" button is there only for long texts. */
  predicate ShowsToggle(text: string) {
    |text| > 200
  }

  /** What the paragraph shows. */
  function DisplayedText(text: string, showFullText: bool): string {
    if showFullText then text else Truncated(text)
  }

  /** Whenever the paragraph shows less than the text, the button to see the rest is there. */
  lemma CutTextHasToggle(text: string, showFullText: bool)
    ensures DisplayedText(text, showFullText) != text ==> ShowsToggle(text)
    ensures !ShowsToggle(text) ==> DisplayedText(text, showFullText) == text
  {
  }

  // ---------------------------------------------------------------------------
  // Stars

  /** `renderStars(rating)`: five stars, star `i` filled when `i < rating`. */
  function Stars(ratingTenths: int): (r: seq<bool>)
    ensures |r| == 5
    ensures forall i :: 0 <= i < 5 ==> (r[i] <==> 10 * i < ratingTenths)
  {
    seq(5, i requires 0 <= i < 5 => 10 * i < ratingTenths)
  }

  function CountFilled(stars: seq<bool>): nat {
    if stars == [] then 0 else (if stars[0] then 1 else 0) + CountFilled(stars[1..])
  }

  /**
   * The filled stars come first, and there are as many as the rating rounded up,
   * clamped to 0..5.
   */
  lemma StarsFilled(ratingTenths: int)
    ensures forall i, j :: 0 <= i < j < 5 && Stars(ratingTenths)[j] ==> Stars(ratingTenths)[i]
    ensures CountFilled(Stars(ratingTenths)) ==
      if ratingTenths <= 0 then 0 else if ratingTenths > 40 then 5 else (ratingTenths + 9) / 10
  {
    var r := Stars(ratingTenths);
    assert r[1..][1..][1..][1..][1..] == [];
    assert CountFilled(r[1..][1..][1..][1..]) == if r[4] then 1 else 0;
    assert CountFilled(r[1..][1..][1..]) == (if r[3] then 1 else 0) + (if r[4] then 1 else 0);
    assert CountFilled(r[1..][1..]) == (if r[2] then 1 else 0) + (if r[3] then 1 else 0) + (if r[4] then 1 else 0);
  }

  // ---------------------------------------------------------------------------
  // Tile state

  class ReviewTileState {
    const review: Review
    var isLiked: bool
    var isDisliked: bool
    var showFullText: bool
    var likesCount: int

    function CurrentReaction(): Reaction
      reads this
    {
      Reaction(isLiked, isDisliked, likesCount)
    }

    predicate Valid()
      reads this
    {
      Consistent(review.likes, CurrentReaction())
    }

    constructor (review: Review)
      ensures this.review == review && Valid()
      ensures !isLiked && !isDisliked && !showFullText && likesCount == review.likes
    {
      this.review := review;
      isLiked, isDisliked, showFullText := false, false, false;
      likesCount := review.likes;
    }

    method HandleLike()
      requires Valid()
      modifies this`isLiked, this`isDisliked, this`likesCount
      ensures Valid()
      ensures CurrentReaction() == Like(old(CurrentReaction()))
    {
      if isLiked {
        likesCount := likesCount - 1;
        isLiked := false;
      } else {
        likesCount := likesCount + 1;
        isLiked := true;
        if isDisliked {
          isDisliked := false;
        }
      }
    }

    method HandleDislike()
      requires Valid()
      modifies this`isLiked, this`isDisliked, this`likesCount
      ensures Valid()
      ensures CurrentReaction() == Dislike(old(CurrentReaction()))
    {
      isDisliked := !isDisliked;
      if isLiked {
        likesCount := likesCount - 1;
        isLiked := false;
      }
    }

    method ToggleFullText()
      modifies this`showFullText
      ensures showFullText == !old(showFullText)
    {
      showFullText := !showFullText;
    }
  }
}
