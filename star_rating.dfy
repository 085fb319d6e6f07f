/**
 * The star-rating widget of frontend/components/star-rating.tsx. A click toggles the movie's
 * rating in the ratings store, hovering previews a rating, and five stars show the hovered
 * rating if there is one, else the stored rating. Sizes, animation and labels are presentation.
 */
module StarRatings {
  import opened RatingsSlice

  const StarCount: nat := 5

  /** The stored rating of the movie, 0 when it has none. */
  function CurrentRating(ratings: map<string, int>, movieId: string): (r: int)
    ensures movieId in ratings ==> r == ratings[movieId]
    ensures movieId !in ratings ==> r == 0
  {
    if movieId in ratings then ratings[movieId] else 0
  }

  /** What a click on `star` does to the map when the widget is not read-only. */
  function ToggleRating(ratings: map<string, int>, movieId: string, star: int): (r: map<string, int>)
    ensures CurrentRating(r, movieId) == if star == CurrentRating(ratings, movieId) then 0 else star
    ensures star == CurrentRating(ratings, movieId) ==> movieId !in r
    ensures star != CurrentRating(ratings, movieId) ==> movieId in r && r[movieId] == star
    ensures forall m :: m != movieId ==> (m in r <==> m in ratings)
    ensures forall m :: m in r && m != movieId ==> r[m] == ratings[m]
  {
    if star == CurrentRating(ratings, movieId) then ratings - {movieId} else ratings[movieId := star]
  }

  /** Clicking the same star twice on an unrated movie leaves the ratings as they were. */
  lemma ToggleTwiceRestores(ratings: map<string, int>, movieId: string, star: int)
    requires movieId !in ratings && star != 0
    ensures ToggleRating(ToggleRating(ratings, movieId, star), movieId, star) == ratings
  {
    var once := ToggleRating(ratings, movieId, star);
    var twice := ToggleRating(once, movieId, star);
    assert twice.Keys == ratings.Keys;
  }

  /** `hoverRating || currentRating`. */
  function DisplayRating(hover: int, current: int): (d: int)
    ensures hover != 0 ==> d == hover
    ensures hover == 0 ==> d == current
  {
    if hover != 0 then hover else current
  }

  /** Whether star `k` is drawn filled. */
  predicate Filled(k: int, display: int) {
    k <= display
  }

  /** The five stars, star 1 first. */
  function Stars(display: int): (r: seq<bool>)
    ensures |r| == StarCount
    ensures forall i :: 0 <= i < StarCount ==> (r[i] <==> i + 1 <= display)
  {
    seq(StarCount, i => Filled(i + 1, display))
  }

  /** How many of the stars are filled. */
  function CountFilled(stars: seq<bool>): nat {
    if stars == [] then 0 else (if stars[0] then 1 else 0) + CountFilled(stars[1..])
  }

  /**
   * The filled stars are a prefix of the row, and their number is the display rating
   * clamped to 0..5.
   */
  lemma {:induction false} FilledStarsArePrefix(display: int)
    ensures forall i, j :: 0 <= i <= j < StarCount && Stars(display)[j] ==> Stars(display)[i]
    ensures CountFilled(Stars(display)) == if display < 0 then 0 else if display > StarCount then StarCount else display
  {
    var s := Stars(display);
    assert s[4..][1..] == [];
    assert s[3..][1..] == s[4..] && s[2..][1..] == s[3..] && s[1..][1..] == s[2..];
    assert CountFilled(s[4..]) == (if s[4] then 1 else 0);
    assert CountFilled(s[3..]) == (if s[3] then 1 else 0) + CountFilled(s[4..]);
    assert CountFilled(s[2..]) == (if s[2] then 1 else 0) + CountFilled(s[3..]);
    assert CountFilled(s[1..]) == (if s[1] then 1 else 0) + CountFilled(s[2..]);
  }

  /** One rendered widget: its own hover state, reading and dispatching to the ratings store. */
  class StarRating {
    const movieId: string
    const readonly: bool
    const store: RatingsState
    var hoverRating: int

    /** A read-only widget never shows a hover preview. */
    ghost predicate Valid()
      reads this
    {
      readonly ==> hoverRating == 0
    }

    constructor (movieId: string, readonly: bool, store: RatingsState)
      ensures Valid()
      ensures this.movieId == movieId && this.readonly == readonly && this.store == store
      ensures hoverRating == 0
    {
      this.movieId := movieId;
      this.readonly := readonly;
      this.store := store;
      hoverRating := 0;
    }

    /** The rating the stars show: a read-only widget always shows the stored rating. */
    function Display(): (d: int)
      reads this, store
      ensures Valid() && readonly ==> d == CurrentRating(store.ratings, movieId)
      ensures hoverRating != 0 ==> d == hoverRating
    {
      DisplayRating(hoverRating, CurrentRating(store.ratings, movieId))
    }

    /** `handleRating`: a no-op when read-only, else a toggle through the store. */
    method HandleRating(star: int)
      modifies store
      ensures readonly ==> store.ratings == old(store.ratings) && store.saved == old(store.saved)
      ensures !readonly ==> store.ratings == ToggleRating(old(store.ratings), movieId, star) && store.InSync()
    {
      if readonly {
        return;
      }
      if star == CurrentRating(store.ratings, movieId) {
        store.RemoveRating(movieId);
      } else {
        store.SetRating(movieId, star);
      }
    }

    method HandleMouseEnter(star: int)
      requires Valid()
      modifies this`hoverRating
      ensures Valid()
      ensures hoverRating == if readonly then old(hoverRating) else star
    {
      if !readonly {
        hoverRating := star;
      }
    }

    method HandleMouseLeave()
      requires Valid()
      modifies this`hoverRating
      ensures Valid()
      ensures hoverRating == 0
    {
      if !readonly {
        hoverRating := 0;
      }
    }
  }
}
