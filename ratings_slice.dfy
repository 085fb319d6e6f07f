/**
 * The ratings slice of frontend/store/slices/ratingsSlice.ts: a movie-id to rating map,
 * mirrored into browser storage under "movieRatings" after every change. Browser storage
 * and JSON are foreign: the stored copy is the abstract field `saved`.
 */
module RatingsSlice {

  /** What browser storage holds: nothing, a ratings map, or text that does not parse. */
  datatype Saved = NothingSaved | SavedRatings(ratings: map<string, int>) | Unreadable

  /** The map the slice starts from: the saved one if it parses, else the empty map. */
  function LoadRatings(saved: Saved): (r: map<string, int>)
    ensures saved.SavedRatings? ==> r == saved.ratings
    ensures !saved.SavedRatings? ==> r == map[]
  {
    if saved.SavedRatings? then saved.ratings else map[]
  }

  class RatingsState {
    var ratings: map<string, int>
    var saved: Saved

    /** Reloading the page would restore exactly the current ratings. */
    ghost predicate InSync()
      reads this
    {
      LoadRatings(saved) == ratings
    }

    constructor (saved: Saved)
      ensures this.saved == saved && ratings == LoadRatings(saved)
      ensures !saved.Unreadable? ==> InSync()
    {
      this.saved := saved;
      ratings := LoadRatings(saved);
    }

    /** `setRating`: the value is stored as given, with no range check. */
    method SetRating(movieId: string, rating: int)
      modifies this
      ensures ratings == old(ratings)[movieId := rating]
      ensures saved == SavedRatings(ratings) && InSync()
    {
      ratings := ratings[movieId := rating];
      saved := SavedRatings(ratings);
    }

    /** `removeRating`: deleting an absent key changes nothing in the map. */
    method RemoveRating(movieId: string)
      modifies this
      ensures ratings == old(ratings) - {movieId}
      ensures saved == SavedRatings(ratings) && InSync()
    {
      ratings := ratings - {movieId};
      saved := SavedRatings(ratings);
    }

    /** `clearAllRatings`: the map empties and the stored copy is removed. */
    method ClearAllRatings()
      modifies this
      ensures ratings == map[]
      ensures saved == NothingSaved && InSync()
    {
      ratings := map[];
      saved := NothingSaved;
    }
  }
}
