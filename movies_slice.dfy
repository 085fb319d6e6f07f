/**
 * The movies slice of frontend/store/slices/moviesSlice.ts: the result list, the selected
 * movie, the loading and error flags and the paging counters, each reducer assigning in place.
 */
module MoviesSlice {
  import opened Wrappers

  /** A search hit; the optional detail fields are carried by no reducer and are not modelled. */
  datatype Movie = Movie(imdbID: string, title: string, year: string, kind: string, poster: string)

  /** The payload of `setMovies` and `appendMovies`. */
  datatype MoviesPage = MoviesPage(movies: seq<Movie>, totalResults: int, page: int)

  class MoviesState {
    var movies: seq<Movie>
    var selectedMovie: Option<Movie>
    var loading: bool
    var error: Option<string>
    var totalResults: int
    var currentPage: int

    constructor ()
      ensures movies == [] && selectedMovie == None && !loading && error == None
      ensures totalResults == 0 && currentPage == 1
    {
      movies := [];
      selectedMovie := None;
      loading := false;
      error := None;
      totalResults := 0;
      currentPage := 1;
    }

    method SetMovies(p: MoviesPage)
      modifies this`movies, this`totalResults, this`currentPage
      ensures movies == p.movies && totalResults == p.totalResults && currentPage == p.page
    {
      movies := p.movies;
      totalResults := p.totalResults;
      currentPage := p.page;
    }

    /** The new page's movies follow the old ones, in order. */
    method AppendMovies(p: MoviesPage)
      modifies this`movies, this`totalResults, this`currentPage
      ensures movies == old(movies) + p.movies
      ensures totalResults == p.totalResults && currentPage == p.page
    {
      movies := movies + p.movies;
      totalResults := p.totalResults;
      currentPage := p.page;
    }

    method SetSelectedMovie(m: Option<Movie>)
      modifies this`selectedMovie
      ensures selectedMovie == m
    {
      selectedMovie := m;
    }

    method SetLoading(b: bool)
      modifies this`loading
      ensures loading == b
    {
      loading := b;
    }

    method SetError(e: Option<string>)
      modifies this`error
      ensures error == e
    {
      error := e;
    }

    /** Back to no results on page 1; the selection and the flags are left alone. */
    method ClearMovies()
      modifies this`movies, this`totalResults, this`currentPage
      ensures movies == [] && totalResults == 0 && currentPage == 1
    {
      movies := [];
      totalResults := 0;
      currentPage := 1;
    }
  }
}
