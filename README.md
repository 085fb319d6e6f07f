# Movie search and rating app: authentication backend and client state, in Dafny

The app is an OMDB movie search with per-user star ratings. Its Express backend signs users
up, logs them in, issues and redeems password-reset tokens, lists users for an admin and
changes their roles. Two guards (`authenticate`, `authorize`) protect the routes, and an
error handler turns thrown errors into JSON responses. The Next.js frontend holds its state
in three Redux slices (search, ratings, movies). Two components drive them: the search bar
and the star-rating widget. A React Query hook fetches search results page by page.

This project models that core and proves what it promises:

- **Shared user table.** `Users` holds the rows in insertion order. A counter hands out the
  ids. The table's integrity (`ValidTable`) says that ids are unique and below the counter,
  that emails are unique, and that a reset token never exists without its expiry or the
  other way round.
- **Services.** `signup`, `resetPassword` and `updateUserRole` are `...Step` functions from
  the old table to the new table and a `Result`. `forgotPassword` returns nothing, for a
  known or an unknown email alike, so its step gives only the new table. A static method of
  `AuthService` or `AdminService` carries each of the four out on a `UserTable` object in
  place, and its contract equates the new table with the step function. The reads (`login`,
  `getCurrentUser`, `getAllUsers`) are functions of the table.
- **Round trips.** Lemmas chain the operations: signup then login; forgot-password then
  reset then login; a token used twice; a token used at its expiry instant; two reset
  requests in a row; a login token passing `authenticate`; a demotion taking effect on the
  next request.
- **Error paths.** The error handler and the validation middleware map every kind of thrown
  value or parse outcome to one response, each branch stated separately.
- **Client state.** The Redux slices and the two components are classes whose methods update
  fields in place. Where an update computes something, a function specifies it:
  `MergeFilters` and `AddRecent` specify the `setFilters` and `addRecentSearch` reducers, and
  `ToggleRating` specifies the widget's click handler, which dispatches `setRating` or
  `removeRating`. The invariants are stated: the recent searches stay short, duplicate-free
  and trimmed, and the saved ratings match the map after every write.
- **Paging.** The paging rule of the search query is proved to walk pages 1, 2, …, n with
  no gap, where n is the page that holds the last result.

Foreign primitives are parameters:

- Password hashing and comparison (bcrypt) and token signing (jsonwebtoken) are the fields
  of an `Auth.Crypto` value. Token verification is a function `verify` from a token to
  `Valid(payload)` or `Invalid(name)`.
- The clock (`now`, in milliseconds) is a parameter.
- So are the 32 random bytes of a reset token, the outcome of a zod parse, and the OMDB
  answer to a search.

Where the model follows the code rather than the API's intent:

- `login` strips only `password` from the row it returns, so a pending `resetToken` and its
  expiry are sent back to a user who logs in (`Auth.LoginReturnsPendingResetToken`).

## Model

| member | source | states |
|---|---|---|
| Text.Trim | frontend/store/slices/searchSlice.ts:39 | the result is a slice of the input with no whitespace at either end, only whitespace was dropped, and it is empty exactly when the input is all whitespace |
| Text.TrimIdempotent | frontend/store/slices/searchSlice.ts:39-40 | trimming a trimmed string changes nothing, so a stored recent search is found again by `includes` after trimming |
| Text.SplitJoin | backend/src/middleware/validation.ts:12 | joining with a separator that no part contains and splitting again gives back the parts |
| Text.DecimalRoundTrip | backend/src/middleware/validation.ts:12 | the decimal text of an array index reads back as that index |
| ApiErrors.NewApiError | backend/src/utils/ApiError.ts:1-13 | an `ApiError` carries the given status, message and details, and its name is "ApiError" |
| Users.FindFirst | backend/src/services/authService.ts:129-136 | the result is the first row satisfying the predicate; there is none exactly when no row satisfies it |
| Users.FindByEmail | backend/src/services/authService.ts:13-15 | the found row has that email; nothing is found exactly when no row has it |
| Users.FindById | backend/src/services/authService.ts:82-92 | the found row has that id; nothing is found exactly when no row has it |
| Users.LookupsFindTheRow | backend/src/services/authService.ts:53-55 | in a valid table, looking up a row's email or id finds that very row |
| Auth.SignupStep | backend/src/services/authService.ts:11-49 | 409 exactly when the email is taken, table unchanged; otherwise one new row with the hashed password and role USER is appended, its public view and a token over (id, email, USER) are returned, and the table stays valid |
| Auth.Login | backend/src/services/authService.ts:51-79 | every failure is the same 401; success means a row with that email whose hash matches the password, answered with that row minus the password and a token over its claims; on a valid table success holds exactly when the password matches |
| Auth.GetCurrentUser | backend/src/services/authService.ts:81-99 | 404 exactly when no row has the id; otherwise the public view of the row with that id |
| Auth.ForgotPasswordStep | backend/src/services/authService.ts:101-126 | an unknown email changes nothing; otherwise only the owner's row changes, gaining the token with expiry now + 3600000; the table stays valid |
| Auth.ResetPasswordStep | backend/src/services/authService.ts:128-154 | 400 exactly when no row holds the token with an expiry strictly after now, table unchanged; otherwise one such row gets the new hash and both reset fields cleared; the table stays valid |
| Auth.SignupThenLogin | backend/src/services/authService.ts:11-79 | after a successful signup, logging in with the same credentials succeeds for the created user with role USER |
| Auth.ResetTokenSingleUse | backend/src/services/authService.ts:146-153 | a token that is held once cannot reset a password a second time |
| Auth.ForgotThenReset | backend/src/services/authService.ts:101-154 | a token issued to an email resets that owner's password before expiry, clears the reset fields, and afterwards the new password logs in and the old one gets the 401 |
| Auth.ResetAtExpiryFails | backend/src/services/authService.ts:113-134 | a reset at or after the expiry instant is refused with 400 |
| Auth.SecondRequestRevokesFirstToken | backend/src/services/authService.ts:111-122 | a second reset request for the same email makes the first token unusable |
| Auth.LoginReturnsPendingResetToken | backend/src/services/authService.ts:76-78 | a login after a reset request returns the pending token and its expiry |
| Auth.AuthService.Signup | backend/src/services/authService.ts:11-49 | the table after the call and the result are those of `SignupStep` on the table before, and the table stays valid |
| Auth.AuthService.ForgotPassword | backend/src/services/authService.ts:101-126 | the table after the call is `ForgotPasswordStep` of the table before, and stays valid |
| Auth.AuthService.ResetPassword | backend/src/services/authService.ts:128-154 | the table after the call and the result are those of `ResetPasswordStep`, and the table stays valid |
| Admin.Views | backend/src/services/adminService.ts:9-16 | the listing projects each row to its public fields, one view per row |
| Admin.InsertNewestFirst | backend/src/services/adminService.ts:17-19 | inserting into a newest-first list keeps it newest first and adds exactly that entry |
| Admin.SortNewestFirst | backend/src/services/adminService.ts:17-19 | the result is ordered by `createdAt` descending and is a permutation of the input |
| Admin.GetAllUsers | backend/src/services/adminService.ts:7-21 | every row's public view appears, nothing else does, as many entries as rows, newest first |
| Admin.UpdateUserRoleStep | backend/src/services/adminService.ts:23-44 | 404 exactly when no row has the id, table unchanged; otherwise that row alone gets the new role, no row changes in anything but role and update time, the updated view is returned, and the table stays valid |
| Admin.RoleChangeIsVisible | backend/src/services/adminService.ts:23-44 | after a role change the current-user lookup reports the new role |
| Admin.RoleChangeKeepsCredentials | backend/src/services/adminService.ts:34 | a role change never changes whether a login succeeds |
| Admin.AdminService.UpdateUserRole | backend/src/services/adminService.ts:23-44 | the table after the call and the result are those of `UpdateUserRoleStep`, and the table stays valid |
| AuthMiddleware.BearerToken | backend/src/middleware/auth.ts:13-17 | a credential is found exactly when the header is present and starts with "Bearer ", and the header is the prefix followed by it |
| AuthMiddleware.BearerRoundTrip | backend/src/middleware/auth.ts:13-17 | prefixing "Bearer " to a token and parsing the header gives back the token |
| AuthMiddleware.Authenticate | backend/src/middleware/auth.ts:9-45 | every failure is a 401: no bearer header, a token that does not verify, or a claimed id with no row; success is exactly a verified token whose id has a row, answered with that row's public view |
| AuthMiddleware.Authorize | backend/src/middleware/auth.ts:47-59 | 401 with no user; with a user, it continues exactly when the role is listed and gives 403 exactly when it is not |
| AuthMiddleware.LoginTokenAuthenticates | backend/src/middleware/auth.ts:9-45 | a login token sent as a bearer credential authenticates as the user who logged in |
| AuthMiddleware.DemotionTakesEffectAtOnce | backend/src/middleware/auth.ts:20-59 | after an admin is demoted, the same token still authenticates but fails `authorize([ADMIN])` with 403 |
| AuthMiddleware.AuthenticateRequest | backend/src/middleware/auth.ts:9-45 | on success the request carries the user and the chain continues; on failure the request is untouched and the error is passed on |
| ErrorHandler.HandleError | backend/src/middleware/errorHandler.ts:5-51 | an `ApiError` keeps its status and message with its details (or message) as `error`; P2002 gives 409, the two token errors 401 each, anything else 500 with the message shown only in development; never `success` |
| ErrorHandler.LoginFailuresLookAlike | backend/src/middleware/errorHandler.ts:8-14 | an unknown email and a wrong password produce the identical 401 response |
| ErrorHandler.GuardFailuresAreClientErrors | backend/src/middleware/errorHandler.ts:8-14 | every failure of the two guards reaches the client as 401 or 403 |
| Validation.PathTexts | backend/src/middleware/validation.ts:12 | one text per path step, in order |
| Validation.IssueMessages | backend/src/middleware/validation.ts:12 | one message per issue, in order, each the joined path, ": " and the issue's message |
| Validation.Validate | backend/src/middleware/validation.ts:5-19 | it continues exactly when the body parses; a schema error gives 400 "Validation failed" with the messages; any other exception gives 400 "Invalid request data" |
| Validation.PathTextRoundTrip | backend/src/middleware/validation.ts:12 | when no key contains ".", splitting the path part at "." recovers each step, and index steps read back as their index |
| SearchSlice.MergeFilters | frontend/store/slices/searchSlice.ts:32-34 | each supplied filter key takes the new value and each other key keeps its old one |
| SearchSlice.MergeFiltersIdempotent | frontend/store/slices/searchSlice.ts:32-34 | applying the same partial filters twice equals applying them once |
| SearchSlice.AddRecent | frontend/store/slices/searchSlice.ts:38-43 | a blank or already listed query leaves the list as it was; otherwise the trimmed query comes first, followed by the first four old entries; at most five entries; the trimmed query is always listed; the list stays duplicate-free with trimmed non-empty entries |
| SearchSlice.AddRecentIdempotent | frontend/store/slices/searchSlice.ts:38-43 | adding the same search twice equals adding it once |
| SearchSlice.SearchState.constructor | frontend/store/slices/searchSlice.ts:14-23 | empty query, the three filters "", no suggestions, no recent searches |
| SearchSlice.SearchState.SetQuery | frontend/store/slices/searchSlice.ts:29-31 | only the query changes, to the payload |
| SearchSlice.SearchState.SetFilters | frontend/store/slices/searchSlice.ts:32-34 | only the filters change, to the old filters merged with the payload |
| SearchSlice.SearchState.SetSuggestions | frontend/store/slices/searchSlice.ts:35-37 | only the suggestions change, to the payload |
| SearchSlice.SearchState.AddRecentSearch | frontend/store/slices/searchSlice.ts:38-43 | only the recent searches change, to `AddRecent` of the old list, and the list invariant is kept |
| SearchSlice.SearchState.ClearRecentSearches | frontend/store/slices/searchSlice.ts:44-46 | only the recent searches change, to empty |
| SearchSlice.SearchState.ClearFilters | frontend/store/slices/searchSlice.ts:47-53 | only the filters change, to all "" |
| RatingsSlice.LoadRatings | frontend/store/slices/ratingsSlice.ts:7-21 | a parseable saved map becomes the initial map; nothing saved or unparseable text gives the empty map |
| RatingsSlice.RatingsState.constructor | frontend/store/slices/ratingsSlice.ts:7-21 | the initial map is `LoadRatings` of what was saved, and it matches the saved copy unless that copy was unreadable |
| RatingsSlice.RatingsState.SetRating | frontend/store/slices/ratingsSlice.ts:27-34 | the movie maps to the rating as given, other keys unchanged, and the saved copy equals the new map |
| RatingsSlice.RatingsState.RemoveRating | frontend/store/slices/ratingsSlice.ts:35-42 | the key is removed (a no-op for an absent key), other keys unchanged, and the saved copy equals the new map |
| RatingsSlice.RatingsState.ClearAllRatings | frontend/store/slices/ratingsSlice.ts:43-50 | the map is empty and the saved copy is removed |
| MoviesSlice.MoviesState.constructor | frontend/store/slices/moviesSlice.ts:35-42 | no movies, no selection, not loading, no error, 0 results, page 1 |
| MoviesSlice.MoviesState.SetMovies | frontend/store/slices/moviesSlice.ts:48-52 | list, total and page are replaced by the payload's; nothing else changes |
| MoviesSlice.MoviesState.AppendMovies | frontend/store/slices/moviesSlice.ts:53-57 | the list becomes the old list followed by the payload's, in order; total and page come from the payload |
| MoviesSlice.MoviesState.SetSelectedMovie | frontend/store/slices/moviesSlice.ts:58-60 | only the selection changes |
| MoviesSlice.MoviesState.SetLoading | frontend/store/slices/moviesSlice.ts:61-63 | only the loading flag changes |
| MoviesSlice.MoviesState.SetError | frontend/store/slices/moviesSlice.ts:64-66 | only the error changes |
| MoviesSlice.MoviesState.ClearMovies | frontend/store/slices/moviesSlice.ts:67-71 | list, total and page become [], 0 and 1; selection, loading and error are untouched |
| StarRatings.CurrentRating | frontend/components/star-rating.tsx:18 | the stored rating of the movie, 0 when it has none |
| StarRatings.ToggleRating | frontend/components/star-rating.tsx:30-34 | clicking the current rating's star leaves the movie unrated; any other star becomes its rating; other movies are untouched |
| StarRatings.ToggleTwiceRestores | frontend/components/star-rating.tsx:30-34 | two clicks on the same star of an unrated movie restore the ratings |
| StarRatings.DisplayRating | frontend/components/star-rating.tsx:49 | the hovered rating when there is one, else the stored rating |
| StarRatings.Stars | frontend/components/star-rating.tsx:54-74 | five stars, star k filled exactly when k is at most the display rating |
| StarRatings.FilledStarsArePrefix | frontend/components/star-rating.tsx:54-74 | the filled stars are a prefix of the row, and their number is the display rating clamped to 0..5 |
| StarRatings.StarRating.constructor | frontend/components/star-rating.tsx:16-19 | a new widget shows no hover preview |
| StarRatings.StarRating.Display | frontend/components/star-rating.tsx:49 | a read-only widget always shows the stored rating; a hover preview, when present, is what is shown |
| StarRatings.StarRating.HandleRating | frontend/components/star-rating.tsx:27-35 | read-only: the store is unchanged; otherwise the ratings become `ToggleRating` of the old ratings and the saved copy matches them |
| StarRatings.StarRating.HandleMouseEnter | frontend/components/star-rating.tsx:37-41 | the preview becomes the hovered star unless the widget is read-only |
| StarRatings.StarRating.HandleMouseLeave | frontend/components/star-rating.tsx:43-47 | the preview is cleared, and a read-only widget never has one |
| SearchBars.SearchBar.constructor | frontend/components/search-bar.tsx:18-19 | the input starts from the store's query with the dropdown closed |
| SearchBars.SuggestionsFetched | frontend/components/search-bar.tsx:23 | the suggestions query runs for the debounced text exactly when the hook enables it, which is exactly when the text is as long as the dropdown's threshold of 2 characters |
| SearchBars.SearchBar.DropdownShown | frontend/components/search-bar.tsx:83 | the dropdown shows only while suggestions are requested and there is typed text of at least 2 characters or a recent search; recent searches alone open it, and so does typed text long enough to fetch suggestions for |
| SearchBars.SearchBar.HandleSearch | frontend/components/search-bar.tsx:31-37 | the typed and stored query become the search, it is added to the recent searches as `AddRecent` says, and the dropdown is hidden |
| SearchBars.SearchBar.HandleClear | frontend/components/search-bar.tsx:39-44 | the typed and stored query become empty and the dropdown is hidden |
| SearchBars.SearchBar.HandleKeyDown | frontend/components/search-bar.tsx:46-54 | Enter searches for the untrimmed typed text unless it is blank; Escape only hides the dropdown; any other key, or Enter on blank text, changes nothing |
| SearchBars.SearchBar.HandleChange | frontend/components/search-bar.tsx:65 | the typed text becomes the input's value |
| SearchBars.SearchBar.HandleFocus | frontend/components/search-bar.tsx:66 | suggestions are requested, so the dropdown shows whenever there is something to show |
| SearchBars.SearchBar.SyncDebouncedQuery | frontend/components/search-bar.tsx:25-29 | the store is written exactly when the debounced value differs from the stored query, which then equals it |
| MovieQueries.SearchEnabled | frontend/hooks/useMovies.ts:33 | the search runs exactly when the query has a non-whitespace character |
| MovieQueries.SuggestionsEnabled | frontend/hooks/useMovies.ts:51 | suggestions are fetched exactly when the text has at least 2 characters, whitespace included |
| MovieQueries.DetailsEnabled | frontend/hooks/useMovies.ts:42 | details are fetched exactly when the id is non-empty |
| MovieQueries.SearchStricterThanDetails | frontend/hooks/useMovies.ts:33-42 | the search condition `!!query.trim()` implies the details condition `!!imdbId` on the same text, and " " meets the second but not the first |
| MovieQueries.EnablementConditionsDiffer | frontend/hooks/useMovies.ts:33-51 | the search and suggestion conditions are independent: two spaces fetch suggestions but never search, one letter searches but fetches no suggestions |
| MovieQueries.OrAbsent | frontend/hooks/useMovies.ts:19-20 | an empty filter is sent as absent, any other as itself |
| MovieQueries.SearchRequestFor | frontend/hooks/useMovies.ts:16-21 | the request carries the query and page, and the type and year filters only when non-empty |
| MovieQueries.SearchPage | frontend/hooks/useMovies.ts:11-29 | fails with "Search query is required" exactly when the search is disabled; otherwise the movies (or none), the parsed total (or 0), the page, and a next page exactly when page × 10 is below the total |
| MovieQueries.NextPageParam | frontend/hooks/useMovies.ts:30-32 | a next page exists exactly when the last page says so, and it is the following page number |
| MovieQueries.PageCount | frontend/hooks/useMovies.ts:27 | the number of pages of a search: at least one, and enough and no more to hold a positive total at 10 per page |
| MovieQueries.MorePagesIff | frontend/hooks/useMovies.ts:27 | page p is followed by another exactly when p is before the last page |
| MovieQueries.PagesAreConsecutive | frontend/hooks/useMovies.ts:11-32 | paging from page p visits p, p+1, …, up to the last page, with no gap or repeat |
| MovieQueries.FirstPageWalksAllPages | frontend/hooks/useMovies.ts:11-32 | paging from the default page 1 visits exactly pages 1 to the page count |

## Left out

- User ids: the database generates them as strings; the model assumes naturals handed out
  by a counter, since the code relies only on their uniqueness.
- `updatedAt`: the database schema, which is not part of this model, is assumed to maintain
  it on every update; `WithResetToken`, `WithNewPassword` and `WithRole` set it to `now`.
- Persistence is abstract. Prisma and the database are a `Users.Table` value. Database
  failures, and the unique-constraint race between signup's lookup and its insert (the path
  to the P2002 branch of the error handler), are not modelled.
- Concurrency between requests is not modelled: each operation is one atomic step.
- Cryptography is not modelled. bcrypt's hash and compare, JWT signing and verification, and
  the random bytes of a reset token are parameters with no properties assumed beyond those
  a lemma states in its `requires` (such as "compare accepts the hash of the same password").
  bcrypt's 72-byte truncation of passwords is therefore not captured.
- Console logging, including the reset token printed by `forgotPassword`, is left out: it is
  output only.
- Express wiring is not part of this model: routes, controllers, `index.ts`, `notFound`.
  These only connect the modelled functions to HTTP.
- The zod schemas are not part of this model. The parse outcome is an input of
  `Validation.Validate`.
- `authenticate`'s catch-all also turns a database failure during the user lookup into the
  401 "Invalid or expired token". The model treats the lookup as total, so that path does
  not arise.
- Browser storage and JSON are an abstract `saved` field of the ratings slice. The
  `typeof window` check for server rendering is not modelled.
- RatingsSlice.LoadRatings: does not model JSON that parses to something other than a map
  of ratings (a number, a list): it treats such text as unreadable, where the source would
  use the parsed value.
- Ratings are integers. JavaScript numbers (fractions, NaN) are not modelled, so
  `StarRatings.CurrentRating` does not model `NaN || 0` turning into 0.
- SearchSlice.MergeFilters: does not model a patch that supplies a key with the value
  `undefined`: a key is either supplied with a string or absent.
- Debounce timing, focus and blur are browser behaviour. The debounced value is the argument
  of `SearchBar.SyncDebouncedQuery`.
- Rendering (sizes, animation, labels) is presentation and is left out.
- `frontend/lib/api.ts` (the OMDB HTTP client) is not part of this model. Its answer is the
  `SearchResponse` input, and the suggestions and details queries are represented only by
  their enablement conditions.
- React Query's cache, stale times and query keys are not modelled.
- String lengths count characters, not UTF-16 code units, so the `length >= 2` tests differ
  from the source for characters outside the Basic Multilingual Plane.
- Admin.GetAllUsers: the order among users created at the same instant is not stated,
  because the source leaves it to the database.
