# movie-share, modelled in Dafny

movie-share is a movie-recommendation site. It has a Next.js client (a
catalogue carousel, login and registration forms, an add-movie upload form,
and an authentication context kept in `localStorage`) and an Express API
(JWT-checking middleware and a multer upload filter). This project models the
parts of it that contain logic, each as one Dafny module:

- `MovieSlider` (`slider.dfy`) is the carousel pager. It holds the breakpoint
  table from window width to cards per view, the number of window positions,
  circular previous/next navigation, the reset on resize, the strip offset and
  the rule for showing the controls. The React state is the class
  `MovieSlider.Slider`.
- `Trailer` (`trailer.dfy`) covers the trailer-URL regular expression and
  `getTrailerThumbnail`.
- `AddMovie` (`add_movie.dfy`) covers the add-movie page. It has the
  submission checks in their order, the expiry test and the use of a refreshed
  token, the form reset, the poster preview and the rating and year fallbacks.
  The page state is the class `AddMovie.AddMovieForm`.
- `Email` (`email.dfy`) is the email expression `^[^\s@]+@[^\s@]+\.[^\s@]+$`,
  which the login and registration pages share. It comes with a plain
  characterisation and a proof that the two agree.
- `Login` (`login.dfy`) and `Register` (`register.dfy`) are the two sign-in
  forms. Each has its checks, its field handlers and what success and failure
  leave behind. A successful login calls into the session provider.
- `AuthContext` (`auth_context.dfy`) is the client's session. `localStorage`
  is a `map<string, string>`, alongside the `token` and `user` state and the
  HTTP client's `Authorization` header. It covers the restore on mount,
  `login`, `logout`, `refreshToken` and `useAuth`.
- `AuthMiddleware` (`auth_middleware.dfy`) is the server's `auth` middleware:
  bearer-token extraction, then a 401 or `next`.
- `UploadFilter` (`upload_filter.dfy`) is multer's `fileFilter` and the size
  limit.
- `Strings` and `Wrappers` are support modules. `Strings` holds JavaScript's
  `startsWith`, `includes`, `indexOf` and `split`, and the `\s` and line
  terminator classes. `Wrappers` holds `Option` and `Result` for `null` and
  thrown errors.

Anything the code gets from outside becomes a parameter:

- the window width;
- the decoded token payload (`JSON.parse(atob(...))`);
- `Date.now()`;
- `new URL(...).searchParams`;
- `URL.createObjectURL`;
- `parseInt`;
- the outcome of every HTTP request;
- `jwt.verify` and `User.findOne`.

Three behaviours of the code that are easy to miss:

- **Slides per view at mount.** The first render has slides per view 1
  (`MovieSlider.tsx:24`). The mount effect then sets it from the width
  (`:34`). See `Slider.constructor`, then `Slider.Mount`.
- **The youtu.be id.** It is the text after the first `youtu.be/` up to the
  first `?`, and also only as far as a second `youtu.be/`. The code splits on
  `youtu.be/` and takes the second part (`Trailer.YoutuBeId`).
- **Next past the last position.** `handleNext` wraps only when the index
  *equals* the last position. The movie list is a prop and can shrink below
  the current index. From an index past the last position, next never wraps
  and the index keeps growing (`MovieSlider.NextNeverWrapsOutOfRange`). Prev
  walks it back down into range (`MovieSlider.PrevReturnsIntoRange`).

## Model

| member | source | states |
|---|---|---|
| `MovieSlider.SlidesPerView` | app/components/MovieSlider.tsx:28-32 | Width ≥ 1024 gives 4 cards per view, 768 ≤ width < 1024 gives 3, and narrower gives 2. Each holds in both directions. |
| `MovieSlider.TotalSlides` | app/components/MovieSlider.tsx:45 | There is at least one position. There is exactly one iff every card fits (n ≤ slides per view). Otherwise the last position plus one view covers all n cards. |
| `MovieSlider.NextIsSuccessorModulo` | app/components/MovieSlider.tsx:51-53 | `MovieSlider.Next` is the updater of `handleNext` (:52). From an in-range index, next is (index + 1) mod positions: a step forward that wraps from the last position to 0. It stays in range. |
| `MovieSlider.PrevIsPredecessorModulo` | app/components/MovieSlider.tsx:47-49 | `MovieSlider.Prev` is the updater of `handlePrev` (:48). From an in-range index, prev is (index − 1) mod positions: a step back that wraps from 0 to the last position. It stays in range. |
| `MovieSlider.PrevNextInverse` | app/components/MovieSlider.tsx:47-53 | For in-range indices, prev undoes next and next undoes prev. |
| `MovieSlider.SinglePositionFixed` | app/components/MovieSlider.tsx:47-53 | With a single position, both next and prev keep the index at 0. |
| `MovieSlider.NextCycle` | app/components/MovieSlider.tsx:51-53 | Pressing next as many times as there are positions returns to the starting index. |
| `MovieSlider.NextNeverWrapsOutOfRange` | app/components/MovieSlider.tsx:52 | From an index at or past the number of positions, k presses of next give index + k: the equality test never wraps. |
| `MovieSlider.PrevReturnsIntoRange` | app/components/MovieSlider.tsx:48 | From an index past the range, prev steps down one at a time and reaches the last position. |
| `MovieSlider.ControlsIffSeveralPositions` | app/components/MovieSlider.tsx:80 | `MovieSlider.ShowControls` is the render condition `movies.length > slidesPerView` (:80). The controls are shown (n > slides per view) iff there is more than one position. |
| `MovieSlider.OffsetPercent` | app/components/MovieSlider.tsx:57-58 | The strip offset is index · (100 / slides per view) percent, as an exact rational. It is never negative and is zero only at index 0. |
| `MovieSlider.LastPositionFlush` | app/components/MovieSlider.tsx:45-58 | At the last position, the offset plus one view is exactly the width of the whole strip of n cards. |
| `MovieSlider.Slider.constructor` | app/components/MovieSlider.tsx:23-24 | The first render starts at index 0 with slides per view 1. |
| `MovieSlider.Slider.Mount` | app/components/MovieSlider.tsx:34 | The mount effect sets slides per view from the width and leaves the index alone. |
| `MovieSlider.Slider.HandleResize` | app/components/MovieSlider.tsx:36-39 | A resize sets slides per view from the new width and resets the index to 0, whatever it was. The index is then in range and the strip offset is 0. |
| `MovieSlider.Slider.HandlePrev` | app/components/MovieSlider.tsx:47-49 | The index becomes Prev of the old index. Slides per view and the card count are unchanged, and an in-range index stays in range. |
| `MovieSlider.Slider.HandleNext` | app/components/MovieSlider.tsx:51-53 | The index becomes Next of the old index, and an in-range index stays in range. An out-of-range index is incremented. |
| `MovieSlider.Slider.ControlsVisible` | app/components/MovieSlider.tsx:80 | In the current state, the controls are rendered iff there is more than one position. |
| `MovieSlider.Slider.SetMovieCount` | app/components/MovieSlider.tsx:22 | A new `movies` prop changes the card count and keeps the index and slides per view. |
| `Trailer.TrailerTestIffPattern` | client/app/add-movie/page.tsx:58-65 | `Trailer.TrailerTest` is the regex's `test` (:60). The test accepts a URL iff it has the regex's shape. That shape is an optional `http://`/`https://`, an optional `www.`, one of the three hosts, then a character other than a line terminator. |
| `Trailer.YoutuBeId` | client/app/add-movie/page.tsx:168-170 | The id is present iff `youtu.be/` occurs. It is the prefix of the text after the first occurrence, stopping at the first `?` or the next `youtu.be/`, and contains neither. |
| `Trailer.VideoId` | client/app/add-movie/page.tsx:164-170 | The id step fails only for a `youtube.com/watch` URL whose parse throws. When that parse succeeds, the id is its `v` parameter. A non-watch URL containing `youtu.be` gets the `YoutuBeId` segment. A URL mentioning neither YouTube form has no id. |
| `Trailer.Thumbnail` | client/app/add-movie/page.tsx:162-181 | A non-empty video id gives YouTube's `hqdefault.jpg`. Otherwise a Vimeo URL gives the Vimeo placeholder, and everything else, including a URL that failed to parse, gives the invalid-URL placeholder. |
| `Trailer.YoutuBeThumbnail` | client/app/add-movie/page.tsx:168-177 | A youtu.be URL that is not a watch URL gets the image for its path segment when that is non-empty. |
| `AddMovie.TokenShapeIffTwoDots` | client/app/add-movie/page.tsx:77 | The token passes the format test iff it contains exactly two dots. |
| `AddMovie.CheckFirstFailureWins` | client/app/add-movie/page.tsx:52-108 | `AddMovie.Check` is the chain of checks in `handleSubmit` (:52-108). The checks run in this order, and each stage is reached iff all earlier checks passed and its own failed: fields, trailer, token, shape, payload, `exp`, then expiry with refresh. An unexpired token is sent as is. An expired one is replaced by a non-empty refreshed token, or the submission stops. |
| `AddMovie.StageError` | client/app/add-movie/page.tsx:53-111 | Every stopped submission shows a non-empty message. A bad format, an undecodable payload and a missing `exp` share the "corrupted token" message. |
| `AddMovie.FreshTokenIgnoresRefresh` | client/app/add-movie/page.tsx:97-108 | When the token has not expired, the refresh result plays no part. |
| `AddMovie.UploadError` | client/app/add-movie/page.tsx:150-152 | A failed upload shows the server's message when there is one, and the default text otherwise. |
| `AddMovie.RatingFromInput` | client/app/add-movie/page.tsx:299 | The rating is the parsed number unless that is NaN or 0, in which case it is 1. It is never 0. |
| `AddMovie.PreviewFor` | client/app/add-movie/page.tsx:35-39 | There is a preview iff a file was chosen and its type starts with `image/`. The preview is that file's object URL. |
| `AddMovie.AddMovieForm.constructor` | client/app/add-movie/page.tsx:13-23 | The form starts empty, with rating 5, no preview, no error and not submitting. |
| `AddMovie.AddMovieForm.HandleFileChange` | client/app/add-movie/page.tsx:29-40 | The first chosen file (or none) goes into the firing input's field. The preview is recomputed from it, whichever input fired. Choosing a non-image movie file clears the poster's preview and keeps the chosen poster (:248). Nothing else changes. |
| `AddMovie.AddMovieForm.HandleRatingChange` | client/app/add-movie/page.tsx:299 | The rating takes the fallback value of the parsed input. |
| `AddMovie.AddMovieForm.HandleYearChange` | client/app/add-movie/page.tsx:212 | An empty input blanks the year. Any other input stores what `parseInt` gave. |
| `AddMovie.AddMovieForm.ResetForm` | client/app/add-movie/page.tsx:136-144 | Every field is reset: empty title, review and trailer, no genres, blank year, rating 5, and no poster, preview or movie file. |
| `AddMovie.AddMovieForm.Validate` | client/app/add-movie/page.tsx:52-115 | The early-exit checks in source order stop at exactly the stage `Check` gives. |
| `AddMovie.AddMovieForm.HandleSubmit` | client/app/add-movie/page.tsx:47-160 | An upload is sent iff every check passes, and it carries the checked token. A stopped submission shows its message and changes no field. Success resets the form with no error. A failure shows the upload error. `isSubmitting` ends false on every path. |
| `Email.ValidEmailIffShape` | client/app/login/page.tsx:33 | `Email.IsValidEmail` is the regex `^[^\s@]+@[^\s@]+\.[^\s@]+$` (:33). The email regex accepts a string iff it has no whitespace and exactly one `@`, with non-empty text before the `@` and a `.` after it that has text on both sides. |
| `Login.LoginPrecheck` | client/app/login/page.tsx:27-37 | A missing email or password stops the submission first. Only then is the email shape checked. A request is sent iff both are present and the email is valid. |
| `Login.PrecheckError` | client/app/login/page.tsx:28-34 | A submission stopped before the request shows a non-empty message. |
| `Login.LoginError` | client/app/login/page.tsx:49-51 | A failed login shows the server's message when present, and the fixed default text otherwise. |
| `Login.LoginForm.constructor` | client/app/login/page.tsx:17-20 | The form starts empty, with no error and not submitting. |
| `Login.LoginForm.HandleSubmit` | client/app/login/page.tsx:22-56 | A request is sent iff the prechecks pass. Success installs the session via `login` and clears both fields. Failure shows the login error and leaves the session and fields alone. `isSubmitting` ends false on every path. |
| `Login.LoginForm.HandleInputChange` | client/app/login/page.tsx:58-62 | Only the field named by the input changes. An unknown name changes nothing. |
| `Register.RegisterPrecheck` | client/app/register/page.tsx:20-30 | A missing username, email or password stops the submission first. Only then is the email shape checked. A request is sent iff all three are present and the email is valid. |
| `Register.RegisterForm.constructor` | client/app/register/page.tsx:9-13 | The form starts empty, with no error and not submitting. |
| `Register.RegisterForm.HandleSubmit` | client/app/register/page.tsx:15-44 | A request is sent iff the prechecks pass. Success clears all three fields and the error. Any failure shows "Failed to register" and keeps the fields. `isSubmitting` ends false on every path. |
| `Register.RegisterForm.HandleInputChange` | client/app/register/page.tsx:46-51 | Only the field named by the input changes. An unknown name changes nothing. |
| `AuthContext.Restored` | client/app/contexts/AuthContext.tsx:22-30 | The token and its header are restored only from a stored non-empty `token`, and the user only from a stored `user`. Otherwise the state is left as it was, and storage is untouched. |
| `AuthContext.LoggedIn` | client/app/contexts/AuthContext.tsx:32-39 | Login writes `token` and `user`. It writes `refreshToken` only when a non-empty one is given, and otherwise leaves the stored one alone. Every other key is untouched. The state and the `Bearer` header follow the new token. |
| `AuthContext.LoggedOut` | client/app/contexts/AuthContext.tsx:41-48 | Logout removes the three session keys and leaves every other key. It clears the token, the user and the header. |
| `AuthContext.LogoutIdempotent` | client/app/contexts/AuthContext.tsx:41-48 | Logging out twice is the same as logging out once. |
| `AuthContext.LoginThenLogout` | client/app/contexts/AuthContext.tsx:32-48 | Logging in and then out is the same as logging out: nothing outside the session keys is disturbed. |
| `AuthContext.AfterRefresh` | client/app/contexts/AuthContext.tsx:50-74 | With no stored refresh token, or a failed request, the result is a logout and null. Otherwise the new token is stored and installed with its header and returned, and every other key and the user are unchanged. |
| `AuthContext.AuthProvider.constructor` | client/app/contexts/AuthContext.tsx:18-19 | The provider starts with no token or user, over the existing storage and header. |
| `AuthContext.AuthProvider.RestoreSession` | client/app/contexts/AuthContext.tsx:22-30 | The mount effect's new state is `Restored` of the old one. |
| `AuthContext.AuthProvider.Login` | client/app/contexts/AuthContext.tsx:32-39 | The new state is `LoggedIn` of the old one. |
| `AuthContext.AuthProvider.Logout` | client/app/contexts/AuthContext.tsx:41-48 | The new state is `LoggedOut` of the old one. |
| `AuthContext.AuthProvider.RefreshToken` | client/app/contexts/AuthContext.tsx:50-74 | The new state and the returned token are `AfterRefresh` of the old state and the endpoint's reply. |
| `AuthContext.UseAuth` | client/app/contexts/AuthContext.tsx:83-87 | `useAuth` returns the provider's value iff there is one, and otherwise throws its fixed error. |
| `AuthMiddleware.BearerToken` | server/src/middleware/auth.ts:14 | The token is present iff the header exists and contains a space. It is the second space-separated field: the header starts with a space-free scheme, a space and the token, followed by nothing or by another space. |
| `AuthMiddleware.Authenticate` | server/src/middleware/auth.ts:13-31 | Every response is a 401. "No token" comes iff the token is missing or empty. "Invalid or expired" comes iff verification fails or the lookup throws. "User not found" comes iff no user matches. `next` is called iff all pass, and carries the decoded claims. |
| `AuthMiddleware.Exchange.constructor` | server/src/middleware/auth.ts:13 | A request arrives with no user set, nothing sent and `next` not called. |
| `AuthMiddleware.Exchange.Auth` | server/src/middleware/auth.ts:13-31 | On success, `req.user` is set and `next` is called exactly once, with nothing sent. Otherwise exactly one 401 is sent, `next` is not called and `req.user` is untouched. |
| `UploadFilter.FileFilter` | server/src/middleware/multer.ts:6-14 | A poster is rejected iff its type lacks the `image/` prefix. A movie file is rejected iff its type is not exactly `video/mp4`. Everything else is accepted, and the callback answers once. |
| `UploadFilter.MaxFileSizeInBytes` | server/src/middleware/multer.ts:19 | The size limit is 104857600 bytes. |
| `UploadFilter.MovieFileParametersRejected` | server/src/middleware/multer.ts:10-12 | A movie type with anything after `video/mp4`, such as codec parameters, is rejected. |

## Left out

- Rendering, the `translateX` style string, the window resize listener and its
  teardown, and the movie cards are not modelled. The width is an integer
  input, and the offset is an exact `real` rather than a floating-point number.
- The HTTP requests are not modelled. Each request's outcome is a parameter:
  the login, registration, refresh and upload endpoints. Page navigation
  (`router.push`, including after a failed upload with status 401),
  `setTimeout`, toasts, `alert` and console output are omitted.
- `AddMovie.AddMovieForm.HandleSubmit` takes the value `refreshToken()` returns
  as a parameter. The effect of that call on the session (a logout when it
  fails) is modelled separately, by `AuthContext.AfterRefresh`, and not
  composed with the form.
- `JSON.parse(atob(...))` is a decoder parameter, and its failure is `None`.
  The `exp` claim is an integer. Non-numeric or fractional claims are not
  modelled.
- The `typeof token !== 'string'` test never fires in the model, because the
  session token is a string.
- `jwt.verify` and `User.findOne` are oracle parameters. The secret key and
  the database are not modelled.
- `handleGenreChange` and the inline setters for title, review and trailer
  URL are not modelled. They are plain assignments of the input's value, with
  no checks.
- Users are carried as their JSON text, so `JSON.stringify` and `JSON.parse`
  of a user are the identity.
- An exception thrown by `login()` itself inside the login page's `try` is not
  modelled.
- Asynchronous interleavings are not modelled, such as a second submission
  while one is in flight, or a resize during a transition. Each handler runs
  to completion.
- The server controllers, models, routes, process start-up and database
  connection are not part of this model.
