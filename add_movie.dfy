/**
 * The add-movie page: the form's state, the checks a submission passes
 * through before anything is uploaded (first failure wins), the reset after
 * a successful upload, and the input handlers behind the poster preview and
 * the rating and year fields.
 *
 * The browser and the network are parameters: the decoded token payload
 * (`JSON.parse(atob(...))`), `Date.now()`, the value `refreshToken()` comes
 * back with, `URL.createObjectURL`, `parseInt` and the upload's outcome.
 */
module AddMovie {
  import opened Wrappers
  import opened Strings
  import Trailer

  /** A chosen file; only its MIME type (`file.type`) is ever inspected. */
  datatype File = File(name: string, mimeType: string)

  /** The year field: `''`, or what `parseInt` made of the input (`None` for `NaN`). */
  datatype Year = Blank | Number(parsed: Option<int>)

  /** JavaScript truthiness of the year: a number other than 0 and `NaN`. */
  predicate YearTruthy(y: Year) {
    y.Number? && y.parsed.Some? && y.parsed.value != 0
  }

  /** The decoded token payload; `exp` is `None` when the claim is absent. */
  datatype Payload = Payload(exp: Option<int>)

  const RequiredError: string := "Please fill out all required fields and upload both a poster and movie file."
  const TrailerError: string := "Please enter a valid YouTube or Vimeo URL for the trailer."
  const LoginRequiredError: string := "Please log in to upload a movie."
  const SessionExpiredError: string := "Session expired. Please log in again."
  const CorruptTokenError: string := "Invalid or corrupted token. Please log in again."
  const UploadDefaultError: string := "Failed to upload movie. Please try again."
  const DefaultRating: int := 5

  /** The values a submission reads (and a successful upload resets). */
  datatype Form = Form(
    title: string, year: Year, genres: seq<string>, review: string,
    poster: Option<File>, movieFile: Option<File>, trailerUrl: string, rating: int)

  /** The form as it is first shown and as a successful upload leaves it. */
  const EmptyForm: Form := Form("", Blank, [], "", None, None, "", DefaultRating)

  /** The first check: title, year, at least one genre, review, poster and movie file. */
  predicate RequiredPresent(f: Form) {
    f.title != "" && YearTruthy(f.year) && |f.genres| > 0 && f.review != "" && f.poster.Some? && f.movieFile.Some?
  }

  /** An empty trailer URL is not checked; any other must match the trailer expression. */
  predicate TrailerAccepted(url: string) {
    url == "" || Trailer.TrailerTest(url)
  }

  /** The token format test: it contains a `.` and splits on `.` into three segments. */
  predicate TokenShape(t: string) {
    Contains(t, ".") && |Split(t, ".")| == 3
  }

  /** A token has the expected shape exactly when it holds two dots. */
  lemma TokenShapeIffTwoDots(t: string)
    ensures TokenShape(t) <==> CountChar(t, '.') == 2
  {
    SplitCharCount(t, '.');
    CountCharOccurs(t, '.');
    SplitSinglePart(t, ".");
  }

  /** The payload segment of a well-shaped token. */
  function PayloadSegment(t: string): string
    requires TokenShape(t)
  {
    Split(t, ".")[1]
  }

  /** `exp * 1000 < Date.now()`: `exp` is in seconds, `now` in milliseconds. */
  predicate Expired(exp: int, now: int) {
    exp * 1000 < now
  }

  /** Where a submission stops, in the order the checks run; `Proceed` carries the token the upload is sent with. */
  datatype Stage =
    | MissingFields
    | InvalidTrailer
    | NotLoggedIn
    | MalformedToken
    | UndecodablePayload
    | MissingExpiry
    | RefreshFailed
    | Proceed(authToken: string)

  /**
   * The checks of `handleSubmit`, first failure wins: required fields,
   * trailer URL, a token at all, its shape, its payload, the `exp` claim, and
   * expiry, where an expired token is replaced by what `refreshToken()`
   * returned (`refreshed`), itself rejected when empty.
   */
  function Check(f: Form, token: Option<string>, decode: string -> Option<Payload>, now: int, refreshed: Option<string>): Stage
  {
    if !RequiredPresent(f) then MissingFields
    else if !TrailerAccepted(f.trailerUrl) then InvalidTrailer
    else if !Truthy(token) then NotLoggedIn
    else
      var t := token.value;
      if !TokenShape(t) then MalformedToken
      else match decode(PayloadSegment(t))
        case None => UndecodablePayload
        case Some(p) =>
          if p.exp.None? || p.exp.value == 0 then MissingExpiry
          else if Expired(p.exp.value, now) then
            if Truthy(refreshed) then Proceed(refreshed.value) else RefreshFailed
          else Proceed(t)
  }

  /** The checks before the token's own: required fields, trailer URL, a token at all. */
  predicate FormAndTokenPresent(f: Form, token: Option<string>) {
    RequiredPresent(f) && TrailerAccepted(f.trailerUrl) && Truthy(token)
  }

  /** The payload decoded from a well-shaped token carries a non-zero `exp`. */
  predicate HasExpiry(token: string, decode: string -> Option<Payload>)
    requires TokenShape(token)
  {
    var p := decode(PayloadSegment(token));
    p.Some? && p.value.exp.Some? && p.value.exp.value != 0
  }

  /**
   * First failure wins: each stage is reached exactly when every check
   * before it passed and its own failed, and a submission proceeds with the
   * stored token, or with the refreshed one when the stored one expired.
   */
  lemma CheckFirstFailureWins(f: Form, token: Option<string>, decode: string -> Option<Payload>, now: int, refreshed: Option<string>)
    ensures var s := Check(f, token, decode, now, refreshed);
      && (s == MissingFields <==> !RequiredPresent(f))
      && (s == InvalidTrailer <==> RequiredPresent(f) && !TrailerAccepted(f.trailerUrl))
      && (s == NotLoggedIn <==> RequiredPresent(f) && TrailerAccepted(f.trailerUrl) && !Truthy(token))
      && (s == MalformedToken <==> FormAndTokenPresent(f, token) && CountChar(token.value, '.') != 2)
    ensures var s := Check(f, token, decode, now, refreshed);
      s in {UndecodablePayload, MissingExpiry, RefreshFailed} || s.Proceed? ==>
        && FormAndTokenPresent(f, token) && CountChar(token.value, '.') == 2 && TokenShape(token.value)
        && (s == UndecodablePayload <==> decode(PayloadSegment(token.value)).None?)
        && (s == MissingExpiry <==> decode(PayloadSegment(token.value)).Some? && !HasExpiry(token.value, decode))
    ensures var s := Check(f, token, decode, now, refreshed);
      s == RefreshFailed || s.Proceed? ==>
        && HasExpiry(token.value, decode)
        && var expired := Expired(decode(PayloadSegment(token.value)).value.exp.value, now);
        && (s == RefreshFailed <==> expired && !Truthy(refreshed))
        && (s.Proceed? && !expired ==> s.authToken == token.value)
        && (s.Proceed? && expired ==> Truthy(refreshed) && s.authToken == refreshed.value)
  {
    if FormAndTokenPresent(f, token) {
      TokenShapeIffTwoDots(token.value);
    }
  }

  /** The message a stopped submission shows; a bad token, payload or `exp` share one. */
  function StageError(s: Stage): (e: string)
    requires !s.Proceed?
    ensures e != ""
    ensures e == CorruptTokenError <==> s in {MalformedToken, UndecodablePayload, MissingExpiry}
  {
    match s
    case MissingFields => RequiredError
    case InvalidTrailer => TrailerError
    case NotLoggedIn => LoginRequiredError
    case MalformedToken => CorruptTokenError
    case UndecodablePayload => CorruptTokenError
    case MissingExpiry => CorruptTokenError
    case RefreshFailed => SessionExpiredError
  }

  /** An unexpired token is sent as it is: the refresh result is never consulted. */
  lemma FreshTokenIgnoresRefresh(f: Form, token: Option<string>, decode: string -> Option<Payload>, now: int, r1: Option<string>, r2: Option<string>)
    requires Truthy(token) && TokenShape(token.value)
    requires var p := decode(PayloadSegment(token.value)); p.Some? && p.value.exp.Some? && !Expired(p.value.exp.value, now)
    ensures Check(f, token, decode, now, r1) == Check(f, token, decode, now, r2)
  {
  }

  /** What the upload request came back with: success, or an error with the server's `message` if any. */
  datatype UploadReply = Uploaded | UploadFailed(message: Option<string>)

  /** `err.response?.data?.message || 'Failed to upload movie. Please try again.'` */
  function UploadError(message: Option<string>): (e: string)
    ensures e != ""
    ensures Truthy(message) ==> e == message.value
    ensures !Truthy(message) ==> e == UploadDefaultError
  {
    if Truthy(message) then message.value else UploadDefaultError
  }

  /** `parseInt(value) || 1`: the parsed rating, or 1 when it is `NaN` or 0. */
  function RatingFromInput(parsed: Option<int>): (r: int)
    ensures r != 0
    ensures parsed.Some? && parsed.value != 0 ==> r == parsed.value
    ensures parsed.None? || parsed.value == 0 ==> r == 1
  {
    if parsed.Some? && parsed.value != 0 then parsed.value else 1
  }

  /**
   * The preview `handleFileChange` shows: an object URL for an `image/`
   * file, nothing for no file or any other type.
   */
  function PreviewFor(file: Option<File>, objectUrl: File -> string): (p: Option<string>)
    ensures p.Some? <==> file.Some? && StartsWith(file.value.mimeType, "image/")
    ensures p.Some? ==> p.value == objectUrl(file.value)
  {
    if file.Some? && StartsWith(file.value.mimeType, "image/") then Some(objectUrl(file.value)) else None
  }

  /** The two file inputs that share `handleFileChange`. */
  datatype FileInput = PosterInput | MovieFileInput

  /** The page's React state. */
  class AddMovieForm {
    var title: string
    var poster: Option<File>
    var posterPreview: Option<string>
    var movieFile: Option<File>
    var genres: seq<string>
    var year: Year
    var rating: int
    var review: string
    var trailerUrl: string
    var error: string
    var isSubmitting: bool

    /** The form values a submission reads. */
    function Values(): Form
      reads this
    {
      Form(title, year, genres, review, poster, movieFile, trailerUrl, rating)
    }

    /** First render: every `useState` initial value. */
    constructor ()
      ensures Values() == EmptyForm
      ensures posterPreview.None? && error == "" && !isSubmitting
    {
      title := "";
      poster := None;
      posterPreview := None;
      movieFile := None;
      genres := [];
      year := Blank;
      rating := DefaultRating;
      review := "";
      trailerUrl := "";
      error := "";
      isSubmitting := false;
    }

    /**
     * `handleFileChange`: store the first chosen file (or null) in the
     * input's own field and recompute the poster preview from it, whichever
     * input fired.
     */
    method HandleFileChange(input: FileInput, files: seq<File>, objectUrl: File -> string)
      modifies this
      ensures var chosen := if |files| > 0 then Some(files[0]) else None;
        && (input == PosterInput ==> poster == chosen && movieFile == old(movieFile))
        && (input == MovieFileInput ==> movieFile == chosen && poster == old(poster))
        && posterPreview == PreviewFor(chosen, objectUrl)
      ensures input == MovieFileInput && |files| > 0 && !StartsWith(files[0].mimeType, "image/") ==>
        posterPreview.None? && poster == old(poster)
      ensures title == old(title) && genres == old(genres) && year == old(year) && rating == old(rating)
      ensures review == old(review) && trailerUrl == old(trailerUrl)
      ensures error == old(error) && isSubmitting == old(isSubmitting)
    {
      var file := if |files| > 0 then Some(files[0]) else None;
      match input {
        case PosterInput => poster := file;
        case MovieFileInput => movieFile := file;
      }
      if file.Some? && StartsWith(file.value.mimeType, "image/") {
        posterPreview := Some(objectUrl(file.value));
      } else {
        posterPreview := None;
      }
    }

    /** The rating input's change handler. */
    method HandleRatingChange(parsed: Option<int>)
      modifies this`rating
      ensures rating == RatingFromInput(parsed)
    {
      rating := RatingFromInput(parsed);
    }

    /** The year input's change handler: blank for an empty input, else what `parseInt` gave. */
    method HandleYearChange(value: string, parsed: Option<int>)
      modifies this`year
      ensures year == if value != "" then Number(parsed) else Blank
    {
      year := if value != "" then Number(parsed) else Blank;
    }

    /** The reset after a successful upload: every field back to its initial value. */
    method ResetForm()
      modifies this
      ensures Values() == EmptyForm && posterPreview.None?
      ensures error == old(error) && isSubmitting == old(isSubmitting)
    {
      title := "";
      poster := None;
      posterPreview := None;
      movieFile := None;
      genres := [];
      year := Blank;
      rating := DefaultRating;
      review := "";
      trailerUrl := "";
    }

    /**
     * The checks at the head of `handleSubmit`, in their order, each an early
     * exit. `token` is the session's access token, `decode` the payload
     * decoder, `now` the clock and `refreshed` what `refreshToken()` returns
     * if it is called.
     */
    method Validate(token: Option<string>, decode: string -> Option<Payload>, now: int, refreshed: Option<string>)
      returns (stage: Stage)
      ensures stage == Check(Values(), token, decode, now, refreshed)
    {
      if title == "" || !YearTruthy(year) || |genres| == 0 || review == "" || poster.None? || movieFile.None? {
        return MissingFields;
      }
      if trailerUrl != "" && !Trailer.TrailerTest(trailerUrl) {
        return InvalidTrailer;
      }
      if !Truthy(token) {
        return NotLoggedIn;
      }
      var authToken := token.value;
      if !Contains(authToken, ".") || |Split(authToken, ".")| != 3 {
        TokenShapeIffTwoDots(authToken);
        return MalformedToken;
      }
      var payload := decode(Split(authToken, ".")[1]);
      if payload.None? {
        return UndecodablePayload;
      }
      if payload.value.exp.None? || payload.value.exp.value == 0 {
        return MissingExpiry;
      }
      if payload.value.exp.value * 1000 < now {
        if !Truthy(refreshed) {
          return RefreshFailed;
        }
        authToken := refreshed.value;
      }
      return Proceed(authToken);
    }

    /**
     * `handleSubmit`, with `reply` the upload's outcome. It answers with the
     * token the upload was sent with, or `None` when nothing was sent. A
     * stopped submission shows its message and leaves the form as it was; a
     * successful upload resets every field; every exit leaves
     * `isSubmitting` false.
     */
    method HandleSubmit(
      token: Option<string>, decode: string -> Option<Payload>, now: int,
      refreshed: Option<string>, reply: UploadReply)
      returns (sentWith: Option<string>)
      modifies this
      ensures !isSubmitting
      ensures var s := Check(old(Values()), token, decode, now, refreshed);
        && (sentWith.Some? <==> s.Proceed?)
        && (s.Proceed? ==> sentWith.value == s.authToken)
        && (!s.Proceed? ==> error == StageError(s) && Values() == old(Values()) && posterPreview == old(posterPreview))
        && (s.Proceed? && reply.Uploaded? ==> Values() == EmptyForm && posterPreview.None? && error == "")
        && (s.Proceed? && reply.UploadFailed? ==>
              error == UploadError(reply.message) && Values() == old(Values()) && posterPreview == old(posterPreview))
    {
      error := "";
      isSubmitting := true;
      assert Values() == old(Values());
      var stage := Validate(token, decode, now, refreshed);
      if !stage.Proceed? {
        error := StageError(stage);
        isSubmitting := false;
        return None;
      }
      sentWith := Some(stage.authToken);
      match reply {
        case Uploaded => ResetForm();
        case UploadFailed(message) => error := UploadError(message);
      }
      isSubmitting := false;
    }
  }
}
