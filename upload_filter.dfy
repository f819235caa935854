/** The upload middleware's per-file filter and size limit. */
module UploadFilter {
  import opened Strings

  /** `limits.fileSize`: 100 MiB, in bytes. */
  const MaxFileSize: nat := 100 * 1024 * 1024

  const PosterError: string := "Poster must be an image"
  const MovieFileError: string := "Movie file must be MP4"

  /** The single callback invocation: `cb(new Error(message))` or `cb(null, true)`. */
  datatype FilterCall = Reject(message: string) | Accept

  /**
   * `fileFilter`: a poster must have an `image/` type, a movie file must be
   * exactly `video/mp4`, and any other field passes.
   */
  function FileFilter(fieldname: string, mimetype: string): (cb: FilterCall)
    ensures cb == Reject(PosterError) <==> fieldname == "poster" && !StartsWith(mimetype, "image/")
    ensures cb == Reject(MovieFileError) <==> fieldname == "movieFile" && mimetype != "video/mp4"
    ensures cb.Accept? <==>
      (fieldname == "poster" ==> StartsWith(mimetype, "image/")) &&
      (fieldname == "movieFile" ==> mimetype == "video/mp4")
  {
    if fieldname == "poster" && !StartsWith(mimetype, "image/") then Reject(PosterError)
    else if fieldname == "movieFile" && mimetype != "video/mp4" then Reject(MovieFileError)
    else Accept
  }

  lemma MaxFileSizeInBytes()
    ensures MaxFileSize == 104857600
  {
  }

  /** A movie file with parameters after `video/mp4` is refused: the test is equality. */
  lemma MovieFileParametersRejected(params: string)
    requires params != ""
    ensures FileFilter("movieFile", "video/mp4" + params) == Reject(MovieFileError)
  {
    assert |"video/mp4" + params| > |"video/mp4"|;
  }
}
