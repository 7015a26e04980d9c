/** The upload check of src/utils/fileValidator.js: a JPEG or PNG of at most
    2 MiB. */
module FileValidator {

  const AllowedFileTypes: seq<string> := ["image/jpeg", "image/png"]

  /** 2 × 1024 × 1024 bytes. */
  const MaxFileSize: int := 2 * 1024 * 1024

  const InvalidTypeMessage := "Invalid file type"
  const TooLargeMessage := "File size exceeds limit"

  /** `validateFile` returns `true` or throws one of two errors. */
  datatype Verdict = Accepted | Thrown(message: string)

  /** `validateFile({ mimetype, size })`: the type is checked before the
      size. */
  function ValidateFile(mimetype: string, size: int): (r: Verdict)
    ensures r == Accepted <==> mimetype in AllowedFileTypes && size <= MaxFileSize
    ensures mimetype !in AllowedFileTypes ==> r == Thrown(InvalidTypeMessage)
    ensures mimetype in AllowedFileTypes && size > MaxFileSize ==> r == Thrown(TooLargeMessage)
  {
    if mimetype !in AllowedFileTypes then Thrown(InvalidTypeMessage)
    else if size > MaxFileSize then Thrown(TooLargeMessage)
    else Accepted
  }

  /** The limit is inclusive: exactly 2 MiB passes, one byte more does not;
      an oversized file of a wrong type is reported for its type. */
  lemma LimitInclusive()
    ensures ValidateFile("image/png", 2097152) == Accepted
    ensures ValidateFile("image/jpeg", 2097153) == Thrown(TooLargeMessage)
    ensures ValidateFile("image/gif", 2097153) == Thrown(InvalidTypeMessage)
  {
    assert "image/gif" != AllowedFileTypes[0] && "image/gif" != AllowedFileTypes[1];
  }
}
