/**
 * The Express error handler: turns a thrown error into an HTTP status and a
 * JSON body. Three upload-related checks answer at once, in order; then the
 * database error checks each overwrite the answer, so the last match wins;
 * then a status and message fall back to 500 and `Server Error`.
 */
module ErrorHandler {
  import opened Wrappers
  import opened Text

  /** `err.code`: absent, a text code (Multer) or a number (MongoDB). */
  datatype ErrCode = NoCode | StrCode(s: string) | NumCode(n: int)

  /**
   * The fields of an error the handler reads. `validationMessages` stands for
   * the messages of `err.errors`, in order.
   */
  datatype Error = Error(name: string, code: ErrCode, message: Option<string>,
                         statusCode: Option<int>, validationMessages: seq<string>)

  datatype Response = Response(status: int, success: bool, message: string,
                               details: Option<string>, tip: Option<string>)

  const FileTooLargeMessage: string := "Video file is too large. Maximum size is 100MB."
  const FileTooLargeDetails: string := "Please compress your video before uploading. Recommended: 2-5 minutes at 720p or 1080p."
  const FileTooLargeTip: string := "Use HandBrake (free app) or CloudConvert (online) to compress your video."
  const UnexpectedFileMessage: string := "Unexpected file field. Please ensure you are uploading only one video file."
  const InvalidTypeMessage: string := "Invalid file type. Only video files (MP4, MOV, AVI, WebM) are allowed."
  const InvalidTypeMarker: string := "Invalid file type"

  predicate IsFileTooLarge(err: Error) {
    err.name == "MulterError" && err.code == StrCode("LIMIT_FILE_SIZE")
  }

  predicate IsUnexpectedFile(err: Error) {
    err.name == "MulterError" && err.code == StrCode("LIMIT_UNEXPECTED_FILE")
  }

  /** `err.message && err.message.includes('Invalid file type')` */
  predicate IsInvalidType(err: Error) {
    err.message.Some? && err.message.value != "" && Includes(err.message.value, InvalidTypeMarker)
  }

  /** `values.join(', ')` */
  function Join(values: seq<string>): string {
    if values == [] then ""
    else if |values| == 1 then values[0]
    else Join(values[..|values| - 1]) + ", " + values[|values| - 1]
  }

  /** The copy of the error with the overwrites of the database checks, as (message, statusCode). */
  function Overwritten(err: Error): (r: (Option<string>, Option<int>))
    ensures err.name == "ValidationError" ==> r == (Some(Join(err.validationMessages)), Some(400))
    ensures err.name != "ValidationError" && err.code == NumCode(11000) ==>
      r == (Some("Duplicate field value entered"), Some(400))
    ensures err.name == "CastError" && err.code != NumCode(11000) ==> r == (Some("Resource not found"), Some(404))
    ensures err.name != "ValidationError" && err.name != "CastError" && err.code != NumCode(11000) ==>
      r == (err.message, err.statusCode)
  {
    var e0 := (err.message, err.statusCode);
    var e1 := if err.name == "CastError" then (Some("Resource not found"), Some(404)) else e0;
    var e2 := if err.code == NumCode(11000) then (Some("Duplicate field value entered"), Some(400)) else e1;
    if err.name == "ValidationError" then (Some(Join(err.validationMessages)), Some(400)) else e2
  }

  /** `error.statusCode || 500` */
  function StatusOr500(s: Option<int>): int {
    if s.Some? && s.value != 0 then s.value else 500
  }

  /** `error.message || 'Server Error'` */
  function MessageOrDefault(m: Option<string>): string {
    if m.Some? && m.value != "" then m.value else "Server Error"
  }

  /** `errorHandler`: the response for an error. */
  function Handle(err: Error): (r: Response)
    ensures !r.success
    ensures IsFileTooLarge(err) ==>
      r == Response(400, false, FileTooLargeMessage, Some(FileTooLargeDetails), Some(FileTooLargeTip))
    ensures !IsFileTooLarge(err) && IsUnexpectedFile(err) ==>
      r == Response(400, false, UnexpectedFileMessage, None, None)
    ensures !IsFileTooLarge(err) && !IsUnexpectedFile(err) && IsInvalidType(err) ==>
      r == Response(400, false, InvalidTypeMessage, None, None)
    ensures !IsFileTooLarge(err) && !IsUnexpectedFile(err) && !IsInvalidType(err) ==>
      r == Response(StatusOr500(Overwritten(err).1), false, MessageOrDefault(Overwritten(err).0), None, None)
    ensures r.details.Some? <==> IsFileTooLarge(err)
    ensures r.message != ""
  {
    if IsFileTooLarge(err) then
      Response(400, false, FileTooLargeMessage, Some(FileTooLargeDetails), Some(FileTooLargeTip))
    else if IsUnexpectedFile(err) then
      Response(400, false, UnexpectedFileMessage, None, None)
    else if IsInvalidType(err) then
      Response(400, false, InvalidTypeMessage, None, None)
    else
      var (message, statusCode) := Overwritten(err);
      Response(StatusOr500(statusCode), false, MessageOrDefault(message), None, None)
  }

  /** An error none of the checks recognise keeps its own status and message, or the defaults. */
  lemma FallThrough(err: Error)
    requires !IsFileTooLarge(err) && !IsUnexpectedFile(err) && !IsInvalidType(err)
    requires err.name != "CastError" && err.name != "ValidationError" && err.code != NumCode(11000)
    ensures Handle(err).status == (if err.statusCode.Some? && err.statusCode.value != 0 then err.statusCode.value else 500)
    ensures Handle(err).message == (if err.message.Some? && err.message.value != "" then err.message.value else "Server Error")
  {
  }

  /**
   * The checks after the three upload answers overwrite one another: a
   * validation error that also carries code 11000 is reported as a
   * validation error.
   */
  lemma LaterOverwriteWins(err: Error)
    requires !IsInvalidType(err) && err.name == "ValidationError" && err.code == NumCode(11000)
    ensures Handle(err) == Response(400, false, MessageOrDefault(Some(Join(err.validationMessages))), None, None)
  {
  }

  /** The upload answers come first: a too-large file is reported as such whatever its message says. */
  lemma FirstMatchWins(err: Error)
    requires IsFileTooLarge(err) && IsInvalidType(err)
    ensures Handle(err).message == FileTooLargeMessage
  {
  }

  /** The validation message lists every member message, in order, separated by `, `. */
  lemma {:induction false} JoinParts(values: seq<string>)
    requires values != []
    ensures |Join(values)| == SumLengths(values) + 2 * (|values| - 1)
    ensures StartsWith(Join(values), values[0]) && EndsWith(Join(values), values[|values| - 1])
    ensures |values| == 1 ==> Join(values) == values[0]
    ensures |values| > 1 ==> Join(values) == Join(values[..|values| - 1]) + ", " + values[|values| - 1]
  {
    if |values| > 1 {
      var init := values[..|values| - 1];
      JoinParts(init);
      assert init[0] == values[0];
      assert SumLengths(values) == SumLengths(init) + |values[|values| - 1]|;
      var j := Join(init);
      assert Join(values) == j + ", " + values[|values| - 1];
      assert Join(values)[..|values[0]|] == j[..|values[0]|];
    }
  }

  function SumLengths(values: seq<string>): nat {
    if values == [] then 0 else SumLengths(values[..|values| - 1]) + |values[|values| - 1]|
  }

  /** The status is 400, 404, 500 or the error's own non-zero status code. */
  lemma StatusValues(err: Error)
    ensures var s := Handle(err).status;
      s == 400 || s == 404 || s == 500 || (err.statusCode.Some? && s == err.statusCode.value)
  {
  }
}
