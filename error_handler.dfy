/**
 * The error middleware: `errorHandler` turns an error that reached it into
 * a status and a JSON body, and `notFound` answers a request no route
 * matched. The handler starts from the error's own status and message and
 * then runs a fixed sequence of checks; each matching check overwrites both,
 * so the last one that matches decides.
 */
module ErrorHandler {
  import opened Wrappers
  import opened Text

  /**
   * The error record: its class name, message and optional status; the
   * driver's numeric code, the keys of `keyValue` in order, the messages of
   * `errors` in order, and the stack trace.
   */
  datatype AppError = AppError(
    name: string,
    message: string,
    statusCode: Option<int>,
    code: Option<int>,
    keyValueKeys: Option<seq<string>>,
    errors: Option<seq<string>>,
    stack: Option<string>)

  /** The JSON body: `success` is always false; `stack` is sent only in development. */
  datatype ErrorBody = ErrorBody(success: bool, message: string, stack: Option<string>)

  datatype ErrorReply = ErrorReply(status: int, body: ErrorBody)

  const DuplicateKey := 11000
  const DefaultMessage := "Internal Server Error"

  /** `statusCode || 500`: an absent or zero status becomes 500. */
  function StartStatus(e: AppError): int {
    if e.statusCode.None? || e.statusCode.value == 0 then 500 else e.statusCode.value
  }

  /** `message || 'Internal Server Error'`: an empty message is replaced. */
  function StartMessage(e: AppError): string {
    if e.message == "" then DefaultMessage else e.message
  }

  /** `${Object.keys(keyValue || {})[0]} already exists`: with no key, the text is "undefined". */
  function DuplicateMessage(keys: Option<seq<string>>): string {
    var ks := keys.GetOr([]);
    (if ks == [] then "undefined" else ks[0]) + " already exists"
  }

  /** The field messages of a validation error, joined by ", ". */
  function ValidationMessage(errors: Option<seq<string>>): string {
    Join(errors.GetOr([]), ", ")
  }

  /**
   * The status and message the checks settle on, read from the last check
   * backwards: the first match here is the last match of the handler.
   */
  function Classify(e: AppError): (int, string) {
    if e.name == "TokenExpiredError" then (401, "Token expired")
    else if e.name == "JsonWebTokenError" then (401, "Invalid token")
    else if e.name == "CastError" then (400, "Invalid ID format")
    else if e.name == "ValidationError" then (400, ValidationMessage(e.errors))
    else if e.code == Some(DuplicateKey) then (400, DuplicateMessage(e.keyValueKeys))
    else (StartStatus(e), StartMessage(e))
  }

  /** `errorHandler`: the sequence of checks, each overwriting status and message. */
  method HandleError(e: AppError, nodeEnv: Option<string>) returns (reply: ErrorReply)
    ensures (reply.status, reply.body.message) == Classify(e)
    ensures !reply.body.success
    ensures reply.body.stack == (if nodeEnv == Some("development") then e.stack else None)
  {
    var statusCode := StartStatus(e);
    var message := StartMessage(e);
    if e.code == Some(DuplicateKey) {
      statusCode := 400;
      message := DuplicateMessage(e.keyValueKeys);
    }
    if e.name == "ValidationError" {
      statusCode := 400;
      message := ValidationMessage(e.errors);
    }
    if e.name == "CastError" {
      statusCode := 400;
      message := "Invalid ID format";
    }
    if e.name == "JsonWebTokenError" {
      statusCode := 401;
      message := "Invalid token";
    }
    if e.name == "TokenExpiredError" {
      statusCode := 401;
      message := "Token expired";
    }
    var stack := if nodeEnv == Some("development") then e.stack else None;
    reply := ErrorReply(statusCode, ErrorBody(false, message, stack));
  }

  /** A later check overrides an earlier one: a duplicate-key error named `CastError` ends as "Invalid ID format". */
  lemma LaterCheckWins(e: AppError)
    requires e.code == Some(DuplicateKey) && e.name == "CastError"
    ensures Classify(e) == (400, "Invalid ID format")
  {
  }

  /** A duplicate-key error names the first key of `keyValue`. */
  lemma DuplicateNamesFirstKey(e: AppError, key: string, rest: seq<string>)
    requires e.code == Some(DuplicateKey) && e.keyValueKeys == Some([key] + rest)
    requires e.name !in {"ValidationError", "CastError", "JsonWebTokenError", "TokenExpiredError"}
    ensures Classify(e) == (400, key + " already exists")
  {
  }

  /** A validation error's message mentions every field message. */
  lemma {:induction false} ValidationMentionsEveryField(e: AppError, k: nat)
    requires e.name == "ValidationError" && e.errors.Some? && k < |e.errors.value|
    ensures Classify(e).0 == 400 && Contains(Classify(e).1, e.errors.value[k])
  {
    JoinContainsParts(e.errors.value, ", ", k);
  }

  /** An error no check recognises keeps its own status and message, with 500 and a stock message as fallbacks. */
  lemma UnrecognisedKeepsOwn(e: AppError)
    requires e.name !in {"ValidationError", "CastError", "JsonWebTokenError", "TokenExpiredError"}
    requires e.code != Some(DuplicateKey)
    ensures Classify(e).0 == (if e.statusCode.Some? && e.statusCode.value != 0 then e.statusCode.value else 500)
    ensures Classify(e).1 == (if e.message != "" then e.message else DefaultMessage)
  {
  }

  /** Every status the checks choose is a client error, unless the error's own status or the 500 fallback survives. */
  lemma RecognisedAreClientErrors(e: AppError)
    requires e.name in {"ValidationError", "CastError", "JsonWebTokenError", "TokenExpiredError"} || e.code == Some(DuplicateKey)
    ensures Classify(e).0 in {400, 401}
  {
  }

  /** `notFound`: always 404 with the requested URL in the message. */
  function NotFound(url: string): (reply: ErrorReply)
    ensures reply.status == 404 && !reply.body.success && reply.body.stack.None?
    ensures Contains(reply.body.message, url)
  {
    var message := "Route " + url + " not found";
    assert OccursAt(message, url, |"Route "|);
    ErrorReply(404, ErrorBody(false, message, None))
  }
}
