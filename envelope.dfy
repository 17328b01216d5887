/**
 * The exceptions the registrations controller rescues and the JSON envelopes
 * it renders (app/controllers/api/v2/registrations_controller.rb, lines 4-5,
 * 14-15, 49-65). A response is modelled as its three observable parts; the
 * JSON serialisation itself is not modelled.
 */
module Envelope {
  import opened Wrappers

  const MISSING_ATTRIBUTE_CLASS: string := "ActiveModel::MissingAttributeError"
  const CONTROLLER_ERROR_CLASS: string := "Api::V2::RegistrationsControllerError"

  /** The two exception classes that `rescue_from` turns into a 500 response. */
  datatype Error =
    | MissingAttributeError(message: string)
    | RegistrationsControllerError(message: string)
  {
    /** Ruby's `err.class`, as it appears in the log. */
    function ClassName(): string
    {
      match this
      case MissingAttributeError(_) => MISSING_ATTRIBUTE_CLASS
      case RegistrationsControllerError(_) => CONTROLLER_ERROR_CLASS
    }
  }

  /** What the client sees: the `result` and `message` of the body, and the HTTP status. */
  datatype Response = Response(result: bool, message: string, status: int)

  const SUCCESS_MESSAGE: string := "Success!"
  const LOG_PREFIX: string := "[RegistrationsController] "
  const EXCEPTION_HEAD: string := "Exception "

  /** `register_success`: the standard 200 response. */
  function RegisterSuccess(): (r: Response)
    ensures r.result && r.status == 200 && r.message == SUCCESS_MESSAGE
  {
    Response(true, SUCCESS_MESSAGE, 200)
  }

  /** `register_error`: any rescued exception becomes a 500 response carrying its message. */
  function RegisterError(err: Error): (r: Response)
    ensures !r.result && r.status == 500 && r.message == err.message
    ensures r != RegisterSuccess()
  {
    Response(false, err.message, 500)
  }

  /** `log`: every line the controller writes to the Rails log carries the controller's tag. */
  function LogLine(msg: string): (line: string)
    ensures |line| == |LOG_PREFIX| + |msg|
    ensures line[..|LOG_PREFIX|] == LOG_PREFIX && line[|LOG_PREFIX|..] == msg
  {
    LOG_PREFIX + msg
  }

  /** Ruby's string interpolation of a possibly nil value: nil interpolates as the empty string. */
  function Interpolate(s: Option<string>): string
  {
    match s
    case None => ""
    case Some(v) => v
  }

  /** The message logged for an exception: "Exception <class>: <message>". */
  function ExceptionMessage(className: string, message: string): string
  {
    EXCEPTION_HEAD + className + ": " + message
  }

  /** The line `register_error` writes for a rescued exception. */
  function ErrorLog(err: Error): string
  {
    LogLine(ExceptionMessage(err.ClassName(), err.message))
  }

  /**
   * The line logged for a rescued exception identifies it: two exceptions
   * that log the same line are of the same class and carry the same message.
   */
  lemma ErrorLogIdentifiesError(e1: Error, e2: Error)
    requires ErrorLog(e1) == ErrorLog(e2)
    ensures e1 == e2
  {
    var c1, c2 := e1.ClassName(), e2.ClassName();
    var m1 := ExceptionMessage(c1, e1.message);
    var m2 := ExceptionMessage(c2, e2.message);
    assert m1 == ErrorLog(e1)[|LOG_PREFIX|..] == m2;
    // The class names differ at their second character, which follows the ten-character head.
    assert m1[|EXCEPTION_HEAD| + 1] == c1[1];
    assert m2[|EXCEPTION_HEAD| + 1] == c2[1];
    assert c1 == c2;
    var at := |EXCEPTION_HEAD| + |c1| + 2;
    assert m1[at..] == e1.message;
    assert m2[at..] == e2.message;
  }
}
