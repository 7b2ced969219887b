/** Central handling of HTTP errors (error-handler.service): turning a failed
    response into an application error, and reporting it at most once per two
    seconds for the same message. */
module Errors {
  import opened Common
  import opened Strings
  import opened Models
  import opened Notifications

  /** Repeats of the same message within this many milliseconds are not shown. */
  const DebounceTime: int := 2000

  const LoginRoute: string := "/login"
  const UnauthorizedRoute: string := "/unauthorized"

  datatype ErrorCode =
    | NetworkError | Unauthorized | Forbidden | NotFound | ServerError
    | ValidationError | UnknownError | Conflict | BadRequest

  /** What a failed response carries: a client-side event, or whatever body
      the server sent, of which only its `message` matters here. */
  datatype ErrorBody = ClientEvent(eventMessage: string) | ServerBody(serverMessage: Option<string>)

  datatype HttpError = HttpError(status: int, body: ErrorBody)

  datatype AppError = AppError(code: ErrorCode, message: string, timestamp: Instant, status: int)

  /** `getErrorCode(status)`. */
  function CodeOf(status: int): (r: ErrorCode)
    ensures r != UnknownError <==> status in {0, 400, 401, 403, 404, 409, 422, 500}
    ensures status == 401 ==> r == Unauthorized
    ensures status == 403 ==> r == Forbidden
  {
    match status
    case 0 => NetworkError
    case 400 => BadRequest
    case 401 => Unauthorized
    case 403 => Forbidden
    case 404 => NotFound
    case 409 => Conflict
    case 422 => ValidationError
    case 500 => ServerError
    case _ => UnknownError
  }

  /** The status each specific code stands for: the inverse of `CodeOf`. */
  function StatusOf(code: ErrorCode): (r: Option<int>)
    ensures r.None? <==> code == UnknownError
  {
    match code
    case NetworkError => Some(0)
    case BadRequest => Some(400)
    case Unauthorized => Some(401)
    case Forbidden => Some(403)
    case NotFound => Some(404)
    case Conflict => Some(409)
    case ValidationError => Some(422)
    case ServerError => Some(500)
    case UnknownError => None
  }

  /** Eight statuses have a code of their own; every other status is unknown. */
  lemma CodeStatusRoundTrip(status: int, code: ErrorCode)
    ensures code != UnknownError ==> CodeOf(StatusOf(code).value) == code
    ensures CodeOf(status) != UnknownError <==> StatusOf(CodeOf(status)) == Some(status)
  {
  }

  /** `getErrorMessage(error)` for a server-side error: the server's own
      message when it sent a non-empty one, otherwise a text for the status. */
  function ServerMessage(status: int, message: Option<string>): (r: string)
    ensures Truthy(message) ==> r == message.value
    ensures !Truthy(message) && status == 0 ==> r == "Network connection failed. Please check your internet."
    ensures !Truthy(message) && status == 401 ==> r == "Your session has expired. Please log in again."
    ensures !Truthy(message) && status == 403 ==> r == "You do not have permission to perform this action."
    ensures !Truthy(message) && status == 404 ==> r == "The requested resource was not found."
    ensures !Truthy(message) && status == 500 ==> r == "Our server encountered an internal error. We are working on it."
    ensures !Truthy(message) && status !in {0, 401, 403, 404, 500} ==>
      r == "Error Code: " + IntToString(status) + ". Please contact support if this persists."
    ensures r != ""
  {
    if Truthy(message) then message.value
    else
      match status
      case 0 => "Network connection failed. Please check your internet."
      case 401 => "Your session has expired. Please log in again."
      case 403 => "You do not have permission to perform this action."
      case 404 => "The requested resource was not found."
      case 500 => "Our server encountered an internal error. We are working on it."
      case _ => "Error Code: " + IntToString(status) + ". Please contact support if this persists."
  }

  /** `getErrorSummary(code)`: the toast title. */
  function Summary(code: ErrorCode): (r: string)
    ensures code in {NetworkError, Unauthorized, Forbidden, ValidationError, ServerError} <==> r != "Unexpected Error"
    ensures code == NetworkError ==> r == "Connection Error"
    ensures code == Unauthorized ==> r == "Authentication Failed"
    ensures code == Forbidden ==> r == "Access Denied"
    ensures code == ValidationError ==> r == "Invalid Data"
    ensures code == ServerError ==> r == "System Error"
  {
    match code
    case NetworkError => "Connection Error"
    case Unauthorized => "Authentication Failed"
    case Forbidden => "Access Denied"
    case ValidationError => "Invalid Data"
    case ServerError => "System Error"
    case _ => "Unexpected Error"
  }

  /** `normalizeError(error)`: a client-side event is a network error with the
      event's message; anything else is classified by its status. */
  function NormalizeError(e: HttpError, now: Instant): (r: AppError)
    ensures r.status == e.status && r.timestamp == now
    ensures e.body.ClientEvent? ==> r.code == NetworkError && r.message == e.body.eventMessage
    ensures e.body.ServerBody? ==> r.code == CodeOf(e.status) && r.message == ServerMessage(e.status, e.body.serverMessage)
    ensures e.body.ServerBody? ==> r.message != ""
  {
    match e.body
    case ClientEvent(m) => AppError(NetworkError, m, now, e.status)
    case ServerBody(m) => AppError(CodeOf(e.status), ServerMessage(e.status, m), now, e.status)
  }

  /** The debounce memory: the last message shown and when. */
  datatype Debounce = Debounce(lastMessage: string, lastTime: int)

  const Fresh: Debounce := Debounce("", 0)

  /** `shouldSuppressNotification(message)` as a step: whether to stay silent,
      and the memory afterwards; a suppressed repeat does not restart the clock. */
  function Step(d: Debounce, message: string, nowMs: int): (r: (bool, Debounce))
    ensures r.0 <==> message == d.lastMessage && nowMs - d.lastTime < DebounceTime
    ensures r.0 ==> r.1 == d
    ensures !r.0 ==> r.1 == Debounce(message, nowMs)
  {
    if message == d.lastMessage && nowMs - d.lastTime < DebounceTime then (true, d)
    else (false, Debounce(message, nowMs))
  }

  /** The same message twice within two seconds is shown once; a different
      message is always shown. */
  lemma RepeatSuppressed(d: Debounce, message: string, t1: int, t2: int)
    requires t1 <= t2 < t1 + DebounceTime
    ensures var (s1, d1) := Step(d, message, t1);
      !s1 ==> Step(d1, message, t2).0
    ensures forall other :: other != message ==> !Step(Step(d, message, t1).1, other, t2).0
  {
  }

  /** A message repeated every 1.5 seconds is shown at 0 s and at 3 s: the
      repeat at 1.5 s is dropped without restarting the two-second window. */
  lemma SteadyRepeatShownEveryOtherTime(message: string, t: int)
    requires t >= DebounceTime || message != ""
    ensures var (s0, d0) := Step(Fresh, message, t);
      var (s1, d1) := Step(d0, message, t + 1500);
      var (s2, d2) := Step(d1, message, t + 3000);
      !s0 && s1 && !s2 && d2 == Debounce(message, t + 3000)
  {
  }

  class ErrorHandlerService {
    var debounce: Debounce
    /** The routes navigated to, oldest first. */
    var navigations: seq<string>
    /** How many times the session was ended. */
    var logouts: nat
    const notificationService: NotificationService

    constructor(notificationService: NotificationService)
      ensures debounce == Fresh && navigations == [] && logouts == 0
      ensures this.notificationService == notificationService
    {
      debounce := Fresh;
      navigations := [];
      logouts := 0;
      this.notificationService := notificationService;
    }

    /** `shouldSuppressNotification(message)`. */
    method ShouldSuppress(message: string, nowMs: int) returns (suppress: bool)
      modifies this`debounce
      ensures (suppress, debounce) == Step(old(debounce), message, nowMs)
    {
      var isSameMessage := message == debounce.lastMessage;
      var isTooSoon := nowMs - debounce.lastTime < DebounceTime;
      if isSameMessage && isTooSoon {
        return true;
      }
      debounce := Debounce(message, nowMs);
      suppress := false;
    }

    /** `handleError(error)`: unless suppressed, an unauthorised error ends the
        session and goes to the login page, a forbidden one goes to the
        'unauthorized' page, and every error is shown as an error toast. */
    method HandleError(error: AppError, now: Instant, notificationId: string) returns (shown: bool)
      modifies this, notificationService
      ensures shown <==> !Step(old(debounce), error.message, now.epochMs).0
      ensures debounce == Step(old(debounce), error.message, now.epochMs).1
      ensures !shown ==> navigations == old(navigations) && logouts == old(logouts) && unchanged(notificationService)
      ensures shown ==> navigations == old(navigations) + (if error.code == Unauthorized then [LoginRoute]
                                                           else if error.code == Forbidden then [UnauthorizedRoute]
                                                           else [])
      ensures shown ==> logouts == old(logouts) + (if error.code == Unauthorized then 1 else 0)
      ensures shown ==> notificationService.toasts == old(notificationService.toasts) + [Toast(Severity(Error), Summary(error.code), error.message, ToastLife)]
      ensures shown ==> notificationService.notifications
                          == PushFront(Notification(notificationId, Summary(error.code), error.message, Error, now, false, Icon(Error)),
                                       old(notificationService.notifications), MaxNotifications)
      ensures shown ==> notificationService.stored == notificationService.notifications
    {
      var suppress := ShouldSuppress(error.message, now.epochMs);
      if suppress {
        return false;
      }
      if error.code == Unauthorized {
        logouts := logouts + 1;
        navigations := navigations + [LoginRoute];
      } else if error.code == Forbidden {
        navigations := navigations + [UnauthorizedRoute];
      }
      notificationService.Show(Error, Summary(error.code), error.message, notificationId, now);
      shown := true;
    }
  }
}
