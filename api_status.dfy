/**
 * The API status indicator: how one health check becomes a status, how a
 * status is displayed, and the application's status slot, which starts as
 * "checking" and is overwritten by every health check.
 */
module ApiStatus {

  /**
   * How `GET /health` settles under axios with a 5-second timeout: resolved
   * with a status (only 2xx statuses resolve), or thrown (network failure,
   * timeout, any other status).
   */
  datatype HealthCheck = Answered(status: int) | Threw

  const Online: string := "online"
  const Offline: string := "offline"

  /** The status the application starts with, before any health check has settled. */
  const InitialStatus: string := "checking"

  /** `checkApiStatus`: the status reported for one health check. */
  function CheckApiStatus(r: HealthCheck): (s: string)
    ensures s == Online <==> r == Answered(200)
    ensures s == Offline <==> r != Answered(200)
    ensures s != InitialStatus
  {
    match r
    case Answered(status) => if status == 200 then Online else Offline
    case Threw => Offline
  }

  /** What the indicator displays. */
  datatype StatusConfig = StatusConfig(message: string, className: string)

  /** `getStatusConfig`: "online" and "offline" have their own display, every other value shows "checking". */
  function GetStatusConfig(status: string): (c: StatusConfig)
    ensures status == Online ==> c == StatusConfig("API is online and ready", "online")
    ensures status == Offline ==> c == StatusConfig("API is offline - check if backend is running", "offline")
    ensures status != Online && status != Offline ==> c == StatusConfig("Checking API status...", "checking")
    ensures c.className in {"online", "offline", "checking"}
  {
    if status == Online then StatusConfig("API is online and ready", "online")
    else if status == Offline then StatusConfig("API is offline - check if backend is running", "offline")
    else StatusConfig("Checking API status...", "checking")
  }

  /** The display's class is the status itself whenever the status is one a health check can report. */
  lemma CheckedStatusIsDisplayed(r: HealthCheck)
    ensures GetStatusConfig(CheckApiStatus(r)).className == CheckApiStatus(r)
    ensures GetStatusConfig(CheckApiStatus(r)).className != "checking"
  {
  }

  /** The display class tells the status apart: equal classes mean equal messages. */
  lemma ConfigDeterminedByClass(s: string, t: string)
    requires GetStatusConfig(s).className == GetStatusConfig(t).className
    ensures GetStatusConfig(s) == GetStatusConfig(t)
  {
  }

  /** The application's `apiStatus` state, written by the indicator's `onStatusChange`. */
  class StatusSlot {
    var apiStatus: string

    constructor ()
      ensures apiStatus == InitialStatus
      ensures GetStatusConfig(apiStatus).className == "checking"
    {
      apiStatus := InitialStatus;
    }

    /** One health check settles: its status replaces the previous one, and "checking" is never written back. */
    method HealthCheckSettled(r: HealthCheck)
      modifies this
      ensures apiStatus == CheckApiStatus(r)
      ensures apiStatus in {Online, Offline}
    {
      apiStatus := CheckApiStatus(r);
    }
  }
}
