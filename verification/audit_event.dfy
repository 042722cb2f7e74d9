/** The immutable audit record and the validation done by its compact constructor. */
module AuditEvent {
  import opened Wrappers
  import opened JavaText

  /** A point in time; its clock source and its text form lie outside the model. */
  datatype Instant = Instant(epochSecond: int, nano: int)

  datatype IllegalArgumentException = IllegalArgumentException(message: string)

  const BLANK_CALLING_SERVICE := IllegalArgumentException("callingService must not be blank")
  const BLANK_ACTION := IllegalArgumentException("action must not be blank")

  /**
   * A service-level audit event. The string components that may be null in the
   * record are options; callingService, action and timestamp are never null
   * once the constructor has run.
   */
  datatype ServiceAuditEvent = ServiceAuditEvent(
    callingService: string,
    endpoint: Option<string>,
    action: string,
    resourceId: Option<string>,
    timestamp: Instant,
    correlationId: Option<string>)
  {
    /** The record's invariant: who acted and what they did are never blank. */
    predicate Valid() {
      !IsBlank(callingService) && !IsBlank(action)
    }
  }

  /**
   * The compact constructor. It rejects a null or blank callingService, then a
   * null or blank action, and replaces a null timestamp by `now`, the clock
   * reading it would take. The other three components are stored unchecked.
   */
  function NewServiceAuditEvent(
    callingService: Option<string>,
    endpoint: Option<string>,
    action: Option<string>,
    resourceId: Option<string>,
    timestamp: Option<Instant>,
    correlationId: Option<string>,
    now: Instant): (r: Result<ServiceAuditEvent, IllegalArgumentException>)
    ensures r.Success? <==> !NullOrBlank(callingService) && !NullOrBlank(action)
    ensures NullOrBlank(callingService) ==> r == Failure(BLANK_CALLING_SERVICE)
    ensures !NullOrBlank(callingService) && NullOrBlank(action) ==> r == Failure(BLANK_ACTION)
    ensures r.Success? ==> r.value.Valid()
    ensures r.Success? ==> Some(r.value.callingService) == callingService && Some(r.value.action) == action
    ensures r.Success? ==> r.value.endpoint == endpoint && r.value.resourceId == resourceId
                           && r.value.correlationId == correlationId
    ensures r.Success? && timestamp.Some? ==> r.value.timestamp == timestamp.value
    ensures r.Success? && timestamp.None? ==> r.value.timestamp == now
  {
    if NullOrBlank(callingService) then
      Failure(BLANK_CALLING_SERVICE)
    else if NullOrBlank(action) then
      Failure(BLANK_ACTION)
    else
      var ts := if timestamp == None then now else timestamp.value;
      Success(ServiceAuditEvent(callingService.value, endpoint, action.value, resourceId, ts, correlationId))
  }

  /** The three unchecked components may be null or blank in a constructed event. */
  lemma UncheckedComponentsMayBeBlank(now: Instant)
    ensures var r := NewServiceAuditEvent(Some("svc"), None, Some("ACT"), Some(""), None, None, now);
      r.Success? && r.value.endpoint == None && r.value.resourceId == Some("")
      && r.value.correlationId == None && r.value.timestamp == now
  {
    assert !IsWhitespace("svc"[0]) && !IsWhitespace("ACT"[0]);
  }
}
