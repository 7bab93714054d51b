/**
 * Refund orchestration run when a learner unenrolls from a paid seat or asks
 * for an entitlement refund (lms/djangoapps/commerce/signals.py).
 *
 * Everything the code asks of the outside world (is commerce configured, who
 * made the request, what the refund API answers, whether approving one refund
 * works, whether the site is themed, what the ticketing API answers) is an
 * input, gathered in an Environment. What the code does to the outside world
 * is returned as a trace of Events: the calls it makes and the log lines that
 * stand for a swallowed failure. The methods follow the source step by step;
 * the predicates ending in `Trace` say which traces each step may leave, and
 * the lemmas at the end derive from them the promises the code keeps.
 */
module CommerceSignals {
  import opened Base

  type RefundId = int

  /** The one enrollment mode for which a refund notification is sent. */
  const VerifiedMode := "verified"
  /** The marker tag every ticket carries. */
  const PlatformTag := "LMS"
  /** The tag a refund notification asks for. */
  const AutoRefundTag := "auto_refund"
  /** HTTP 201 Created: the only status the ticketing API answers on success. */
  const TicketCreatedStatus := 201
  const TicketsPath := "/api/v2/tickets.json"
  const RefundSubject := "[Refund] User-Requested Refund"

  datatype Profile = Profile(name: string)

  /** A learner account; `profile` is None when the account has no profile row. */
  datatype User = User(id: int, username: string, email: string, profile: Option<Profile>)

  /** `request.user`: an authenticated account, or Django's AnonymousUser. */
  datatype Actor = AnonymousUser | Member(user: User)

  /**
   * The two refundable products: a course seat (enrollment) or an entitlement.
   * An entitlement's `courseIdAttribute` is what reading `course_id` on it
   * gives: None when the object has no such attribute, so that the read
   * raises AttributeError.
   */
  datatype CourseProduct =
    | Seat(user: User, courseId: string, mode: string)
    | Entitlement(user: User, uuid: string, orderNumber: string, mode: string, courseIdAttribute: Option<string>)

  /** The body of the POST that opens refunds. */
  datatype RefundRequest =
    | SeatRefund(courseId: string, username: string)
    | EntitlementRefund(orderNumber: string, username: string, entitlementUuid: string)

  datatype Exception = ServiceUserDoesNotExist | GatewayError | NotImplementedError | ProfileDoesNotExist | AttributeError

  /** How a Python call ends: it returns a value or raises. */
  datatype Outcome<T> = Returned(value: T) | Raised(exception: Exception)

  /** What the refund step meets: the service account is missing, the POST raises, or it opens some refunds. */
  datatype RefundResponse = ServiceUserMissing | PostFailed | Opened(refundIds: seq<RefundId>)

  /** What the ticket POST meets: a status code or a transport exception. */
  datatype TicketResponse = Status(code: int) | TransportFailure

  /** ZENDESK_URL, ZENDESK_USER, ZENDESK_API_KEY; the empty string stands for unset. */
  datatype ZendeskSettings = ZendeskSettings(url: string, user: string, apiKey: string)

  /** The `ticket` object sent to the ticketing API. */
  datatype Ticket = Ticket(requesterName: string, requesterEmail: string, subject: string, body: string, tags: seq<string>)

  /** Everything the orchestration reads from its surroundings during one event. */
  datatype Environment = Environment(
    commerceConfigured: bool,
    requestUser: Option<Actor>,
    autoApproval: bool,
    refundResponse: RefundResponse,
    approvalSucceeds: RefundId -> bool,
    themedSite: bool,
    zendesk: ZendeskSettings,
    ticketResponse: TicketResponse,
    ecommerceUrlRoot: string,
    urlJoin: (string, string) -> string)

  /** One observable step: an outbound call, or a log line that records a handled failure. */
  datatype Event =
    | RefundPosted(request: RefundRequest)
    | ApprovalAttempted(refundId: RefundId, approved: bool)
    | NotificationSuppressed(userId: int, productId: string, mode: string)
    | NotificationAttempted(refundIds: seq<RefundId>)
    | TicketPosted(endpoint: string, authUser: string, apiKey: string, ticket: Ticket)
    | TicketRejected(status: int)
    | TicketPostFailed
    | NotificationWarning
    | RefundErrorLogged(userId: int, productId: string, exception: Option<Exception>)

  // ---------------------------------------------------------------------------
  // Reading a trace by kind of event
  // ---------------------------------------------------------------------------

  /** A sent ticket with its tags read as a set: the order of the tags is not fixed. */
  datatype TicketSummary = TicketSummary(requesterName: string, requesterEmail: string, subject: string,
                                         body: string, tags: set<string>)

  function Summary(t: Ticket): TicketSummary {
    TicketSummary(t.requesterName, t.requesterEmail, t.subject, t.body, set x | x in t.tags)
  }

  /**
   * The events of a trace grouped by kind, in order within each kind: refund
   * POSTs, approval attempts, notification attempts, suppression log lines,
   * tickets sent, ticket failure log lines, notification warnings, and the
   * exception each refund error log line carries.
   */
  datatype Observation = Observation(
    posts: seq<RefundRequest>,
    approvals: seq<RefundId>,
    notifications: seq<seq<RefundId>>,
    suppressions: nat,
    tickets: seq<TicketSummary>,
    ticketFailures: nat,
    warnings: nat,
    errors: seq<Option<Exception>>)
  {
    function Then(o: Observation): Observation {
      Observation(posts + o.posts, approvals + o.approvals, notifications + o.notifications,
                  suppressions + o.suppressions, tickets + o.tickets, ticketFailures + o.ticketFailures,
                  warnings + o.warnings, errors + o.errors)
    }
  }

  const Nothing := Observation([], [], [], 0, [], 0, 0, [])

  /** The value `pick` finds in one event, if any. */
  function Picked<T>(e: Event, pick: Event -> Option<T>): seq<T> {
    if pick(e).Some? then [pick(e).value] else []
  }

  /** The values `pick` finds in a trace, in order. */
  function Select<T>(t: seq<Event>, pick: Event -> Option<T>): seq<T> {
    if t == [] then [] else Picked(t[0], pick) + Select(t[1..], pick)
  }

  lemma {:induction false} SelectAppend<T>(a: seq<Event>, b: seq<Event>, pick: Event -> Option<T>)
    ensures Select(a + b, pick) == Select(a, pick) + Select(b, pick)
  {
    if a == [] {
      assert a + b == b;
    } else {
      var c := a + b;
      assert c[0] == a[0] && c[1..] == a[1..] + b;
      SelectAppend(a[1..], b, pick);
      var p := Picked(a[0], pick);
      assert Select(c, pick) == p + (Select(a[1..], pick) + Select(b, pick));
      assert p + (Select(a[1..], pick) + Select(b, pick)) == (p + Select(a[1..], pick)) + Select(b, pick);
    }
  }

  lemma SelectSingle<T>(e: Event, pick: Event -> Option<T>)
    ensures Select([e], pick) == Picked(e, pick)
  {
    assert [e][1..] == [];
  }

  function PostOf(e: Event): Option<RefundRequest> {
    if e.RefundPosted? then Some(e.request) else None
  }
  function ApprovalOf(e: Event): Option<RefundId> {
    if e.ApprovalAttempted? then Some(e.refundId) else None
  }
  function NotificationOf(e: Event): Option<seq<RefundId>> {
    if e.NotificationAttempted? then Some(e.refundIds) else None
  }
  function SuppressionOf(e: Event): Option<Event> {
    if e.NotificationSuppressed? then Some(e) else None
  }
  function TicketOf(e: Event): Option<TicketSummary> {
    if e.TicketPosted? then Some(Summary(e.ticket)) else None
  }
  function TicketFailureOf(e: Event): Option<Event> {
    if e.TicketRejected? || e.TicketPostFailed? then Some(e) else None
  }
  function WarningOf(e: Event): Option<Event> {
    if e.NotificationWarning? then Some(e) else None
  }
  function ErrorOf(e: Event): Option<Option<Exception>> {
    if e.RefundErrorLogged? then Some(e.exception) else None
  }

  function Observe(t: seq<Event>): Observation {
    Observation(Select(t, PostOf), Select(t, ApprovalOf), Select(t, NotificationOf), |Select(t, SuppressionOf)|,
                Select(t, TicketOf), |Select(t, TicketFailureOf)|, |Select(t, WarningOf)|, Select(t, ErrorOf))
  }

  lemma ObserveAppend(a: seq<Event>, b: seq<Event>)
    ensures Observe(a + b) == Observe(a).Then(Observe(b))
  {
    SelectAppend(a, b, PostOf);
    SelectAppend(a, b, ApprovalOf);
    SelectAppend(a, b, NotificationOf);
    SelectAppend(a, b, SuppressionOf);
    SelectAppend(a, b, TicketOf);
    SelectAppend(a, b, TicketFailureOf);
    SelectAppend(a, b, WarningOf);
    SelectAppend(a, b, ErrorOf);
  }

  lemma ObserveSingle(e: Event)
    ensures Observe([e]) == match e
      case RefundPosted(r) => Nothing.(posts := [r])
      case ApprovalAttempted(id, _) => Nothing.(approvals := [id])
      case NotificationSuppressed(_, _, _) => Nothing.(suppressions := 1)
      case NotificationAttempted(ids) => Nothing.(notifications := [ids])
      case TicketPosted(_, _, _, t) => Nothing.(tickets := [Summary(t)])
      case TicketRejected(_) => Nothing.(ticketFailures := 1)
      case TicketPostFailed => Nothing.(ticketFailures := 1)
      case NotificationWarning => Nothing.(warnings := 1)
      case RefundErrorLogged(_, _, exc) => Nothing.(errors := [exc])
  {
    SelectSingle(e, PostOf);
    SelectSingle(e, ApprovalOf);
    SelectSingle(e, NotificationOf);
    SelectSingle(e, SuppressionOf);
    SelectSingle(e, TicketOf);
    SelectSingle(e, TicketFailureOf);
    SelectSingle(e, WarningOf);
    SelectSingle(e, ErrorOf);
  }

  lemma ObserveCons(e: Event, t: seq<Event>)
    ensures Observe([e] + t) == Observe([e]).Then(Observe(t))
  {
    ObserveAppend([e], t);
  }

  lemma ThenNothing(o: Observation)
    ensures o.Then(Nothing) == o && Nothing.Then(o) == o
  {
  }

  lemma ObserveEmpty()
    ensures Observe([]) == Nothing
  {
  }

  // ---------------------------------------------------------------------------
  // create_zendesk_ticket
  // ---------------------------------------------------------------------------

  predicate ZendeskConfigured(z: ZendeskSettings) {
    z.url != "" && z.user != "" && z.apiKey != ""
  }

  predicate NoDuplicates(s: seq<string>) {
    forall i, j :: 0 <= i < j < |s| ==> s[i] != s[j]
  }

  /** `s` lists every element of `elements`, each once, in some order. */
  predicate ListsExactly(s: seq<string>, elements: set<string>) {
    (forall x :: x in s ==> x in elements) && (forall x :: x in elements ==> x in s) && NoDuplicates(s)
  }

  /** The log line a ticket POST leaves: none on 201, an error for any other status or an exception. */
  function TicketFailureLog(r: TicketResponse): seq<Event> {
    match r
    case Status(code) => if code == TicketCreatedStatus then [] else [TicketRejected(code)]
    case TransportFailure => [TicketPostFailed]
  }

  /** The traces create_zendesk_ticket may leave: nothing when unconfigured, else one POST and its failure log. */
  predicate TicketTrace(env: Environment, requesterName: string, requesterEmail: string, subject: string,
                        body: string, tags: set<string>, t: seq<Event>)
  {
    if !ZendeskConfigured(env.zendesk) then t == []
    else
      && |t| >= 1
      && t[0].TicketPosted?
      && t[0] == TicketPosted(env.urlJoin(env.zendesk.url, TicketsPath), env.zendesk.user + "/token", env.zendesk.apiKey,
                              Ticket(requesterName, requesterEmail, subject, body, t[0].ticket.tags))
      && ListsExactly(t[0].ticket.tags, tags + {PlatformTag})
      && t[1..] == TicketFailureLog(env.ticketResponse)
  }

  /**
   * create_zendesk_ticket. The caller's tag list is an array that this method
   * may not modify (it has no modifies clause): the tags are copied first.
   */
  method CreateZendeskTicket(env: Environment, requesterName: string, requesterEmail: string,
                             subject: string, body: string, tags: array?<string>)
    returns (trace: seq<Event>)
    ensures TicketTrace(env, requesterName, requesterEmail, subject, body,
                        if tags == null then {} else (set x | x in tags[..]), trace)
  {
    if !ZendeskConfigured(env.zendesk) {
      return [];
    }
    // Copy the tags, add the platform marker, then drop duplicates.
    var copied: seq<string> := if tags == null then [] else tags[..];
    copied := copied + [PlatformTag];
    var unique := set x | x in copied;
    var listed: seq<string> := [];
    var pending := unique;
    while pending != {}
      invariant pending <= unique
      invariant forall x :: x in listed <==> x in unique - pending
      invariant NoDuplicates(listed)
      decreases pending
    {
      var x :| x in pending;
      assert x !in listed;
      listed := listed + [x];
      pending := pending - {x};
    }
    var ticket := Ticket(requesterName, requesterEmail, subject, body, listed);
    trace := [TicketPosted(env.urlJoin(env.zendesk.url, TicketsPath), env.zendesk.user + "/token",
                           env.zendesk.apiKey, ticket)];
    match env.ticketResponse {
      case Status(code) =>
        if code != TicketCreatedStatus {
          trace := trace + [TicketRejected(code)];
        }
      case TransportFailure =>
        trace := trace + [TicketPostFailed];
    }
  }

  // ---------------------------------------------------------------------------
  // generate_refund_notification_body and send_refund_notification
  // ---------------------------------------------------------------------------

  function RefundMessage(student: User): string {
    "A refund request has been initiated for " + student.username + " (" + student.email
      + "). To process this request, please visit the link(s) below."
  }

  function RefundReviewPath(id: RefundId): string {
    "/dashboard/refunds/" + IntToString(id) + "/"
  }

  function RefundUrls(root: string, refundIds: seq<RefundId>, urlJoin: (string, string) -> string): seq<string> {
    seq(|refundIds|, i requires 0 <= i < |refundIds| => urlJoin(root, RefundReviewPath(refundIds[i])))
  }

  /** generate_refund_notification_body: the message, a blank line, then the review links one per line. */
  function RefundNotificationBody(student: User, refundIds: seq<RefundId>, root: string,
                                  urlJoin: (string, string) -> string): string
  {
    RefundMessage(student) + "\n\n" + Join(RefundUrls(root, refundIds, urlJoin), "\n")
  }

  /** `student.profile.name or student.username`. */
  function RequesterName(student: User): string
    requires student.profile.Some?
  {
    if student.profile.value.name != "" then student.profile.value.name else student.username
  }

  /** The traces a send_refund_notification that does not raise may leave. */
  predicate NotificationTrace(env: Environment, student: User, refundIds: seq<RefundId>, t: seq<Event>)
    requires student.profile.Some?
  {
    TicketTrace(env, RequesterName(student), student.email, RefundSubject,
                RefundNotificationBody(student, refundIds, env.ecommerceUrlRoot, env.urlJoin),
                {AutoRefundTag}, t)
  }

  /** The one-tag list send_refund_notification hands to the ticket call yields the notification's trace. */
  lemma NotificationTicketTrace(env: Environment, student: User, refundIds: seq<RefundId>,
                                given: seq<string>, t: seq<Event>)
    requires student.profile.Some?
    requires given == [AutoRefundTag]
    requires TicketTrace(env, RequesterName(student), student.email, RefundSubject,
                         RefundNotificationBody(student, refundIds, env.ecommerceUrlRoot, env.urlJoin),
                         (set x | x in given), t)
    ensures NotificationTrace(env, student, refundIds, t)
  {
    assert (set x | x in given) == {AutoRefundTag};
  }

  /** send_refund_notification: refuses on a themed site before anything is sent. */
  method SendRefundNotification(env: Environment, product: CourseProduct, refundIds: seq<RefundId>)
    returns (outcome: Outcome<()>, trace: seq<Event>)
    ensures env.themedSite ==> outcome == Raised(NotImplementedError) && trace == []
    ensures !env.themedSite && product.user.profile.None? ==>
              outcome == Raised(ProfileDoesNotExist) && trace == []
    ensures !env.themedSite && product.user.profile.Some? ==>
              outcome == Returned(()) && NotificationTrace(env, product.user, refundIds, trace)
  {
    var tags := new string[1];
    tags[0] := AutoRefundTag;
    if env.themedSite {
      return Raised(NotImplementedError), [];
    }
    var student := product.user;
    var body := RefundNotificationBody(student, refundIds, env.ecommerceUrlRoot, env.urlJoin);
    if student.profile.None? {
      return Raised(ProfileDoesNotExist), [];
    }
    var requesterName := RequesterName(student);
    ghost var given := tags[..];
    assert given == [AutoRefundTag];
    trace := CreateZendeskTicket(env, requesterName, student.email, RefundSubject, body, tags);
    NotificationTicketTrace(env, student, refundIds, given, trace);
    outcome := Returned(());
  }

  // ---------------------------------------------------------------------------
  // _process_refund
  // ---------------------------------------------------------------------------

  /** The refunds whose approval fails, in their original order. */
  function FailedApprovals(refundIds: seq<RefundId>, succeeds: RefundId -> bool): seq<RefundId> {
    if refundIds == [] then []
    else (if succeeds(refundIds[0]) then [] else [refundIds[0]]) + FailedApprovals(refundIds[1..], succeeds)
  }

  /** The refunds left for a person to approve. */
  function RequiringApproval(env: Environment, refundIds: seq<RefundId>): seq<RefundId> {
    if env.autoApproval then FailedApprovals(refundIds, env.approvalSucceeds) else refundIds
  }

  /** One approval attempt per refund, in order, each with its own result. */
  function ApprovalEvents(refundIds: seq<RefundId>, succeeds: RefundId -> bool): seq<Event> {
    seq(|refundIds|, i requires 0 <= i < |refundIds| => ApprovalAttempted(refundIds[i], succeeds(refundIds[i])))
  }

  function ApprovalRun(env: Environment, refundIds: seq<RefundId>): seq<Event> {
    if env.autoApproval then ApprovalEvents(refundIds, env.approvalSucceeds) else []
  }

  /** The course key of a seat, the UUID of an entitlement. */
  function ProductId(product: CourseProduct): string {
    if product.Seat? then product.courseId else product.uuid
  }

  /**
   * Before it logs the suppression line, _process_refund reads `course_id`
   * from the product, an entitlement included, and only then replaces it by
   * the UUID: an entitlement without that attribute raises AttributeError there.
   */
  predicate SuppressionRaises(product: CourseProduct) {
    product.mode != VerifiedMode && product.Entitlement? && product.courseIdAttribute.None?
  }

  /** _process_refund raises exactly when some refund is left for approval and that read fails. */
  predicate ProcessRefundRaises(env: Environment, refundIds: seq<RefundId>, product: CourseProduct) {
    RequiringApproval(env, refundIds) != [] && SuppressionRaises(product)
  }

  /**
   * What _process_refund leaves once some refund still needs approval: the
   * suppression log line for any mode but verified, or nothing when reading
   * the course id raised first; otherwise the notification attempt, followed
   * by a warning when it raised, else by what it sent.
   */
  predicate NotificationStepTrace(env: Environment, product: CourseProduct, pending: seq<RefundId>, t: seq<Event>) {
    if product.mode != VerifiedMode then
      t == if SuppressionRaises(product) then [] else [NotificationSuppressed(product.user.id, ProductId(product), product.mode)]
    else
      && |t| >= 1
      && t[0] == NotificationAttempted(pending)
      && if env.themedSite || product.user.profile.None? then t[1..] == [NotificationWarning]
         else NotificationTrace(env, product.user, pending, t[1..])
  }

  /** The traces _process_refund may leave: the approval attempts, then the notification step if any refund is left. */
  predicate ProcessRefundTrace(env: Environment, refundIds: seq<RefundId>, product: CourseProduct, t: seq<Event>)
  {
    var run := ApprovalRun(env, refundIds);
    var pending := RequiringApproval(env, refundIds);
    && |run| <= |t|
    && t[..|run|] == run
    && if pending == [] then t[|run|..] == [] else NotificationStepTrace(env, product, pending, t[|run|..])
  }

  lemma ApprovalEventsExtend(refundIds: seq<RefundId>, i: nat, succeeds: RefundId -> bool)
    requires i < |refundIds|
    ensures ApprovalEvents(refundIds[..i + 1], succeeds)
         == ApprovalEvents(refundIds[..i], succeeds) + [ApprovalAttempted(refundIds[i], succeeds(refundIds[i]))]
  {
  }

  /**
   * _process_refund: approve one refund at a time, then notify about what is
   * left. It returns normally unless the course id read before the
   * suppression line raises.
   */
  method ProcessRefund(env: Environment, refundIds: seq<RefundId>, product: CourseProduct)
    returns (requiringApproval: seq<RefundId>, outcome: Outcome<()>, trace: seq<Event>)
    ensures requiringApproval == RequiringApproval(env, refundIds)
    ensures outcome == if ProcessRefundRaises(env, refundIds, product) then Raised(AttributeError) else Returned(())
    ensures ProcessRefundTrace(env, refundIds, product, trace)
  {
    trace := [];
    outcome := Returned(());
    if env.autoApproval {
      requiringApproval := [];
      var i := 0;
      while i < |refundIds|
        invariant 0 <= i <= |refundIds|
        invariant trace == ApprovalEvents(refundIds[..i], env.approvalSucceeds)
        invariant requiringApproval == FailedApprovals(refundIds[..i], env.approvalSucceeds)
      {
        var refundId := refundIds[i];
        var approved := env.approvalSucceeds(refundId);
        ApprovalEventsExtend(refundIds, i, env.approvalSucceeds);
        assert refundIds[..i + 1] == refundIds[..i] + [refundId];
        FailedApprovalsAppend(refundIds[..i], [refundId], env.approvalSucceeds);
        trace := trace + [ApprovalAttempted(refundId, approved)];
        if !approved {
          requiringApproval := requiringApproval + [refundId];
        }
        i := i + 1;
      }
      assert refundIds[..|refundIds|] == refundIds;
    } else {
      requiringApproval := refundIds;
    }
    assert trace == ApprovalRun(env, refundIds);
    var step: seq<Event> := [];
    if requiringApproval != [] {
      outcome, step := NotifyPending(env, product, requiringApproval);
    }
    trace := trace + step;
    ProcessRefundTraceOf(env, refundIds, product, step, trace);
  }

  /**
   * The notification step of _process_refund for the refunds left: log the
   * suppression line for any mode but verified, raising first when the
   * course id read fails; otherwise attempt the notification, turning a
   * failure into a warning.
   */
  method NotifyPending(env: Environment, product: CourseProduct, pending: seq<RefundId>)
    returns (outcome: Outcome<()>, step: seq<Event>)
    ensures outcome == if SuppressionRaises(product) then Raised(AttributeError) else Returned(())
    ensures NotificationStepTrace(env, product, pending, step)
  {
    outcome := Returned(());
    if product.mode != VerifiedMode {
      if product.Entitlement? && product.courseIdAttribute.None? {
        outcome := Raised(AttributeError);
        step := [];
      } else {
        step := [NotificationSuppressed(product.user.id, ProductId(product), product.mode)];
      }
    } else {
      var sendOutcome, sent := SendRefundNotification(env, product, pending);
      step := [NotificationAttempted(pending)] + sent + (if sendOutcome.Raised? then [NotificationWarning] else []);
      NotificationStepAfterSend(env, product, pending, sendOutcome, sent, step);
    }
  }

  /** The notification step of _process_refund for a verified product, from what the send returned. */
  lemma NotificationStepAfterSend(env: Environment, product: CourseProduct, pending: seq<RefundId>,
                                  outcome: Outcome<()>, sent: seq<Event>, step: seq<Event>)
    requires product.mode == VerifiedMode
    requires env.themedSite ==> outcome == Raised(NotImplementedError) && sent == []
    requires !env.themedSite && product.user.profile.None? ==> outcome == Raised(ProfileDoesNotExist) && sent == []
    requires !env.themedSite && product.user.profile.Some? ==>
               outcome == Returned(()) && NotificationTrace(env, product.user, pending, sent)
    requires step == [NotificationAttempted(pending)] + sent + (if outcome.Raised? then [NotificationWarning] else [])
    ensures NotificationStepTrace(env, product, pending, step)
  {
    assert step[1..] == sent + (if outcome.Raised? then [NotificationWarning] else []);
  }

  /** A trace made of the approval run and then the notification step is a trace of _process_refund. */
  lemma ProcessRefundTraceOf(env: Environment, refundIds: seq<RefundId>, product: CourseProduct,
                             step: seq<Event>, t: seq<Event>)
    requires t == ApprovalRun(env, refundIds) + step
    requires RequiringApproval(env, refundIds) == [] ==> step == []
    requires RequiringApproval(env, refundIds) != [] ==>
               NotificationStepTrace(env, product, RequiringApproval(env, refundIds), step)
    ensures ProcessRefundTrace(env, refundIds, product, t)
  {
    var run := ApprovalRun(env, refundIds);
    assert t[..|run|] == run;
    assert t[|run|..] == step;
  }

  // ---------------------------------------------------------------------------
  // refund_seat and refund_entitlement
  // ---------------------------------------------------------------------------

  /** The POST body: course key and username for a seat; order number, username and UUID for an entitlement. */
  function RefundRequestFor(product: CourseProduct): RefundRequest {
    match product
    case Seat(user, courseId, _) => SeatRefund(courseId, user.username)
    case Entitlement(user, uuid, orderNumber, _, _) => EntitlementRefund(orderNumber, user.username, uuid)
  }

  /** The exception the refund step raises, if any: from the gateway step, or from processing what it opened. */
  function RefundException(env: Environment, product: CourseProduct): Option<Exception> {
    match env.refundResponse
    case ServiceUserMissing => Some(ServiceUserDoesNotExist)
    case PostFailed => Some(GatewayError)
    case Opened(refundIds) =>
      if refundIds != [] && ProcessRefundRaises(env, refundIds, product) then Some(AttributeError) else None
  }

  /** The traces refund_seat and refund_entitlement may leave. */
  predicate RefundTrace(env: Environment, product: CourseProduct, t: seq<Event>) {
    match env.refundResponse
    case ServiceUserMissing => t == []
    case PostFailed => t == [RefundPosted(RefundRequestFor(product))]
    case Opened(refundIds) =>
      && |t| >= 1
      && t[0] == RefundPosted(RefundRequestFor(product))
      && if refundIds == [] then |t| == 1 else ProcessRefundTrace(env, refundIds, product, t[1..])
  }

  /**
   * refund_seat and refund_entitlement, which differ only in the POST body:
   * open refunds for the product and process them when there are any.
   */
  method RefundProduct(env: Environment, product: CourseProduct)
    returns (result: Outcome<seq<RefundId>>, trace: seq<Event>)
    ensures env.refundResponse.Opened? && RefundException(env, product).None? ==>
              result == Returned(env.refundResponse.refundIds)
    ensures RefundException(env, product).Some? ==> result == Raised(RefundException(env, product).value)
    ensures RefundTrace(env, product, trace)
  {
    if env.refundResponse.ServiceUserMissing? {
      return Raised(ServiceUserDoesNotExist), [];
    }
    trace := [RefundPosted(RefundRequestFor(product))];
    if env.refundResponse.PostFailed? {
      return Raised(GatewayError), trace;
    }
    var refundIds := env.refundResponse.refundIds;
    if refundIds != [] {
      var _, outcome, processed := ProcessRefund(env, refundIds, product);
      trace := trace + processed;
      assert trace[1..] == processed;
      if outcome.Raised? {
        return Raised(outcome.exception), trace;
      }
    }
    result := Returned(refundIds);
  }

  // ---------------------------------------------------------------------------
  // handle_refund_order and handle_refund_entitlement
  // ---------------------------------------------------------------------------

  /** `get_request_user() or course_enrollment.user`: AnonymousUser is truthy, so only a missing user falls back. */
  function ActingUser(requestUser: Option<Actor>, enrollee: User): Actor {
    requestUser.GetOr(Member(enrollee))
  }

  /** The gate of handle_refund_order, for an enrollment that is present. */
  predicate SeatRefundAllowed(env: Environment, enrollment: CourseProduct, refundable: bool) {
    env.commerceConfigured && refundable && ActingUser(env.requestUser, enrollment.user) != AnonymousUser
  }

  /** The gate of handle_refund_entitlement: the request user must be the owner (same account id). */
  predicate EntitlementRefundAllowed(env: Environment, entitlement: CourseProduct, refundable: bool) {
    && env.commerceConfigured && refundable
    && env.requestUser.Some? && env.requestUser.value.Member?
    && env.requestUser.value.user.id == entitlement.user.id
  }

  /**
   * The traces a handler may leave: nothing when its gate is closed; otherwise
   * the refund step's trace, followed by one error log line when that step
   * raised; the entitlement handler's log line carries the exception, the
   * enrollment handler's does not.
   */
  predicate HandlerTrace(env: Environment, product: CourseProduct, allowed: bool, t: seq<Event>) {
    if !allowed then t == []
    else match RefundException(env, product)
      case None => RefundTrace(env, product, t)
      case Some(exc) =>
        && |t| >= 1
        && RefundTrace(env, product, t[..|t| - 1])
        && t[|t| - 1] == RefundErrorLogged(product.user.id, ProductId(product), if product.Entitlement? then Some(exc) else None)
  }

  /** Behind an open gate, the refund step's trace, followed by the error line when it raised, is a handler trace. */
  lemma HandlerTraceAfterRefund(env: Environment, product: CourseProduct, allowed: bool,
                                body: seq<Event>, result: Outcome<seq<RefundId>>, trace: seq<Event>)
    requires allowed
    requires RefundTrace(env, product, body)
    requires env.refundResponse.Opened? && RefundException(env, product).None? ==>
               result == Returned(env.refundResponse.refundIds)
    requires RefundException(env, product).Some? ==> result == Raised(RefundException(env, product).value)
    requires trace == if result.Returned? then body
                      else body + [RefundErrorLogged(product.user.id, ProductId(product),
                                                     if product.Entitlement? then Some(result.exception) else None)]
    ensures HandlerTrace(env, product, allowed, trace)
  {
    if result.Raised? {
      assert trace[..|trace| - 1] == body;
    }
  }


  /** handle_refund_order: the receiver for unenrollments; it never raises. */
  method HandleRefundOrder(env: Environment, courseEnrollment: Option<CourseProduct>, refundable: bool)
    returns (trace: seq<Event>)
    requires courseEnrollment.Some? ==> courseEnrollment.value.Seat?
    ensures courseEnrollment.None? ==> trace == []
    ensures courseEnrollment.Some? ==>
              HandlerTrace(env, courseEnrollment.value, SeatRefundAllowed(env, courseEnrollment.value, refundable),
                           trace)
  {
    trace := [];
    if !env.commerceConfigured {
      return;
    }
    if courseEnrollment.Some? && refundable {
      var enrollment := courseEnrollment.value;
      var requestUser := env.requestUser.GetOr(Member(enrollment.user));
      if requestUser == AnonymousUser {
        return;
      }
      var result, refundTrace := RefundProduct(env, enrollment);
      trace := refundTrace;
      if result.Raised? {
        trace := trace + [RefundErrorLogged(enrollment.user.id, enrollment.courseId, None)];
      }
      HandlerTraceAfterRefund(env, enrollment, SeatRefundAllowed(env, enrollment, refundable), refundTrace, result,
                              trace);
    }
  }

  /** handle_refund_entitlement: the receiver for entitlement refunds; it never raises. */
  method HandleRefundEntitlement(env: Environment, courseEntitlement: Option<CourseProduct>, refundable: bool)
    returns (trace: seq<Event>)
    requires courseEntitlement.Some? ==> courseEntitlement.value.Entitlement?
    ensures courseEntitlement.None? ==> trace == []
    ensures courseEntitlement.Some? ==>
              HandlerTrace(env, courseEntitlement.value,
                           EntitlementRefundAllowed(env, courseEntitlement.value, refundable), trace)
  {
    trace := [];
    if !env.commerceConfigured {
      return;
    }
    if courseEntitlement.Some? && refundable {
      var entitlement := courseEntitlement.value;
      var requestUser := env.requestUser;
      if requestUser.Some? && requestUser.value.Member? && requestUser.value.user.id == entitlement.user.id {
        var result, refundTrace := RefundProduct(env, entitlement);
        trace := refundTrace;
        if result.Raised? {
          trace := trace + [RefundErrorLogged(entitlement.user.id, entitlement.uuid, Some(result.exception))];
        }
        HandlerTraceAfterRefund(env, entitlement, EntitlementRefundAllowed(env, entitlement, refundable),
                                refundTrace, result, trace);
      }
    }
  }

  // ---------------------------------------------------------------------------
  // What each step is seen to do
  // ---------------------------------------------------------------------------

  /** The number of failure log lines a ticket response leaves. */
  function FailureCount(r: TicketResponse): nat {
    if r == Status(TicketCreatedStatus) then 0 else 1
  }

  /** The ticket a refund notification for `refundIds` sends, its tags read as a set. */
  function NotificationTicket(env: Environment, student: User, refundIds: seq<RefundId>): TicketSummary
    requires student.profile.Some?
  {
    TicketSummary(RequesterName(student), student.email, RefundSubject,
                  RefundNotificationBody(student, refundIds, env.ecommerceUrlRoot, env.urlJoin),
                  {AutoRefundTag, PlatformTag})
  }

  /**
   * create_zendesk_ticket, by kind: nothing without all three settings;
   * otherwise one ticket carrying the requested tags and the platform marker,
   * and one failure line unless the API answered 201.
   */
  function TicketObservation(env: Environment, requesterName: string, requesterEmail: string, subject: string,
                             body: string, tags: set<string>): Observation
  {
    if !ZendeskConfigured(env.zendesk) then Nothing
    else Nothing.(tickets := [TicketSummary(requesterName, requesterEmail, subject, body, tags + {PlatformTag})],
                  ticketFailures := FailureCount(env.ticketResponse))
  }

  /**
   * The notification step of _process_refund, by kind: the suppression line
   * for any mode but verified, unless the course id read raised first; otherwise one notification attempt for the
   * pending refunds, which becomes a warning on a themed site or for a
   * learner without a profile, and sends the refund ticket when the ticketing
   * settings are present.
   */
  function NotificationObservation(env: Environment, product: CourseProduct, pending: seq<RefundId>): Observation {
    if product.mode != VerifiedMode then (if SuppressionRaises(product) then Nothing else Nothing.(suppressions := 1))
    else if env.themedSite || product.user.profile.None? then Nothing.(notifications := [pending], warnings := 1)
    else if !ZendeskConfigured(env.zendesk) then Nothing.(notifications := [pending])
    else Nothing.(notifications := [pending], tickets := [NotificationTicket(env, product.user, pending)],
                  ticketFailures := FailureCount(env.ticketResponse))
  }

  /** _process_refund, by kind: every refund tried once when auto-approval is on, then the notification step if any is left. */
  function ProcessRefundObservation(env: Environment, refundIds: seq<RefundId>, product: CourseProduct): Observation {
    AfterApprovals(env, product, if env.autoApproval then refundIds else [], RequiringApproval(env, refundIds))
  }

  /** The approval attempts, then the notification step when some refund is still pending. */
  function AfterApprovals(env: Environment, product: CourseProduct, approvals: seq<RefundId>, pending: seq<RefundId>): Observation {
    Nothing.(approvals := approvals).Then(if pending == [] then Nothing else NotificationObservation(env, product, pending))
  }

  /** refund_seat and refund_entitlement, by kind: the POST unless the service account is missing, then the processing of what was opened. */
  function RefundObservation(env: Environment, product: CourseProduct): Observation {
    match env.refundResponse
    case ServiceUserMissing => Nothing
    case PostFailed => Nothing.(posts := [RefundRequestFor(product)])
    case Opened(refundIds) =>
      Nothing.(posts := [RefundRequestFor(product)])
        .Then(if refundIds == [] then Nothing else ProcessRefundObservation(env, refundIds, product))
  }

  /** A handler, by kind: nothing behind a closed gate; otherwise the refund step and one error line if it raised. */
  function HandlerObservation(env: Environment, product: CourseProduct, allowed: bool): Observation {
    if !allowed then Nothing else RefundObservation(env, product).Then(ErrorLines(product, RefundException(env, product)))
  }

  /** The handler's error line for what the refund step raised: none, or one carrying the exception for an entitlement. */
  function ErrorLines(product: CourseProduct, raised: Option<Exception>): Observation {
    match raised
    case None => Nothing
    case Some(exc) => Nothing.(errors := [if product.Entitlement? then Some(exc) else None])
  }

  /** The first approval attempt, then the attempts for the rest. */
  lemma ApprovalEventsCons(refundIds: seq<RefundId>, succeeds: RefundId -> bool)
    requires refundIds != []
    ensures ApprovalEvents(refundIds, succeeds)
            == [ApprovalAttempted(refundIds[0], succeeds(refundIds[0]))] + ApprovalEvents(refundIds[1..], succeeds)
  {
  }

  /** The approval run records every refund once, in order, and nothing else. */
  lemma {:induction false} ObserveApprovalEvents(refundIds: seq<RefundId>, succeeds: RefundId -> bool)
    ensures Observe(ApprovalEvents(refundIds, succeeds)) == Nothing.(approvals := refundIds)
  {
    if refundIds != [] {
      var e := ApprovalAttempted(refundIds[0], succeeds(refundIds[0]));
      var rest := ApprovalEvents(refundIds[1..], succeeds);
      ApprovalEventsCons(refundIds, succeeds);
      ObserveCons(e, rest);
      ObserveSingle(e);
      ObserveApprovalEvents(refundIds[1..], succeeds);
      assert [refundIds[0]] + refundIds[1..] == refundIds;
    }
  }

  lemma ObserveFailureLog(r: TicketResponse)
    ensures Observe(TicketFailureLog(r)) == Nothing.(ticketFailures := FailureCount(r))
  {
    match r
    case Status(code) =>
      if code != TicketCreatedStatus {
        ObserveSingle(TicketRejected(code));
      }
    case TransportFailure =>
      ObserveSingle(TicketPostFailed);
  }

  /** Every trace create_zendesk_ticket may leave is seen as TicketObservation, and the tags it sends are never repeated. */
  lemma ObserveTicketTrace(env: Environment, requesterName: string, requesterEmail: string, subject: string,
                           body: string, tags: set<string>, t: seq<Event>)
    requires TicketTrace(env, requesterName, requesterEmail, subject, body, tags, t)
    ensures Observe(t) == TicketObservation(env, requesterName, requesterEmail, subject, body, tags)
    ensures ZendeskConfigured(env.zendesk) ==> NoDuplicates(t[0].ticket.tags)
  {
    if ZendeskConfigured(env.zendesk) {
      assert t == [t[0]] + t[1..];
      ObserveCons(t[0], t[1..]);
      ObserveFailureLog(env.ticketResponse);
      ObserveSingle(t[0]);
      assert Summary(t[0].ticket).tags == tags + {PlatformTag};
    }
  }

  /** An attempted notification that raised: the attempt and the warning. */
  lemma ObserveFailedNotification(pending: seq<RefundId>, t: seq<Event>)
    requires |t| >= 1 && t[0] == NotificationAttempted(pending) && t[1..] == [NotificationWarning]
    ensures Observe(t) == Nothing.(notifications := [pending], warnings := 1)
  {
    assert t == [t[0]] + t[1..];
    ObserveCons(t[0], t[1..]);
    ObserveSingle(t[0]);
    ObserveSingle(NotificationWarning);
  }

  /** An attempted notification that went through: the attempt and what the ticketing step did. */
  lemma ObserveSentNotification(env: Environment, student: User, pending: seq<RefundId>, t: seq<Event>)
    requires student.profile.Some?
    requires |t| >= 1 && t[0] == NotificationAttempted(pending) && NotificationTrace(env, student, pending, t[1..])
    ensures Observe(t) == Nothing.(notifications := [pending]).Then(
              TicketObservation(env, RequesterName(student), student.email, RefundSubject,
                                RefundNotificationBody(student, pending, env.ecommerceUrlRoot, env.urlJoin),
                                {AutoRefundTag}))
  {
    assert t == [t[0]] + t[1..];
    ObserveCons(t[0], t[1..]);
    ObserveSingle(t[0]);
    ObserveTicketTrace(env, RequesterName(student), student.email, RefundSubject,
                       RefundNotificationBody(student, pending, env.ecommerceUrlRoot, env.urlJoin),
                       {AutoRefundTag}, t[1..]);
  }

  lemma ObserveNotificationStep(env: Environment, product: CourseProduct, pending: seq<RefundId>, t: seq<Event>)
    requires NotificationStepTrace(env, product, pending, t)
    ensures Observe(t) == NotificationObservation(env, product, pending)
  {
    if product.mode != VerifiedMode {
      if SuppressionRaises(product) {
        ObserveEmpty();
      } else {
        ObserveSingle(t[0]);
      }
    } else if env.themedSite || product.user.profile.None? {
      ObserveFailedNotification(pending, t);
    } else {
      ObserveSentNotification(env, product.user, pending, t);
      assert {AutoRefundTag} + {PlatformTag} == {AutoRefundTag, PlatformTag};
    }
  }

  lemma ObserveProcessRefund(env: Environment, refundIds: seq<RefundId>, product: CourseProduct, t: seq<Event>)
    requires ProcessRefundTrace(env, refundIds, product, t)
    ensures Observe(t) == ProcessRefundObservation(env, refundIds, product)
  {
    var run := ApprovalRun(env, refundIds);
    var rest := t[|run|..];
    assert t == run + rest;
    ObserveApprovalRun(env, refundIds);
    ObserveAfterApprovals(env, product, if env.autoApproval then refundIds else [],
                          RequiringApproval(env, refundIds), run, rest);
  }

  /** The approval run is seen as the approvals tried, in order, and nothing else. */
  lemma ObserveApprovalRun(env: Environment, refundIds: seq<RefundId>)
    ensures Observe(ApprovalRun(env, refundIds)) == Nothing.(approvals := if env.autoApproval then refundIds else [])
  {
    if env.autoApproval {
      ObserveApprovalEvents(refundIds, env.approvalSucceeds);
    }
  }

  /** Approvals followed by the notification step for what is still pending. */
  lemma ObserveAfterApprovals(env: Environment, product: CourseProduct, approvals: seq<RefundId>,
                              pending: seq<RefundId>, run: seq<Event>, rest: seq<Event>)
    requires Observe(run) == Nothing.(approvals := approvals)
    requires pending == [] ==> rest == []
    requires pending != [] ==> NotificationStepTrace(env, product, pending, rest)
    ensures Observe(run + rest) == AfterApprovals(env, product, approvals, pending)
  {
    ObserveAppend(run, rest);
    if pending != [] {
      ObserveNotificationStep(env, product, pending, rest);
    }
  }

  /** The refund POST followed by the processing of the refunds it opened. */
  lemma ObserveOpenedRefunds(env: Environment, product: CourseProduct, refundIds: seq<RefundId>, t: seq<Event>)
    requires |t| >= 1 && t[0] == RefundPosted(RefundRequestFor(product))
    requires refundIds == [] ==> |t| == 1
    requires refundIds != [] ==> ProcessRefundTrace(env, refundIds, product, t[1..])
    ensures Observe(t) == Nothing.(posts := [RefundRequestFor(product)])
                            .Then(if refundIds == [] then Nothing else ProcessRefundObservation(env, refundIds, product))
  {
    ObserveSingle(t[0]);
    if refundIds == [] {
      assert t == [t[0]];
      ThenNothing(Nothing.(posts := [RefundRequestFor(product)]));
    } else {
      assert t == [t[0]] + t[1..];
      ObserveCons(t[0], t[1..]);
      ObserveProcessRefund(env, refundIds, product, t[1..]);
    }
  }

  lemma ObserveRefundTrace(env: Environment, product: CourseProduct, t: seq<Event>)
    requires RefundTrace(env, product, t)
    ensures Observe(t) == RefundObservation(env, product)
  {
    match env.refundResponse
    case ServiceUserMissing =>
    case PostFailed =>
      ObserveSingle(t[0]);
    case Opened(refundIds) =>
      ObserveOpenedRefunds(env, product, refundIds, t);
  }

  /** A trace followed by one error log line is seen as the trace plus that line's exception. */
  lemma ObserveErrorLine(body: seq<Event>, userId: int, productId: string, exc: Option<Exception>)
    ensures Observe(body + [RefundErrorLogged(userId, productId, exc)]) == Observe(body).Then(Nothing.(errors := [exc]))
  {
    ObserveAppend(body, [RefundErrorLogged(userId, productId, exc)]);
    ObserveSingle(RefundErrorLogged(userId, productId, exc));
  }

  /** A refund step that raised, followed by its error log line. */
  lemma ObserveRaisedRefund(env: Environment, product: CourseProduct, t: seq<Event>, exc: Option<Exception>)
    requires |t| >= 1
    requires RefundTrace(env, product, t[..|t| - 1])
    requires t[|t| - 1] == RefundErrorLogged(product.user.id, ProductId(product), exc)
    ensures Observe(t) == RefundObservation(env, product).Then(Nothing.(errors := [exc]))
  {
    var body := t[..|t| - 1];
    assert t == body + [t[|t| - 1]];
    ObserveErrorLine(body, product.user.id, ProductId(product), exc);
    ObserveRefundTrace(env, product, body);
  }

  lemma ObserveCompletedHandler(env: Environment, product: CourseProduct, allowed: bool, t: seq<Event>)
    requires allowed
    requires RefundException(env, product).None?
    requires RefundTrace(env, product, t)
    ensures Observe(t) == HandlerObservation(env, product, allowed)
  {
    ObserveRefundTrace(env, product, t);
    ThenNothing(RefundObservation(env, product));
  }

  lemma ObserveFailedHandler(env: Environment, product: CourseProduct, allowed: bool, t: seq<Event>)
    requires allowed
    requires RefundException(env, product).Some?
    requires HandlerTrace(env, product, allowed, t)
    ensures Observe(t) == HandlerObservation(env, product, allowed)
  {
    var exc := RefundException(env, product).value;
    ObserveRaisedRefund(env, product, t, if product.Entitlement? then Some(exc) else None);
  }

  lemma ObserveHandler(env: Environment, product: CourseProduct, allowed: bool, t: seq<Event>)
    requires HandlerTrace(env, product, allowed, t)
    ensures Observe(t) == HandlerObservation(env, product, allowed)
  {
    if !allowed {
    } else if RefundException(env, product).None? {
      ObserveCompletedHandler(env, product, allowed, t);
    } else {
      ObserveFailedHandler(env, product, allowed, t);
    }
  }

  // ---------------------------------------------------------------------------
  // What the handlers promise
  // ---------------------------------------------------------------------------

  /** The notification step by kind: what it sends is decided by the mode, the site, the profile and the settings alone. */
  lemma NotificationStepEffects(env: Environment, product: CourseProduct, pending: seq<RefundId>)
    ensures var o := NotificationObservation(env, product, pending);
            var notify := product.mode == VerifiedMode;
            var fails := env.themedSite || product.user.profile.None?;
            && o.posts == [] && o.approvals == [] && o.errors == []
            && o.notifications == (if notify then [pending] else [])
            && o.suppressions == (if notify || SuppressionRaises(product) then 0 else 1)
            && o.warnings == (if notify && fails then 1 else 0)
            && o.tickets == (if notify && !fails && ZendeskConfigured(env.zendesk)
                             then [NotificationTicket(env, product.user, pending)] else [])
  {
  }

  /** _process_refund by kind: the approval attempts are kept in order; nothing is posted and nothing raised. */
  lemma ProcessRefundRequests(env: Environment, product: CourseProduct, approvals: seq<RefundId>, pending: seq<RefundId>)
    ensures AfterApprovals(env, product, approvals, pending).posts == []
    ensures AfterApprovals(env, product, approvals, pending).errors == []
    ensures AfterApprovals(env, product, approvals, pending).approvals == approvals
  {
    if pending != [] {
      NotificationStepEffects(env, product, pending);
    }
  }

  /**
   * _process_refund by kind: a notification is attempted, for exactly the
   * refunds still requiring approval, if and only if some refund requires
   * approval and the mode is verified; with any other mode the suppression
   * line is logged instead, unless reading the course id raised first.
   */
  lemma ProcessRefundNotifications(env: Environment, product: CourseProduct, approvals: seq<RefundId>, pending: seq<RefundId>)
    ensures AfterApprovals(env, product, approvals, pending).notifications
            == if pending != [] && product.mode == VerifiedMode then [pending] else []
    ensures AfterApprovals(env, product, approvals, pending).suppressions
            == if pending != [] && product.mode != VerifiedMode && !SuppressionRaises(product) then 1 else 0
  {
    if pending != [] {
      NotificationStepEffects(env, product, pending);
    }
  }

  /**
   * _process_refund by kind: an attempted notification becomes one warning on
   * a themed site or for a learner without a profile, and otherwise sends the
   * refund ticket when the ticketing settings are present.
   */
  lemma ProcessRefundTickets(env: Environment, product: CourseProduct, approvals: seq<RefundId>, pending: seq<RefundId>)
    ensures var notify := pending != [] && product.mode == VerifiedMode;
            AfterApprovals(env, product, approvals, pending).warnings
            == if notify && (env.themedSite || product.user.profile.None?) then 1 else 0
    ensures var notify := pending != [] && product.mode == VerifiedMode;
            AfterApprovals(env, product, approvals, pending).tickets
            == if notify && !env.themedSite && product.user.profile.Some? && ZendeskConfigured(env.zendesk)
               then [NotificationTicket(env, product.user, pending)] else []
  {
    if pending != [] {
      NotificationStepEffects(env, product, pending);
    }
  }

  /** The refunds a handler opened, if any: none behind a closed gate or when the refund step raised. */
  function OpenedRefunds(env: Environment, allowed: bool): seq<RefundId> {
    if allowed && env.refundResponse.Opened? then env.refundResponse.refundIds else []
  }

  /** The POST, then a step that posts and logs nothing itself, then the error lines. */
  lemma ComposeOpened(h: Observation, r: Observation, o: Observation, e: Observation, post: RefundRequest,
                      errors: seq<Option<Exception>>)
    requires h == r.Then(e) && r == Nothing.(posts := [post]).Then(o) && e == Nothing.(errors := errors)
    requires o.posts == [] && o.errors == []
    ensures h == o.(posts := [post], errors := errors)
  {
  }

  /**
   * A handler that opened some refunds is seen as the POST followed by
   * _process_refund on them, and one error line carrying AttributeError when
   * that processing raised.
   */
  lemma HandlerOpened(env: Environment, product: CourseProduct, allowed: bool)
    requires OpenedRefunds(env, allowed) != []
    ensures var refunds := OpenedRefunds(env, allowed);
            var o := ProcessRefundObservation(env, refunds, product);
            HandlerObservation(env, product, allowed)
            == o.(posts := [RefundRequestFor(product)],
                  errors := if ProcessRefundRaises(env, refunds, product) then [Some(AttributeError)] else [])
  {
    var refunds := OpenedRefunds(env, allowed);
    var errors: seq<Option<Exception>> := if ProcessRefundRaises(env, refunds, product) then [Some(AttributeError)] else [];
    HandlerAllowed(env, product, allowed, refunds);
    RefundObservationOpened(env, product, refunds);
    ErrorLinesOpened(env, product, refunds);
    ProcessRefundPostsErrors(env, product, refunds);
    ComposeOpened(HandlerObservation(env, product, allowed), RefundObservation(env, product),
                  ProcessRefundObservation(env, refunds, product), ErrorLines(product, RefundException(env, product)),
                  RefundRequestFor(product), errors);
  }

  /** A handler behind an open gate: the refund step, then the error line for what it raised. */
  lemma HandlerAllowed(env: Environment, product: CourseProduct, allowed: bool, refunds: seq<RefundId>)
    requires refunds == OpenedRefunds(env, allowed) && refunds != []
    ensures env.refundResponse == Opened(refunds)
    ensures HandlerObservation(env, product, allowed)
            == RefundObservation(env, product).Then(ErrorLines(product, RefundException(env, product)))
  {
  }

  /** Once refunds were opened, the handler's error line is the AttributeError of processing them, if that raised. */
  lemma ErrorLinesOpened(env: Environment, product: CourseProduct, refunds: seq<RefundId>)
    requires refunds != [] && env.refundResponse == Opened(refunds)
    ensures ErrorLines(product, RefundException(env, product))
            == Nothing.(errors := if ProcessRefundRaises(env, refunds, product) then [Some(AttributeError)] else [])
  {
    OpenedRefundException(env, product, refunds);
  }

  /** _process_refund by kind posts nothing and logs no error line itself. */
  lemma ProcessRefundPostsErrors(env: Environment, product: CourseProduct, refunds: seq<RefundId>)
    ensures ProcessRefundObservation(env, refunds, product).posts == []
    ensures ProcessRefundObservation(env, refunds, product).errors == []
  {
    ProcessRefundRequests(env, product, if env.autoApproval then refunds else [], RequiringApproval(env, refunds));
  }

  /** The refund step that opened some refunds: the POST, then _process_refund on them. */
  lemma RefundObservationOpened(env: Environment, product: CourseProduct, refunds: seq<RefundId>)
    requires refunds != [] && env.refundResponse == Opened(refunds)
    ensures RefundObservation(env, product)
            == Nothing.(posts := [RefundRequestFor(product)]).Then(ProcessRefundObservation(env, refunds, product))
  {
  }

  /** A handler that opened no refund tries no approval and attempts no notification. */
  lemma HandlerNotOpened(env: Environment, product: CourseProduct, allowed: bool)
    requires OpenedRefunds(env, allowed) == []
    ensures HandlerObservation(env, product, allowed)
            == Nothing.(posts := HandlerObservation(env, product, allowed).posts,
                        errors := HandlerObservation(env, product, allowed).errors)
  {
  }

  /**
   * A handler by kind: the refund POST goes out, once, only behind an open
   * gate and when the service account exists; approvals are tried only for
   * opened refunds with auto-approval on; a raised refund step leaves exactly
   * one error line, carrying the exception for an entitlement.
   */
  lemma HandlerRequests(env: Environment, product: CourseProduct, allowed: bool)
    ensures HandlerObservation(env, product, allowed).posts
            == if allowed && !env.refundResponse.ServiceUserMissing? then [RefundRequestFor(product)] else []
    ensures HandlerObservation(env, product, allowed).errors
            == if allowed && RefundException(env, product).Some?
               then [if product.Entitlement? then RefundException(env, product) else None] else []
    ensures HandlerObservation(env, product, allowed).approvals
            == if env.autoApproval then OpenedRefunds(env, allowed) else []
  {
    var refunds := OpenedRefunds(env, allowed);
    HandlerErrors(env, product, allowed);
    if refunds != [] {
      HandlerOpened(env, product, allowed);
      ProcessRefundRequests(env, product, if env.autoApproval then refunds else [], RequiringApproval(env, refunds));
    } else {
      HandlerNotOpened(env, product, allowed);
    }
  }

  /** The error lines of a handler: one for a raised refund step, carrying the exception for an entitlement. */
  lemma HandlerErrors(env: Environment, product: CourseProduct, allowed: bool)
    ensures HandlerObservation(env, product, allowed).errors
            == if allowed && RefundException(env, product).Some?
               then [if product.Entitlement? then RefundException(env, product) else None] else []
  {
    var refunds := OpenedRefunds(env, allowed);
    if refunds != [] {
      assert allowed && env.refundResponse == Opened(refunds);
      HandlerOpenedErrors(env, product, allowed);
      OpenedRefundException(env, product, refunds);
      ErrorsOfRaised(HandlerObservation(env, product, allowed).errors, RefundException(env, product),
                     ProcessRefundRaises(env, refunds, product), product.Entitlement?);
    } else {
      HandlerNotOpenedErrors(env, product, allowed);
    }
  }

  /** The error lines of a handler that opened no refund: one for a raised gateway step, none otherwise. */
  lemma HandlerNotOpenedErrors(env: Environment, product: CourseProduct, allowed: bool)
    requires OpenedRefunds(env, allowed) == []
    ensures HandlerObservation(env, product, allowed).errors
            == if allowed && RefundException(env, product).Some?
               then [if product.Entitlement? then RefundException(env, product) else None] else []
  {
    if allowed {
      match env.refundResponse
      case ServiceUserMissing =>
      case PostFailed =>
      case Opened(refundIds) =>
        assert RefundException(env, product) == None;
        ThenNothing(RefundObservation(env, product));
    }
  }

  /** The error lines of a handler that opened refunds: the AttributeError of processing them, if that raised. */
  lemma HandlerOpenedErrors(env: Environment, product: CourseProduct, allowed: bool)
    requires OpenedRefunds(env, allowed) != []
    ensures HandlerObservation(env, product, allowed).errors
            == if ProcessRefundRaises(env, OpenedRefunds(env, allowed), product) then [Some(AttributeError)] else []
  {
    HandlerOpened(env, product, allowed);
  }

  /** An AttributeError line, raised only for an entitlement, is the line the handler logs for it. */
  lemma ErrorsOfRaised(errors: seq<Option<Exception>>, raised: Option<Exception>, raises: bool, isEntitlement: bool)
    requires errors == if raises then [Some(AttributeError)] else []
    requires raised == if raises then Some(AttributeError) else None
    requires raises ==> isEntitlement
    ensures errors == if raised.Some? then [if isEntitlement then raised else None] else []
  {
  }

  /** Once refunds were opened, the refund step raises only the AttributeError of processing them, for an entitlement. */
  lemma OpenedRefundException(env: Environment, product: CourseProduct, refunds: seq<RefundId>)
    requires refunds != [] && env.refundResponse == Opened(refunds)
    ensures RefundException(env, product)
            == if ProcessRefundRaises(env, refunds, product) then Some(AttributeError) else None
    ensures ProcessRefundRaises(env, refunds, product) ==> product.Entitlement?
  {
  }

  /**
   * A handler by kind: a notification is attempted exactly for the opened
   * refunds still requiring approval, when there are any and the mode is
   * verified; with any other mode the suppression line is logged instead,
   * unless reading the course id raised first.
   */
  lemma HandlerNotifications(env: Environment, product: CourseProduct, allowed: bool)
    ensures var pending := RequiringApproval(env, OpenedRefunds(env, allowed));
            HandlerObservation(env, product, allowed).notifications
            == if pending != [] && product.mode == VerifiedMode then [pending] else []
    ensures var pending := RequiringApproval(env, OpenedRefunds(env, allowed));
            HandlerObservation(env, product, allowed).suppressions
            == if pending != [] && product.mode != VerifiedMode && !SuppressionRaises(product) then 1 else 0
  {
    var refunds := OpenedRefunds(env, allowed);
    if refunds != [] {
      HandlerOpened(env, product, allowed);
      ProcessRefundNotifications(env, product, if env.autoApproval then refunds else [], RequiringApproval(env, refunds));
    } else {
      HandlerNotOpened(env, product, allowed);
    }
  }

  /** A handler by kind: at most one refund ticket, sent only when a notification was attempted and could be sent. */
  lemma HandlerTickets(env: Environment, product: CourseProduct, allowed: bool)
    ensures var pending := RequiringApproval(env, OpenedRefunds(env, allowed));
            var notify := pending != [] && product.mode == VerifiedMode;
            HandlerObservation(env, product, allowed).warnings
            == if notify && (env.themedSite || product.user.profile.None?) then 1 else 0
    ensures var pending := RequiringApproval(env, OpenedRefunds(env, allowed));
            var notify := pending != [] && product.mode == VerifiedMode;
            HandlerObservation(env, product, allowed).tickets
            == if notify && !env.themedSite && product.user.profile.Some? && ZendeskConfigured(env.zendesk)
               then [NotificationTicket(env, product.user, pending)] else []
  {
    var refunds := OpenedRefunds(env, allowed);
    if refunds != [] {
      HandlerOpened(env, product, allowed);
      ProcessRefundTickets(env, product, if env.autoApproval then refunds else [], RequiringApproval(env, refunds));
    } else {
      HandlerNotOpened(env, product, allowed);
    }
  }

  // ---------------------------------------------------------------------------
  // Approvals, notification bodies and review links
  // ---------------------------------------------------------------------------

  /** The refunds left for approval are exactly those whose approval failed, never more than were opened. */
  lemma {:induction false} FailedApprovalsMembers(refundIds: seq<RefundId>, succeeds: RefundId -> bool)
    ensures forall x :: x in FailedApprovals(refundIds, succeeds) <==> x in refundIds && !succeeds(x)
    ensures |FailedApprovals(refundIds, succeeds)| <= |refundIds|
    ensures FailedApprovals(refundIds, succeeds) == [] <==> forall i :: 0 <= i < |refundIds| ==> succeeds(refundIds[i])
  {
    if refundIds != [] {
      var rest := refundIds[1..];
      FailedApprovalsMembers(rest, succeeds);
      assert refundIds == [refundIds[0]] + rest;
      forall i | 0 <= i < |rest| ensures rest[i] == refundIds[i + 1] { }
    }
  }

  /** Filtering failures commutes with concatenation: a failure never reorders or drops a later refund. */
  lemma {:induction false} FailedApprovalsAppend(a: seq<RefundId>, b: seq<RefundId>, succeeds: RefundId -> bool)
    ensures FailedApprovals(a + b, succeeds) == FailedApprovals(a, succeeds) + FailedApprovals(b, succeeds)
  {
    if a == [] {
      assert a + b == b;
    } else {
      var x, rest := a[0], a[1..];
      FailedApprovalsAppend(rest, b, succeeds);
      assert a == [x] + rest && a + b == [x] + (rest + b);
      FailedApprovalsCons(x, rest, succeeds);
      FailedApprovalsCons(x, rest + b, succeeds);
    }
  }

  /** The first refund's result, then the failures among the rest. */
  lemma FailedApprovalsCons(x: RefundId, rest: seq<RefundId>, succeeds: RefundId -> bool)
    ensures FailedApprovals([x] + rest, succeeds)
            == (if succeeds(x) then [] else [x]) + FailedApprovals(rest, succeeds)
  {
    assert ([x] + rest)[1..] == rest;
  }

  /** A newline followed by the links, one per line, splits into an empty line and the links. */
  lemma LinkLines(urls: seq<string>)
    requires |urls| > 0
    requires forall i :: 0 <= i < |urls| ==> '\n' !in urls[i]
    ensures Split(['\n'] + Join(urls, "\n"), '\n') == [""] + urls
  {
    SplitJoin(urls, '\n');
    SplitAtSeparator([], Join(urls, "\n"), '\n');
    assert [] + ['\n'] + Join(urls, "\n") == ['\n'] + Join(urls, "\n");
  }

  /**
   * The lines of a notification body: the lines of the message, one empty
   * line, then one review link per refund, in order.
   */
  lemma NotificationBodyLines(student: User, refundIds: seq<RefundId>, root: string, urlJoin: (string, string) -> string)
    requires |refundIds| > 0
    requires forall i :: 0 <= i < |refundIds| ==> '\n' !in urlJoin(root, RefundReviewPath(refundIds[i]))
    ensures Split(RefundNotificationBody(student, refundIds, root, urlJoin), '\n')
            == Split(RefundMessage(student), '\n') + [""] + RefundUrls(root, refundIds, urlJoin)
  {
    var urls := RefundUrls(root, refundIds, urlJoin);
    var msg := RefundMessage(student);
    var rest := ['\n'] + Join(urls, "\n");
    LinkLines(urls);
    assert RefundNotificationBody(student, refundIds, root, urlJoin) == msg + ['\n'] + rest;
    SplitAtSeparator(msg, rest, '\n');
  }

  /** A refund id can be read back from its review path. */
  lemma ReviewPathNamesRefund(id: RefundId)
    requires id >= 0
    ensures var path := RefundReviewPath(id);
            var digits := path[|"/dashboard/refunds/"|..|path| - 1];
            && digits == NatToString(id)
            && DecimalValue(digits) == id
  {
    var path := RefundReviewPath(id);
    assert path == "/dashboard/refunds/" + NatToString(id) + "/";
    assert path[|"/dashboard/refunds/"|..|path| - 1] == NatToString(id);
    DecimalRoundTrip(id);
  }

  // ---------------------------------------------------------------------------
  // Scenarios
  // ---------------------------------------------------------------------------

  /** Without a request user the enrollment path acts for the enrollee; the entitlement path does nothing. */
  lemma MissingRequestUser(env: Environment, seat: CourseProduct, entitlement: CourseProduct, refundable: bool)
    requires env.commerceConfigured && refundable && env.requestUser.None?
    ensures SeatRefundAllowed(env, seat, refundable)
    ensures !EntitlementRefundAllowed(env, entitlement, refundable)
  {
  }

  /** An anonymous request user means no refund on either path. */
  lemma AnonymousRequestUser(env: Environment, product: CourseProduct, refundable: bool)
    requires env.requestUser == Some(AnonymousUser)
    ensures !SeatRefundAllowed(env, product, refundable)
    ensures !EntitlementRefundAllowed(env, product, refundable)
  {
  }

  /**
   * A verified unenrollment with auto-approval off and one refund opened:
   * exactly one notification, one ticket, and the ticket body ends with the
   * blank line and the single review link.
   */
  lemma VerifiedRefundNotifies(env: Environment, seat: CourseProduct, refundable: bool, id: RefundId)
    requires env.commerceConfigured && refundable && env.requestUser.None? && !env.autoApproval
    requires env.refundResponse == Opened([id])
    requires seat.Seat? && seat.mode == VerifiedMode
    requires !env.themedSite && seat.user.profile.Some? && ZendeskConfigured(env.zendesk)
    requires '\n' !in env.urlJoin(env.ecommerceUrlRoot, RefundReviewPath(id))
    ensures var o := HandlerObservation(env, seat, SeatRefundAllowed(env, seat, refundable));
            && o.notifications == [[id]]
            && |o.tickets| == 1
            && Split(o.tickets[0].body, '\n')
               == Split(RefundMessage(seat.user), '\n') + ["", env.urlJoin(env.ecommerceUrlRoot, RefundReviewPath(id))]
  {
    var allowed := SeatRefundAllowed(env, seat, refundable);
    assert allowed && OpenedRefunds(env, allowed) == [id] && RequiringApproval(env, [id]) == [id];
    HandlerNotifications(env, seat, allowed);
    HandlerTickets(env, seat, allowed);
    SingleLinkTicket(env, seat.user, id);
  }

  /** The refund ticket for one refund: the message, a blank line and its review link. */
  lemma SingleLinkTicket(env: Environment, student: User, id: RefundId)
    requires student.profile.Some?
    requires '\n' !in env.urlJoin(env.ecommerceUrlRoot, RefundReviewPath(id))
    ensures Split(NotificationTicket(env, student, [id]).body, '\n')
            == Split(RefundMessage(student), '\n') + ["", env.urlJoin(env.ecommerceUrlRoot, RefundReviewPath(id))]
  {
    assert RefundUrls(env.ecommerceUrlRoot, [id], env.urlJoin) == [env.urlJoin(env.ecommerceUrlRoot, RefundReviewPath(id))];
    NotificationBodyLines(student, [id], env.ecommerceUrlRoot, env.urlJoin);
  }

  /** An unenrollment in any mode but verified, one refund opened: the suppression line and no notification. */
  lemma UnverifiedRefundSuppressed(env: Environment, seat: CourseProduct, refundable: bool, id: RefundId)
    requires env.commerceConfigured && refundable && env.requestUser.None? && !env.autoApproval
    requires env.refundResponse == Opened([id])
    requires seat.Seat? && seat.mode != VerifiedMode
    ensures var o := HandlerObservation(env, seat, SeatRefundAllowed(env, seat, refundable));
            o.notifications == [] && o.suppressions == 1 && o.tickets == []
  {
    var allowed := SeatRefundAllowed(env, seat, refundable);
    HandlerNotifications(env, seat, allowed);
    HandlerTickets(env, seat, allowed);
  }

  /**
   * An entitlement refund in a mode other than verified with refunds left for
   * approval: with a `course_id` the suppression line is logged and nothing
   * is raised; without one the read raises first, nothing is suppressed, and
   * the handler logs the AttributeError with the exception.
   */
  lemma UnverifiedEntitlementSuppression(env: Environment, entitlement: CourseProduct, allowed: bool)
    requires entitlement.Entitlement? && entitlement.mode != VerifiedMode
    requires RequiringApproval(env, OpenedRefunds(env, allowed)) != []
    ensures HandlerObservation(env, entitlement, allowed).suppressions
            == if entitlement.courseIdAttribute.Some? then 1 else 0
    ensures HandlerObservation(env, entitlement, allowed).errors
            == if entitlement.courseIdAttribute.Some? then [] else [Some(AttributeError)]
    ensures HandlerObservation(env, entitlement, allowed).notifications == []
  {
    var refunds := OpenedRefunds(env, allowed);
    assert refunds != [];
    OpenedRefundException(env, entitlement, refunds);
    HandlerNotifications(env, entitlement, allowed);
    HandlerRequests(env, entitlement, allowed);
  }

  /** An entitlement refund by its owner, two refunds opened and both approved: both tried, no notification. */
  lemma EntitlementFullyApproved(env: Environment, entitlement: CourseProduct, refundable: bool, a: RefundId, b: RefundId)
    requires env.commerceConfigured && refundable && env.autoApproval
    requires entitlement.Entitlement? && env.requestUser == Some(Member(entitlement.user))
    requires env.refundResponse == Opened([a, b])
    requires env.approvalSucceeds(a) && env.approvalSucceeds(b)
    ensures var o := HandlerObservation(env, entitlement, EntitlementRefundAllowed(env, entitlement, refundable));
            && o.posts == [EntitlementRefund(entitlement.orderNumber, entitlement.user.username, entitlement.uuid)]
            && o.approvals == [a, b]
            && o.notifications == [] && o.tickets == [] && o.errors == []
  {
    var ok := env.approvalSucceeds;
    assert FailedApprovals([b], ok) == [] by {
      assert [b][1..] == [];
    }
    assert FailedApprovals([a, b], ok) == [] by {
      assert [a, b][1..] == [b];
    }
    var posted := Nothing.(posts := [RefundRequestFor(entitlement)]);
    var approved := Nothing.(approvals := [a, b]);
    assert ProcessRefundObservation(env, [a, b], entitlement) == approved.Then(Nothing);
    ThenNothing(approved);
    assert HandlerObservation(env, entitlement, true) == posted.Then(approved).Then(Nothing);
    ThenNothing(posted.Then(approved));
  }

  /**
   * A refund POST that fails: both handlers log one error line and carry on;
   * only the entitlement handler's line carries the exception.
   */
  lemma RefundPostFails(env: Environment, product: CourseProduct, allowed: bool)
    requires allowed && env.refundResponse == PostFailed
    ensures var o := HandlerObservation(env, product, allowed);
            && o.posts == [RefundRequestFor(product)]
            && o.errors == [if product.Entitlement? then Some(GatewayError) else None]
            && o.approvals == [] && o.notifications == [] && o.tickets == []
  {
    HandlerRequests(env, product, allowed);
    HandlerNotifications(env, product, allowed);
    HandlerTickets(env, product, allowed);
  }

  /** Auto-approval on, three refunds opened and the middle one fails: only that one is left for approval. */
  lemma OneOfThreeFails(env: Environment, a: RefundId, b: RefundId, c: RefundId)
    requires env.autoApproval
    requires env.approvalSucceeds(a) && !env.approvalSucceeds(b) && env.approvalSucceeds(c)
    ensures RequiringApproval(env, [a, b, c]) == [b]
  {
    var ok := env.approvalSucceeds;
    assert FailedApprovals([c], ok) == [] by {
      assert [c][1..] == [];
    }
    assert FailedApprovals([b, c], ok) == [b] by {
      assert [b, c][1..] == [c];
    }
    assert [a, b, c][1..] == [b, c];
  }
}
