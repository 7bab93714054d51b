# Refunds, learner analytics and enterprise support helpers, modelled in Dafny

This project models three pieces of the Open edX LMS.

- **Refund orchestration on unenrollment** (`lms/djangoapps/commerce/signals.py`, module
  `CommerceSignals` in `commerce_signals.dfy`).
  - When a learner unenrolls from a paid seat, or asks for an entitlement refund, a signal handler decides whether to
    ask the e-commerce service for a refund.
  - It then posts the refund and tries to auto-approve each refund that was opened.
  - For what is left over, it notifies the support team with a Zendesk ticket, but only for verified enrollments.
  - Every failure along the way is caught and logged, never raised.
  - Everything the code asks of its surroundings is an input, gathered in an `Environment`:
    - whether commerce is configured and who made the request;
    - the auto-approval flag and the refund API's answer;
    - whether approving one refund works, and whether the site is themed;
    - the Zendesk settings and what the ticket POST answers.
  - What the code does to its surroundings comes back as a trace of `Event`s: calls made, and log lines that record a
    swallowed failure.
  - The methods follow the source branch by branch. The `...Trace` predicates say which traces each step can leave.
  - `Observe` groups a trace by kind of event. The `...Observation` functions give the expected grouping from the
    inputs alone, and lemmas prove the two agree.
- **The learner-analytics week streak** (`openedx/features/learner_analytics/views.py`, module `LearnerAnalytics` in
  `learner_analytics.dfy`).
  - A learner's daily activities are cut into seven-day buckets, most recent first. The streak counts the leading
    buckets with any activity.
  - The same file holds the graded-assignment schedule filter and the empty-check and reversal of the engagement
    timeline.
- **Enterprise support helpers** (`openedx/features/enterprise_support/utils.py`, module `EnterpriseSupport` in
  `enterprise_support.dfy`).
  - The string hashed into a cache key.
  - The in-place rewrite of the third-party-auth context's `errorMessage` for an enterprise customer. The context is a
    class whose `entries` map is updated.

Module `Base` (`base.dfy`) holds the shared vocabulary:
- an `Option`;
- Python's `sep.join` and `s.split` on one character;
- the decimal rendering of an int.

## Model

| member | source | states |
|---|---|---|
| CommerceSignals.CreateZendeskTicket | lms/djangoapps/commerce/signals.py:234-278 | With any one of URL, user or API key unset, nothing is sent. Otherwise one ticket is posted to the tickets endpoint with `user/token` credentials. Its tag list holds exactly the caller's tags plus `LMS`, with no duplicates. A non-201 status or a transport failure leaves one failure log line and is never raised. The caller's tag array cannot be modified. |
| CommerceSignals.ObserveTicketTrace | lms/djangoapps/commerce/signals.py:236-278 | Every trace the ticket step may leave has the same observation: nothing when unconfigured, otherwise one ticket plus one failure line exactly when the status is not 201. The tags sent have no duplicates. |
| CommerceSignals.NotificationTicketTrace | lms/djangoapps/commerce/signals.py:300-310 | The one-tag list `['auto_refund']`, the student's full name and email, the refund subject and the generated body give the notification ticket. |
| CommerceSignals.SendRefundNotification | lms/djangoapps/commerce/signals.py:297-310 | A themed site raises NotImplementedError before any ticket call. A student without a profile raises before any ticket call. Otherwise the notification ticket is created and the call returns. |
| CommerceSignals.NotificationBodyLines | lms/djangoapps/commerce/signals.py:281-294 | Read line by line, the body is the message's lines, one empty line, then exactly one review URL per refund ID in order. |
| CommerceSignals.LinkLines | lms/djangoapps/commerce/signals.py:294 | A newline followed by the newline-join of URLs that hold no newline splits back into an empty line and those URLs. |
| CommerceSignals.ReviewPathNamesRefund | lms/djangoapps/commerce/signals.py:290-292 | The review path `/dashboard/refunds/{id}/` carries the decimal digits of the refund ID, and they read back to that ID. |
| CommerceSignals.ProcessRefund | lms/djangoapps/commerce/signals.py:96-144 | Returns the requiring-approval list. It returns normally, unless some refund requires approval and the product is a non-verified entitlement without a `course_id`: then the read raises AttributeError. The trace is the approval run followed by the notification step, or nothing when no refund needs approval. |
| CommerceSignals.NotifyPending | lms/djangoapps/commerce/signals.py:118-144 | A non-verified mode logs one suppression line, except that an entitlement without a `course_id` raises AttributeError first and logs nothing. A verified mode attempts the notification and turns a raised notification into one warning. |
| CommerceSignals.ApprovalEventsExtend | lms/djangoapps/commerce/signals.py:105-114 | Each loop iteration appends exactly one approval attempt for the next refund ID. |
| CommerceSignals.NotificationStepAfterSend | lms/djangoapps/commerce/signals.py:127-144 | For a verified product, the attempt is followed by the ticket when the notification succeeds. When it raises, the attempt is followed by exactly one warning. |
| CommerceSignals.ProcessRefundTraceOf | lms/djangoapps/commerce/signals.py:100-144 | The approval run followed by a step that obeys the notification rule is an allowed trace of _process_refund. |
| CommerceSignals.FailedApprovalsMembers | lms/djangoapps/commerce/signals.py:102-116 | Under auto-approval the list requiring approval holds exactly the IDs whose approval failed and no more IDs than were opened. It is empty if and only if every approval succeeded. |
| CommerceSignals.FailedApprovalsAppend | lms/djangoapps/commerce/signals.py:105-114 | A failure never skips later IDs: the failures of a concatenation are the failures of each part, in order. |
| CommerceSignals.ObserveApprovalEvents | lms/djangoapps/commerce/signals.py:105-114 | The approval loop tries every opened refund exactly once, in order. |
| CommerceSignals.ObserveApprovalRun | lms/djangoapps/commerce/signals.py:102-116 | Approvals are tried for all opened refunds when the flag is on, and for none when it is off. |
| CommerceSignals.ObserveNotificationStep | lms/djangoapps/commerce/signals.py:118-144 | The notification step shows, in order: one suppression line for any non-verified mode, or nothing when the course id read raised; otherwise one attempt, plus a warning when it raises, or the notification ticket. |
| CommerceSignals.ObserveAfterApprovals | lms/djangoapps/commerce/signals.py:102-144 | The approvals followed by the notification step (or by nothing when no refund needs approval) observe as the two parts in sequence. |
| CommerceSignals.ObserveProcessRefund | lms/djangoapps/commerce/signals.py:96-144 | Every trace _process_refund may leave has the observation its inputs determine. |
| CommerceSignals.NotificationStepEffects | lms/djangoapps/commerce/signals.py:118-144 | The notification step makes a notification attempt if and only if the mode is verified. Otherwise it logs exactly one suppression line, unless the course id read raised. It gives a warning exactly when a verified notification raises (themed site or no profile). It sends a ticket only when the notification succeeds and Zendesk is configured. It posts no refund and logs no refund error. |
| CommerceSignals.ProcessRefundRequests | lms/djangoapps/commerce/signals.py:96-144 | _process_refund posts no refund, logs no refund error, and its approval attempts are exactly the run it was given. |
| CommerceSignals.ProcessRefundNotifications | lms/djangoapps/commerce/signals.py:118-138 | A notification is attempted if and only if the requiring-approval list is non-empty and the mode is verified. Suppression is logged if and only if the list is non-empty, the mode is not verified and the course id read does not raise. |
| CommerceSignals.ProcessRefundTickets | lms/djangoapps/commerce/signals.py:118-144 | A warning is logged exactly when a due notification meets a themed site or a missing profile. A ticket is sent exactly when a due notification meets neither and Zendesk is configured. |
| CommerceSignals.RefundProduct | lms/djangoapps/commerce/signals.py:96-231 | Returns the gateway's refund-ID list unchanged when processing it does not raise. Otherwise it raises the exception the gateway step met, or the AttributeError of processing. A missing service account means no POST. _process_refund runs only when the list is non-empty. |
| CommerceSignals.ObserveRefundTrace | lms/djangoapps/commerce/signals.py:166-231 | Every trace of refund_seat or refund_entitlement has the observation its inputs determine: one POST with the product's payload unless the service account is missing, then _process_refund for a non-empty list. |
| CommerceSignals.HandlerTraceAfterRefund | lms/djangoapps/commerce/signals.py:49-81 | When the refund step raises, the handler appends exactly one error log line and returns normally. Only the entitlement line carries the exception. |
| CommerceSignals.HandleRefundOrder | lms/djangoapps/commerce/signals.py:28-57 | No enrollment means no call. Otherwise a refund is started only when commerce is configured, the enrollment is refundable and the acting user is not anonymous. The acting user is the request user, falling back to the enrollee. Any refund exception is logged, never raised. |
| CommerceSignals.HandleRefundEntitlement | lms/djangoapps/commerce/signals.py:60-81 | No entitlement means no call. Otherwise a refund is started only when commerce is configured, the entitlement is refundable and a request user exists and is the entitlement's owner, with no fallback. Any refund exception is logged with the exception, never raised. |
| CommerceSignals.ObserveHandler | lms/djangoapps/commerce/signals.py:28-81 | Every trace either handler may leave has the observation its inputs determine. |
| CommerceSignals.HandlerOpened | lms/djangoapps/commerce/signals.py:28-231 | When refunds were opened, the handler's effects are the refund POST followed by exactly the effects of _process_refund on that list. One AttributeError error line follows when that processing raised. |
| CommerceSignals.OpenedRefundException | lms/djangoapps/commerce/signals.py:124-138 | Once refunds were opened, the refund step raises only AttributeError. It does so exactly when processing reads a missing `course_id`, which happens only for an entitlement. |
| CommerceSignals.HandlerNotOpened | lms/djangoapps/commerce/signals.py:35-81 | When no refund was opened (gate closed, empty list or failure), the handler makes no approval, notification or ticket; at most a POST and an error line. |
| CommerceSignals.HandlerRequests | lms/djangoapps/commerce/signals.py:35-81 | A refund is POSTed if and only if the gate is open and the service account exists. An error line is logged if and only if the gate is open and the refund step raised, the AttributeError of processing included. Approvals are tried exactly for the opened refunds under auto-approval. |
| CommerceSignals.HandlerErrors | lms/djangoapps/commerce/signals.py:35-81 | A handler logs one error line exactly when the gate is open and the refund step raised. That line carries the exception on the entitlement path only. |
| CommerceSignals.HandlerNotifications | lms/djangoapps/commerce/signals.py:118-138 | Seen from a handler: a notification is attempted if and only if the opened refunds leave some requiring approval and the mode is verified; otherwise one suppression line for a non-empty list, unless the course id read raised. |
| CommerceSignals.HandlerTickets | lms/djangoapps/commerce/signals.py:127-144 | Seen from a handler: the warning and ticket rules of the notification step, in terms of the handler's inputs. |
| CommerceSignals.MissingRequestUser | lms/djangoapps/commerce/signals.py:40-70 | With no request user, the seat path falls back to the enrollee and proceeds, while the entitlement path does not. |
| CommerceSignals.AnonymousRequestUser | lms/djangoapps/commerce/signals.py:40-70 | An anonymous request user starts no refund on either path. |
| CommerceSignals.VerifiedRefundNotifies | lms/djangoapps/commerce/signals.py:118-144 | A verified unenrollment with one refund opened and no auto-approval sends one ticket. Its body is the message, an empty line and that refund's review URL. |
| CommerceSignals.SingleLinkTicket | lms/djangoapps/commerce/signals.py:281-294 | The ticket for a single refund has the message, an empty line and that refund's review URL as its lines. |
| CommerceSignals.UnverifiedRefundSuppressed | lms/djangoapps/commerce/signals.py:124-138 | An unenrollment in another mode logs the suppression and sends no notification or ticket. |
| CommerceSignals.UnverifiedEntitlementSuppression | lms/djangoapps/commerce/signals.py:124-138 | An entitlement in a non-verified mode with refunds left for approval sends no notification. With a `course_id` it logs the suppression line and no error. Without one it logs no suppression, and the handler logs one error line carrying AttributeError. |
| CommerceSignals.EntitlementFullyApproved | lms/djangoapps/commerce/signals.py:102-118 | An owner's entitlement refund with two refunds both approved posts once, tries both approvals in order, and notifies nobody. |
| CommerceSignals.RefundPostFails | lms/djangoapps/commerce/signals.py:49-81 | A failing refund POST leaves one error line on either path, the exception only on the entitlement path, and nothing further. |
| CommerceSignals.OneOfThreeFails | lms/djangoapps/commerce/signals.py:105-116 | Of three refunds where only the middle approval fails, only that one requires approval. |
| Base.SplitJoin | lms/djangoapps/commerce/signals.py:294 | Splitting a newline-join of pieces without newlines gives the pieces back. |
| Base.DecimalRoundTrip | lms/djangoapps/commerce/signals.py:291 | The decimal rendering of a refund ID reads back to the same number. |
| LearnerAnalytics.BucketAt | openedx/features/learner_analytics/views.py:215 | There are ceil(len/7) buckets; bucket k is the slice of days from 7k up to 7k+7, or to the end. |
| LearnerAnalytics.BucketSizes | openedx/features/learner_analytics/views.py:215 | Every bucket holds one to seven days, and all but the last hold exactly seven. |
| LearnerAnalytics.BucketsFlatten | openedx/features/learner_analytics/views.py:215 | The buckets concatenated give back the days. |
| LearnerAnalytics.LeadingActiveIff | openedx/features/learner_analytics/views.py:216-220 | The count is n if and only if the first n buckets are active and bucket n, if any, is not: counting stops at the first inactive bucket. |
| LearnerAnalytics.StreakStartsIffFirstWeekActive | openedx/features/learner_analytics/views.py:214-234 | The streak is at least one if and only if some day among the first seven has a positive count. |
| LearnerAnalytics.InactiveTimelineNoStreak | openedx/features/learner_analytics/views.py:214-234 | A timeline where no day has a positive count has streak 0, whatever its length. |
| LearnerAnalytics.ActiveTimelineFullStreak | openedx/features/learner_analytics/views.py:214-234 | A timeline where every day has activity has the full streak of ceil(len/7) weeks. |
| LearnerAnalytics.WeekStreakBound | openedx/features/learner_analytics/views.py:214-221 | The streak is at most ceil(len/7), and equals it if and only if every bucket has activity. |
| LearnerAnalytics.CalculateWeekStreak | openedx/features/learner_analytics/views.py:202-221 | The loop with early return computes the number of leading active buckets; an empty list gives 0. |
| LearnerAnalytics.Reversed | openedx/features/learner_analytics/views.py:195 | The reversed timeline has the same length, and entry i is entry len-1-i of the original. |
| LearnerAnalytics.ReversedTwice | openedx/features/learner_analytics/views.py:195 | Reversing twice gives back the timeline. |
| LearnerAnalytics.LatestWeekFirst | openedx/features/learner_analytics/views.py:194-198 | After the reversal the first bucket is the most recent (up to) seven days, latest first. |
| LearnerAnalytics.ConsecutiveWeeksOfCourseActivity | openedx/features/learner_analytics/views.py:166-200 | The API is consulted if and only if the cached timeline is missing or empty. A cached timeline's streak is returned as is. Empty or missing `days` give 0 and store nothing. Otherwise the reversed days are stored and their streak returned. |
| LearnerAnalytics.GetSchedule | openedx/features/learner_analytics/views.py:118-140 | The result keeps exactly the blocks that are graded and have a due date, under their original locations, each with its due date in ISO form. |
| EnterpriseSupport.KeyPieces | openedx/features/enterprise_support/utils.py:31 | One `name:value` piece per argument, in iteration order. |
| EnterpriseSupport.PreHashKeySingle | openedx/features/enterprise_support/utils.py:31 | A single argument gives its piece alone, with no separator. |
| EnterpriseSupport.PreHashKeyAppend | openedx/features/enterprise_support/utils.py:31 | The key of a longer argument list is the keys of its parts joined by one `__`. |
| EnterpriseSupport.PreHashKeyPair | openedx/features/enterprise_support/utils.py:31 | Two arguments give both pieces with one `__` between them. |
| EnterpriseSupport.DocumentedExample | openedx/features/enterprise_support/utils.py:19-23 | `site_domain="example.com", resource="enterprise-learner"` gives `site_domain:example.com__resource:enterprise-learner`. |
| EnterpriseSupport.CacheKeyCollides | openedx/features/enterprise_support/utils.py:28-33 | The key is not unique to its arguments, whatever the hash: a value containing `__` and `:` gives the same key as two different arguments. |
| EnterpriseSupport.EnterpriseErrorMessage | openedx/features/enterprise_support/utils.py:49-67 | The enterprise wording ends with the original error message. |
| EnterpriseSupport.UnchangedWithoutGuard | openedx/features/enterprise_support/utils.py:48-70 | A falsy enterprise customer, or an empty error message, returns the context unchanged. |
| EnterpriseSupport.KeyErrorCases | openedx/features/enterprise_support/utils.py:48-57 | KeyError arises if and only if the customer is given and either the context has no `errorMessage`, or the message is non-empty and the customer has no `name`. |
| EnterpriseSupport.OnlyErrorMessageRewritten | openedx/features/enterprise_support/utils.py:48-70 | Only `errorMessage` may change: no key appears or disappears and every other key keeps its value. A change happens only under the guard, and the new message ends with the old one. |
| EnterpriseSupport.UpdateThirdPartyAuthContextForEnterprise | openedx/features/enterprise_support/utils.py:36-70 | The same context object is returned, its entries rewritten exactly as the update rule says; a KeyError leaves them as they were. |

## Left out

- HTTP transport is not modelled. This covers the refund POST, approval PUTs, the ticket POST, the engagement-timeline
  request and the Analytics client. Their answers are inputs: the refund response, the per-ID approval result, the
  ticket status or transport failure, and the timeline's `days`.
- Django ORM and request lookups are inputs. This covers `User.objects.get` for the service user, `get_request_user`
  with its request cache, `CommerceConfiguration`, `is_commerce_service_configured`, `refundable()`, themed-site
  detection and `configuration_helpers`.
- Whether an entitlement object has a `course_id` attribute, and its value, is an input (`courseIdAttribute`). The
  entitlement model is not part of this model. Without the attribute, the read in the suppression branch raises
  AttributeError.
- A failing `student.profile` lookup is the exception `ProfileDoesNotExist`. Other exceptions the code could meet
  outside the refund step are not modelled.
- Log lines appear only where they record a handled failure: a ticket failure, a suppressed notification, a
  notification warning, a refund error. Informational and debug lines are omitted, as is the text of every log
  message.
- Translation (`ugettext`) and `Text`/`HTML` markup escaping are not modelled. The enterprise message is built
  untranslated and unescaped.
- `urljoin` is a function parameter with no assumed behaviour.
- The ticket's JSON encoding and request headers are not modelled; the ticket payload is a datatype.
- `CreateZendeskTicket` does not fix the order of the tags, because `list(set(...))` has none. The contract states
  membership and no duplicates only.
- The MD5 digest is a function parameter. `CacheKey` equal for equal arguments (determinism) holds because `CacheKey`
  is a function, so no lemma states it.
- `EnterpriseSupport.Argument`: keyword-argument values arrive already rendered by `'{}'.format`. The Python 2 order of
  `iteritems` is the sequence order of the arguments.
- `EnterpriseSupport.Value`: only `None` and strings, the values this code reads and writes. Other dictionary values
  are not modelled, and the rest of the enterprise customer and of the context are opaque map entries.
- The platform name and the support URL are parameters.
- Django's cache is not modelled as such. In `ConsecutiveWeeksOfCourseActivity` the cache read is an input and the
  write is an output (`stored`). The cache key string, built from the username and the course key only, is left out
  because the read and the write are already those input and output. `seconds_to_cache_expiration` is left out
  because it reads the wall clock.
- `get_weekly_course_activities` is not modelled: it caches or fetches one count for the page and feeds neither the
  week streak nor the schedule.
- `get_grade_data`, `get_discussion_data`, the view's `get` and its decorators are not part of this model (rendering and
  float arithmetic).
- `HasActivity` takes counts that are already integers. The `int(...)` parsing of the counts, and its ValueError on a
  non-numeric count, are not modelled. A missing count key is not modelled either.
- `GetSchedule` works on values:
  - It returns new scheduled blocks. It does not rewrite in place the `due` field of the dictionaries inside the
    blocks-API result, which the view creates and discards.
  - `isoformat` is a function parameter.
  - `modulestore` and `get_blocks` are replaced by the input map of sequential blocks.
