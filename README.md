# Bulk delete snap-in: a verified model

This project models the core of the bulk delete snap-in in Dafny. An administrator tags
objects on the DevRev platform. The snap-in then deletes every object that carries those
tags. The objects are works (tickets, issues or opportunities), accounts or contacts.

The snap-in works in stages:

- On the first click it posts a private warning and stores the chosen object type.
- It then asks for a Yes/No confirmation on an internal form.
- On Yes it posts a public notice and dispatches to the driver for the stored type.
- Each driver deletes one page of objects. It then either schedules a follow-up event that
  resumes the work, or posts a summary comment.
- The project also models the local development runner. The runner validates inbound
  requests, runs the named function once per event, and reports the snap-in's status after
  lifecycle hooks.

## How it is modelled

- **Platform requests** (`platform.dfy`). Every SDK request is a `Call` value. An operation
  returns its *trace*: the sequence of requests it issues, in order.
- **Platform answers.** The platform's answers come from an `Api` oracle, a datatype of
  total functions. A rejected request is `Thrown`. A list response that lacks its list is
  `Thrown` for plain lookups and an absent `items` for pages.
- **Effects.** The effects of a trace are read off with projections:
  - `Deletes`: the objects deleted;
  - `Created`: the timeline entries posted;
  - `EntriesRemoved`: the timeline entries removed;
  - `StoreWrites`: the stored input values written;
  - `Scheduled`: the follow-up events scheduled.
- **Drivers** (`works_delete.dfy`, `contacts_delete.dfy`, `accounts_delete.dfy`). They loop
  and count, so each is an imperative method. A method's `ensures` states that its trace
  equals a specification function. The properties are lemmas about those functions.
- **Entry point and confirmation step** (`bulk_delete_all.dfy`, `issue_warning.dfy`,
  `devutils.dfy`). These are straight-line sequences of requests, so they are functions.
  `run` loops over events and is a method.
- **Runner** (`runner.dfy`). Events and hook results are JavaScript values (`Js`). Reading
  a field of `undefined` or `null` throws. The runner's effects are its responses, the
  function calls it makes and the system updates it posts. `handleEvent` is a method with
  the source's loop and its shared `error` variable.

Several behaviours of the code are reproduced as written:

- **No `object_type` key.** `globals` (`devUtils.ts:3-23`) has no `object_type` key. The
  account and contact drivers therefore store an undefined object type when they write back
  their count (`DevUtils.GlobalsConstants`, `ContactsDelete.ContactsResumeEffects`,
  `AccountsDelete.ConcludeEffects`).
- **First rev org only.** Account eligibility looks at the first rev org only
  (`AccountsDelete.FirstRevOrgDecides`).
- **Short last page still resumes.** The account top-up reads `limit - held` slots whether
  or not the page has that many. So the held list always reaches 100 slots, and a short last
  page still schedules a resume instead of the summary
  (`AccountsDelete.ShortLastPageStillResumes`).
- **Undefined slots.** An `undefined` slot throws inside both the `try` and the `catch` of
  its vetting. Its promise rejects, so it is neither deleted nor counted.
- **Form shown unchecked.** `handleEvent` of `bulk_delete_all` reaches `issueWarning` only
  for events without a timeline entry. The earlier first-run test catches every event that
  has one. So the access check inside `issueWarning` never runs on that path
  (`BulkDeleteAll.BranchOf`).
- **Work failures reset.** The work and contact drivers count failures from zero on each
  page. The account driver carries the stored count forward.
- **Runner error never reset.** The runner's `error` variable is never reset between
  events (`runner.ts:70`). An entry after a failed event therefore carries the earlier
  error. A later activation hook is then reported as failed
  (`Runner.ErrorCarriesOver`, `Runner.CarriedErrorFailsActivation`).
- **Unreachable sync rejection.** The synchronous route wraps its body in a one-element
  list. So the "multiple events" rejection of `handleEvent` is unreachable through it
  (`Runner.SyncRouteNeverRejectsMany`).

## Model

| member | source | states |
|---|---|---|
| Platform.CountFailed | bulk-delete/code/src/functions/bulk_delete/contacts_delete.ts:32-42 | the failure tally of settled deletes is at most the number of ids, and zero iff every delete succeeds |
| Platform.DeleteEachEffects | bulk-delete/code/src/functions/bulk_delete/works_delete.ts:50-59 | one delete request per id, in order, deletes exactly those ids and has no other effect |
| Platform.ReadsOnlyNoEffects | bulk-delete/code/src/functions/utils/devUtils.ts:62-90 | list and lookup requests delete, post, remove, write and schedule nothing |
| DevUtils.GlobalsOf | bulk-delete/code/src/functions/utils/devUtils.ts:3-23 | the page limit is 100 and the event type is the fixed scheduled one, whatever the event |
| DevUtils.GlobalsConstants | bulk-delete/code/src/functions/utils/devUtils.ts:3-23 | every event yields the same limit and event type, and `object_type` is undefined whatever is stored |
| DevUtils.SomeMember | bulk-delete/code/src/functions/utils/devUtils.ts:72 | true iff some member id equals the user id |
| DevUtils.HasAccess | bulk-delete/code/src/functions/utils/devUtils.ts:62-77 | no group means access with no request; otherwise one member lookup, access iff the user is a member, denial when the lookup rejects |
| DevUtils.MatchingNames | bulk-delete/code/src/functions/utils/devUtils.ts:84-87 | no more names than listed tags |
| DevUtils.MatchingNamesMembers | bulk-delete/code/src/functions/utils/devUtils.ts:84-87 | a name is kept iff some listed tag with a wanted id carries it |
| DevUtils.MatchingNamesAppend | bulk-delete/code/src/functions/utils/devUtils.ts:84-87 | the filter keeps list order: filtering a concatenation concatenates the filtered parts |
| DevUtils.FilteredTagNames | bulk-delete/code/src/functions/utils/devUtils.ts:79-90 | one tag listing of limit 100; succeeds iff the listing does and tags are configured (or none are listed); then the names of the listed tags with a configured id |
| DevUtils.UpdateBodyOf | bulk-delete/code/src/functions/utils/devUtils.ts:45-52 | the written inputs: the count (0 for null), the object type and validation as given; no contract of its own, used by `UpdateSnapIn` |
| DevUtils.UpdateSnapIn | bulk-delete/code/src/functions/utils/devUtils.ts:38-60 | one update request carrying the count (0 for null), the object type and validation as given; its answer is the platform's, and a rejection stays a rejection |
| DevUtils.ScheduleFollowUp | bulk-delete/code/src/functions/utils/devUtils.ts:25-36 | exactly one schedule request for the given body; its value is false exactly when the request rejects, the rethrow |
| WorksDelete.WorkTypeOf | bulk-delete/code/src/functions/bulk_delete/works_delete.ts:16-29 | a work type exactly for Tickets, Issues and Opportunities, each mapped to its own type (Ticket, Issue, Opportunity) |
| WorksDelete.WorksTrace | bulk-delete/code/src/functions/bulk_delete/works_delete.ts:5-110 | the driver's requests: the first page of the chosen type, one delete per work, then the resume or the probe and summary; no contract of its own, its properties are the lemmas below |
| WorksDelete.DeleteWorks | bulk-delete/code/src/functions/bulk_delete/works_delete.ts:5-110 | the requests the driver issues equal `WorksTrace` |
| WorksDelete.WorksTraceOfPage | bulk-delete/code/src/functions/bulk_delete/works_delete.ts:33-106 | a non-empty first page gives the list request, one delete per work, then the resume or the probe |
| WorksDelete.WorksListsChosenType | bulk-delete/code/src/functions/bulk_delete/works_delete.ts:16-35 | the first request lists the chosen work type, and every list request of the invocation is of that type |
| WorksDelete.WorksUnknownTypeIsSilent | bulk-delete/code/src/functions/bulk_delete/works_delete.ts:26-28 | any other object type issues no request |
| WorksDelete.WorksEmptyPageStops | bulk-delete/code/src/functions/bulk_delete/works_delete.ts:33-44 | a rejected, missing or empty first page ends the call after that read, with no effect |
| WorksDelete.WorksDeletesEachOnce | bulk-delete/code/src/functions/bulk_delete/works_delete.ts:46-59 | every work of the page is deleted once, in page order, and nothing else is |
| WorksDelete.NoDeletesAfter | bulk-delete/code/src/functions/bulk_delete/works_delete.ts:68-106 | the requests after the deletes delete nothing |
| WorksDelete.WorksCursorResumes | bulk-delete/code/src/functions/bulk_delete/works_delete.ts:69-86 | with a cursor: one store write with this page's failure count, a 5-second resume iff the write answered truthy, no summary |
| WorksDelete.WorksResumeEffects | bulk-delete/code/src/functions/bulk_delete/works_delete.ts:69-86 | the resume requests write once and schedule at most once, iff the write answered truthy |
| WorksDelete.WorksLastPageSummarises | bulk-delete/code/src/functions/bulk_delete/works_delete.ts:87-105 | without a cursor: a limit-1 probe right after the deletes, no write or schedule, and the summary when the probe succeeds |
| WorksDelete.WorksProbeEffects | bulk-delete/code/src/functions/bulk_delete/works_delete.ts:87-105 | the probe writes, schedules and deletes nothing and posts the summary exactly when the probe succeeds |
| WorksDelete.WorksSummaryWording | bulk-delete/code/src/functions/bulk_delete/works_delete.ts:97-98 | the summary reads as a failure iff works remain, and is internal |
| WorksDelete.WorksResumeOrSummary | bulk-delete/code/src/functions/bulk_delete/works_delete.ts:68-106 | at most one store write and at most one of a resume and a summary, and never both |
| ContactsDelete.ContactsTrace | bulk-delete/code/src/functions/bulk_delete/contacts_delete.ts:5-85 | the driver's requests: the first page, one delete per contact, then the resume or the probe and summary; no contract of its own, its properties are the lemmas below |
| ContactsDelete.DeleteContacts | bulk-delete/code/src/functions/bulk_delete/contacts_delete.ts:5-85 | the requests the driver issues equal `ContactsTrace` |
| ContactsDelete.ContactsTraceOfPage | bulk-delete/code/src/functions/bulk_delete/contacts_delete.ts:16-81 | a non-empty first page gives the list request, one delete per contact, then the resume or the probe |
| ContactsDelete.ContactsEmptyPageStops | bulk-delete/code/src/functions/bulk_delete/contacts_delete.ts:16-26 | a rejected, missing or empty first page ends the call after that read, with no effect |
| ContactsDelete.NoDeletesAfter | bulk-delete/code/src/functions/bulk_delete/contacts_delete.ts:44-81 | the requests after the deletes delete nothing |
| ContactsDelete.ContactsDeletesEachOnce | bulk-delete/code/src/functions/bulk_delete/contacts_delete.ts:28-42 | every contact of the page is deleted once, in page order, and nothing else is |
| ContactsDelete.ContactsResumeEffects | bulk-delete/code/src/functions/bulk_delete/contacts_delete.ts:45-62 | one store write with an undefined object type; a schedule iff it answered truthy |
| ContactsDelete.ContactsProbeEffects | bulk-delete/code/src/functions/bulk_delete/contacts_delete.ts:63-81 | the probe writes and schedules nothing and posts at most the summary |
| ContactsDelete.ContactsCursorResumes | bulk-delete/code/src/functions/bulk_delete/contacts_delete.ts:45-62 | with a cursor: one write with this page's failures, a 5-second resume iff truthy, no summary |
| ContactsDelete.ContactsLastPageSummarises | bulk-delete/code/src/functions/bulk_delete/contacts_delete.ts:63-81 | without a cursor: a limit-1 probe after the deletes, no write or schedule, the summary when the probe succeeds |
| ContactsDelete.ContactsSummaryWording | bulk-delete/code/src/functions/bulk_delete/contacts_delete.ts:72-73 | the summary reads as a failure iff contacts remain |
| ContactsDelete.ContactsResumeOrSummary | bulk-delete/code/src/functions/bulk_delete/contacts_delete.ts:44-81 | at most one write, always with an undefined object type, and at most one of a resume and a summary |
| AccountsDelete.Segment | bulk-delete/code/src/functions/bulk_delete/accounts_delete.ts:40-42 | exactly `hi - lo` slots |
| AccountsDelete.Pad | bulk-delete/code/src/functions/bulk_delete/accounts_delete.ts:51-53 | exactly `n` slots: slot k is the page's k-th account while the page lasts, and undefined exactly past its end |
| AccountsDelete.Verdicts | bulk-delete/code/src/functions/bulk_delete/accounts_delete.ts:57-80 | one settled result per slot |
| AccountsDelete.EligibleIds | bulk-delete/code/src/functions/bulk_delete/accounts_delete.ts:83-85 | no more accounts than results |
| AccountsDelete.IneligibleCount | bulk-delete/code/src/functions/bulk_delete/accounts_delete.ts:86-87 | the number of fulfilled, not deletable results, at most the number of results |
| AccountsDelete.SkipPages | bulk-delete/code/src/functions/bulk_delete/accounts_delete.ts:21-29 | the skip stage: one full-page read per whole hundred of the stored count; no contract of its own, `SkipPagesCounts` states its outcome |
| AccountsDelete.FetchRemainder | bulk-delete/code/src/functions/bulk_delete/accounts_delete.ts:32-43 | the remainder stage; no contract of its own, `FetchRemainderKeeps` states its outcome |
| AccountsDelete.TopUp | bulk-delete/code/src/functions/bulk_delete/accounts_delete.ts:44-54 | the top-up stage; no contract of its own, `TopUpPads` states its outcome |
| AccountsDelete.Collect | bulk-delete/code/src/functions/bulk_delete/accounts_delete.ts:21-54 | the three collection stages in turn, stopping at the first failure; no contract of its own, `CollectReadsOnly` and `SingleAccountCollected` are about it |
| AccountsDelete.Vet | bulk-delete/code/src/functions/bulk_delete/accounts_delete.ts:57-77 | the vetting of one slot; no contract of its own, `VetRule` and `FirstRevOrgDecides` state its outcome |
| AccountsDelete.VetCalls | bulk-delete/code/src/functions/bulk_delete/accounts_delete.ts:57-80 | the vetting requests of all slots, in order; no contract of its own, `VetCallsReadsOnly` is about it |
| AccountsDelete.Conclude | bulk-delete/code/src/functions/bulk_delete/accounts_delete.ts:120-138 | the store write, then the resume or the summary; no contract of its own, `ConcludeEffects` states its effects |
| AccountsDelete.Process | bulk-delete/code/src/functions/bulk_delete/accounts_delete.ts:57-138 | vetting, deletes and conclusion after a successful collection; no contract of its own |
| AccountsDelete.AccountsTrace | bulk-delete/code/src/functions/bulk_delete/accounts_delete.ts:5-142 | the driver's requests; no contract of its own, `AccountsEffects` and the lemmas beside it state its properties |
| AccountsDelete.SkipProcessed | bulk-delete/code/src/functions/bulk_delete/accounts_delete.ts:21-29 | the skip loop's requests and outcome equal `SkipPages` |
| AccountsDelete.FetchRemainderPage | bulk-delete/code/src/functions/bulk_delete/accounts_delete.ts:32-43 | the remainder request and its loop equal `FetchRemainder` |
| AccountsDelete.TopUpPage | bulk-delete/code/src/functions/bulk_delete/accounts_delete.ts:44-54 | the top-up request and its loop equal `TopUp` |
| AccountsDelete.CollectAccounts | bulk-delete/code/src/functions/bulk_delete/accounts_delete.ts:21-54 | the three collection stages equal `Collect` |
| AccountsDelete.VetAll | bulk-delete/code/src/functions/bulk_delete/accounts_delete.ts:57-80 | the vetting requests and results equal `VetCalls` and `Verdicts` |
| AccountsDelete.Separate | bulk-delete/code/src/functions/bulk_delete/accounts_delete.ts:83-91 | the kept accounts are `EligibleIds` and the total grows by `IneligibleCount` |
| AccountsDelete.DeleteEligible | bulk-delete/code/src/functions/bulk_delete/accounts_delete.ts:94-105 | one delete per kept account, and the total grows by the rejected deletes |
| AccountsDelete.DeleteAccounts | bulk-delete/code/src/functions/bulk_delete/accounts_delete.ts:5-142 | the requests the driver issues equal `AccountsTrace` |
| AccountsDelete.SkipPagesCounts | bulk-delete/code/src/functions/bulk_delete/accounts_delete.ts:21-29 | only reads; one request per whole hundred of a non-negative count, leaving the rest; stops at the first rejection |
| AccountsDelete.FetchRemainderKeeps | bulk-delete/code/src/functions/bulk_delete/accounts_delete.ts:32-43 | runs iff part of a hundred is left; keeps exactly the page's accounts past it, in order; fails iff the page rejects or has no list |
| AccountsDelete.TopUpPads | bulk-delete/code/src/functions/bulk_delete/accounts_delete.ts:44-54 | runs iff a full page was read or none; keeps the held accounts first, then slots up to `limit`, undefined past the page |
| AccountsDelete.CollectReadsOnly | bulk-delete/code/src/functions/bulk_delete/accounts_delete.ts:21-54 | collection only reads |
| AccountsDelete.VetRule | bulk-delete/code/src/functions/bulk_delete/accounts_delete.ts:57-77 | at most two reads; only an undefined slot rejects; a defined one is deletable iff it has rev orgs and the first has no linked ticket |
| AccountsDelete.FirstRevOrgDecides | bulk-delete/code/src/functions/bulk_delete/accounts_delete.ts:60-71 | only the first of two rev orgs decides, whatever the second has |
| AccountsDelete.VetCallsReadsOnly | bulk-delete/code/src/functions/bulk_delete/accounts_delete.ts:57-77 | vetting all slots only reads |
| AccountsDelete.EligibleIdsMembers | bulk-delete/code/src/functions/bulk_delete/accounts_delete.ts:83-85 | an account is kept iff its vetting fulfilled as deletable |
| AccountsDelete.VerdictsPartition | bulk-delete/code/src/functions/bulk_delete/accounts_delete.ts:83-91 | every fulfilled result is kept or counted, and only the rejected ones are neither |
| AccountsDelete.DeletedAccountsWereVetted | bulk-delete/code/src/functions/bulk_delete/accounts_delete.ts:83-96 | every deleted account is a held slot found deletable |
| AccountsDelete.TotalFailedBounds | bulk-delete/code/src/functions/bulk_delete/accounts_delete.ts:83-105 | the written count is at least the starting one and grows by at most one per held slot |
| AccountsDelete.ConcludeEffects | bulk-delete/code/src/functions/bulk_delete/accounts_delete.ts:120-138 | one write with the total and an undefined type; then a 20-second resume iff truthy and at least 100 slots, else the summary, unless the write rejects |
| AccountsDelete.AccountsTraceParts | bulk-delete/code/src/functions/bulk_delete/accounts_delete.ts:21-138 | after a successful collection the trace is collection, vetting, deletes, conclusion |
| AccountsDelete.AccountsCollectFailureIsSilent | bulk-delete/code/src/functions/bulk_delete/accounts_delete.ts:139-141 | a failed collection has no effect |
| AccountsDelete.AccountsEffects | bulk-delete/code/src/functions/bulk_delete/accounts_delete.ts:83-138 | exactly the deletable accounts are deleted, in order; one write of start + ineligible + rejected deletes; at most one of a resume and a summary |
| AccountsDelete.AccountsResumeOrSummary | bulk-delete/code/src/functions/bulk_delete/accounts_delete.ts:120-138 | at most one write, with an undefined object type, and at most one of a resume and a summary |
| AccountsDelete.SingleAccountCollected | bulk-delete/code/src/functions/bulk_delete/accounts_delete.ts:44-54 | a first run whose only page holds one account collects it followed by 99 undefined slots |
| AccountsDelete.ShortLastPageStillResumes | bulk-delete/code/src/functions/bulk_delete/accounts_delete.ts:44-54 | a single-account page still yields 100 slots, so a truthy write schedules a resume, not the summary |
| IssueWarning.PostForm | bulk-delete/code/src/functions/issue_warning/index.ts:43-126 | the tag listing, then the form unless the listing rejects; no contract of its own, `PostFormEffects` states its effects |
| IssueWarning.IssueWarning | bulk-delete/code/src/functions/issue_warning/index.ts:5-127 | the requests of `issueWarning`; no contract of its own, the lemmas below state its properties |
| IssueWarning.PostFormEffects | bulk-delete/code/src/functions/issue_warning/index.ts:43-126 | posting the form has no other effect and posts exactly the form unless the tag listing rejects |
| IssueWarning.RemovalPrecedesAccessCheck | bulk-delete/code/src/functions/issue_warning/index.ts:19-23 | with an entry, its removal comes first and the access check right after; a rejected removal ends the call |
| IssueWarning.UnauthorizedGetsNoForm | bulk-delete/code/src/functions/issue_warning/index.ts:24-40 | a user outside the group gets only the private refusal, after the removal |
| IssueWarning.AuthorizedGetsForm | bulk-delete/code/src/functions/issue_warning/index.ts:19-126 | an authorized user gets the form after the removal, unless the tag listing rejects |
| IssueWarning.NoEntryNoAccessCheck | bulk-delete/code/src/functions/issue_warning/index.ts:19-43 | without an entry no access check is made and the form is posted |
| IssueWarning.IssueWarningEffects | bulk-delete/code/src/functions/issue_warning/index.ts:5-127 | no delete, write or schedule, and at most one post |
| IssueWarning.RefusalIsPrivate | bulk-delete/code/src/functions/issue_warning/index.ts:26-34 | the refusal is private to the user and expires after five minutes |
| IssueWarning.FormOffersYesNo | bulk-delete/code/src/functions/issue_warning/index.ts:60-83 | the form offers Yes then No, answers to bulk_delete_all and is internal |
| IssueWarning.TitleNamesObjectType | bulk-delete/code/src/functions/issue_warning/index.ts:44-46 | the title names the stored object type right after its opening |
| IssueWarning.JoinContains | bulk-delete/code/src/functions/issue_warning/index.ts:44-46 | every name occurs in the joined list as a contiguous piece |
| IssueWarning.TitleNamesEveryTag | bulk-delete/code/src/functions/issue_warning/index.ts:44-46 | the title names every listed tag |
| BulkDeleteAll.BranchOf | bulk-delete/code/src/functions/bulk_delete_all/index.ts:18-130 | the branch each event takes, with each branch characterised by its event fields |
| BulkDeleteAll.Dispatch | bulk-delete/code/src/functions/bulk_delete_all/index.ts:118-130 | the switch on the stored object type; no contract of its own, `DispatchRoutes` and `DispatchEffects` are about it |
| BulkDeleteAll.WarnTrace | bulk-delete/code/src/functions/bulk_delete_all/index.ts:27-46 | the first-run branch: access check, then the refusal or `WarnAuthorized`; no contract of its own |
| BulkDeleteAll.WarnAuthorized | bulk-delete/code/src/functions/bulk_delete_all/index.ts:47-81 | the authorized first run; no contract of its own, `WarnAuthorizedEffects` and `WarnFullRunOrder` state it |
| BulkDeleteAll.AnswerTrace | bulk-delete/code/src/functions/bulk_delete_all/index.ts:91-130 | the answer branch; no contract of its own, `NoCancels`, `YesNotifiesThenDispatches` and `AnswerFailureStops` state it |
| BulkDeleteAll.HandleEvent | bulk-delete/code/src/functions/bulk_delete_all/index.ts:9-134 | the requests of one `handleEvent` call, by branch; no contract of its own, the lemmas below state its properties |
| BulkDeleteAll.RunTrace | bulk-delete/code/src/functions/bulk_delete_all/index.ts:136-140 | the requests of `run`, event by event; no contract of its own, `RunSchedulesAtMostOncePerEvent` is about it |
| BulkDeleteAll.DispatchDrivers | bulk-delete/code/src/functions/bulk_delete_all/index.ts:118-130 | the drivers run equal `Dispatch` |
| BulkDeleteAll.Run | bulk-delete/code/src/functions/bulk_delete_all/index.ts:136-140 | the requests of the event loop equal `RunTrace` |
| BulkDeleteAll.UnauthorizedFirstRun | bulk-delete/code/src/functions/bulk_delete_all/index.ts:27-46 | an unauthorized first run issues exactly the access check and the private refusal, so it removes, writes, schedules, deletes and lists nothing |
| BulkDeleteAll.AuthorizedFirstRunOrder | bulk-delete/code/src/functions/bulk_delete_all/index.ts:47-81 | warning, then removal, then the store reset; a follow-up iff the write answered truthy; nothing deleted |
| BulkDeleteAll.AuthorizedFirstRunTrace | bulk-delete/code/src/functions/bulk_delete_all/index.ts:27-47 | an authorized first run issues the access check, then what the authorized branch issues |
| BulkDeleteAll.AuthorizedFirstRunExact | bulk-delete/code/src/functions/bulk_delete_all/index.ts:47-81 | after the access check it issues exactly the warning, the removal, the store write and, iff truthy, the follow-up; no driver request |
| BulkDeleteAll.WarnAuthorizedEffects | bulk-delete/code/src/functions/bulk_delete_all/index.ts:47-81 | the effects of an authorized first run, case by case |
| BulkDeleteAll.WarnFullRunOrder | bulk-delete/code/src/functions/bulk_delete_all/index.ts:49-74 | the removal and the store write follow the warning, and the trace is exactly those requests plus the follow-up iff truthy |
| BulkDeleteAll.WarnFullRunEffects | bulk-delete/code/src/functions/bulk_delete_all/index.ts:63-81 | one store write (chosen value, 0, 'Not Set'); a 20-second follow-up with count 0 iff truthy |
| BulkDeleteAll.WarningFailureStops | bulk-delete/code/src/functions/bulk_delete_all/index.ts:58-61 | a rejected warning leaves the entry and the store untouched |
| BulkDeleteAll.WarnDeletesNothing | bulk-delete/code/src/functions/bulk_delete_all/index.ts:27-82 | every request of the first-run branch is the access lookup, a timeline post or removal, the store write or the follow-up, so no driver runs; nothing is deleted; at most one write and one schedule |
| BulkDeleteAll.WarnRequestsKinds | bulk-delete/code/src/functions/bulk_delete_all/index.ts:27-82 | the kinds of request the first-run branch issues, case by case |
| BulkDeleteAll.NotSetOnlyConfirms | bulk-delete/code/src/functions/bulk_delete_all/index.ts:85-88 | 'Not Set' without an answer runs only the confirmation step |
| BulkDeleteAll.NoCancels | bulk-delete/code/src/functions/bulk_delete_all/index.ts:91-96 | No removes the form and does nothing else |
| BulkDeleteAll.YesNotifiesThenDispatches | bulk-delete/code/src/functions/bulk_delete_all/index.ts:91-130 | Yes posts the public notice, then dispatches, even when the notice rejects |
| BulkDeleteAll.AnswerFailureStops | bulk-delete/code/src/functions/bulk_delete_all/index.ts:92-99 | a rejected form removal or tag listing runs no driver |
| BulkDeleteAll.DispatchEffects | bulk-delete/code/src/functions/bulk_delete_all/index.ts:118-130 | at most one write and at most one of a resume and a summary |
| BulkDeleteAll.DispatchRoutes | bulk-delete/code/src/functions/bulk_delete_all/index.ts:118-130 | work families to the work driver by name, Accounts and Contacts to theirs, anything else issues nothing |
| BulkDeleteAll.NoDeleteWithoutYes | bulk-delete/code/src/functions/bulk_delete_all/index.ts:27-130 | with an entry to remove, nothing is deleted unless the answer is Yes |
| BulkDeleteAll.AtMostOneSchedulePerEvent | bulk-delete/code/src/functions/bulk_delete_all/index.ts:9-134 | one event writes the store at most once and schedules at most once |
| BulkDeleteAll.AnswerEffects | bulk-delete/code/src/functions/bulk_delete_all/index.ts:91-130 | the effects of the answer branch |
| BulkDeleteAll.RunTraceAppend | bulk-delete/code/src/functions/bulk_delete_all/index.ts:136-140 | the requests of the event loop are those of each event in turn |
| BulkDeleteAll.RunSchedulesAtMostOncePerEvent | bulk-delete/code/src/functions/bulk_delete_all/index.ts:136-140 | the event loop schedules and writes at most once per event |
| Runner.HookResultOf | bulk-delete/code/test/runner.ts:233-265 | keeps `status` iff it is the accepted value or "error", and `inputs_values` iff it is an object; a non-object keeps nothing |
| Runner.HookResultWellFormed | bulk-delete/code/test/runner.ts:233-265 | what validation keeps is well formed |
| Runner.HookResultRoundTrip | bulk-delete/code/test/runner.ts:233-265 | a well-formed hook result survives being written out and validated again |
| Runner.HookResultIdempotent | bulk-delete/code/test/runner.ts:233-265 | validating twice is validating once |
| Runner.ActivateUpdate | bulk-delete/code/test/runner.ts:171-185 | Error iff a handler error or an "error" status, Active otherwise; validated inputs passed on |
| Runner.DeactivateUpdate | bulk-delete/code/test/runner.ts:187-210 | Error iff (an error or "error" status) and not forced; otherwise Inactive, marked for deletion iff asked |
| Runner.ForcedDeactivationNeverErrs | bulk-delete/code/test/runner.ts:194-207 | a forced deactivation is Inactive whatever happened |
| Runner.ActivateDeactivateAgree | bulk-delete/code/test/runner.ts:171-210 | with neither accepted status, activation and unforced deactivation fail alike |
| Runner.PostRun | bulk-delete/code/test/runner.ts:154-169 | the system update after each lifecycle hook; no contract of its own, `PostRunOnlyAfterHooks` and the update lemmas are about it |
| Runner.PostRunOnlyAfterHooks | bulk-delete/code/test/runner.ts:154-169 | events other than the two lifecycle hooks post no update |
| Runner.Entry | bulk-delete/code/test/runner.ts:131-140 | `function_result` present iff the result is defined; `error` as given |
| Runner.TryCall | bulk-delete/code/test/runner.ts:110-124 | the lookup and the call: NotFound, FunctionFailed or the result; no contract of its own, `EntryResult` and `EntryError` state it |
| Runner.NullishNameCrashes | bulk-delete/code/test/runner.ts:102 | reading the function name throws exactly when the event or its execution metadata is undefined or null, and such a pass throws before doing anything |
| Runner.EventStep | bulk-delete/code/test/runner.ts:100-141 | one pass responds to nothing, records in the entry the error it goes on with, and never clears an error |
| Runner.CrashIsFinal | bulk-delete/code/test/runner.ts:100-128 | after a pass throws, later events change nothing |
| Runner.ProcessExtend | bulk-delete/code/test/runner.ts:100-141 | each further event adds exactly one pass to the loop, unless an earlier pass threw |
| Runner.Process | bulk-delete/code/test/runner.ts:100-141 | the event loop over the events, stopping at the first pass that throws; no contract of its own, the loop lemmas are about it |
| Runner.HandleOne | bulk-delete/code/test/runner.ts:100-141 | one pass of the loop computes exactly the pass `EventStep` describes: the crash, or the error, the entry and the effects |
| Runner.HandleEventTrace | bulk-delete/code/test/runner.ts:69-151 | the request checks, then the loop with its responses; no contract of its own, the route lemmas are about it |
| Runner.HandleEvent | bulk-delete/code/test/runner.ts:69-151 | the runner's effects equal `HandleEventTrace` |
| Runner.ProcessNeverResponds | bulk-delete/code/test/runner.ts:100-141 | the event loop itself sends no response |
| Runner.NonArrayRejected | bulk-delete/code/test/runner.ts:73-82 | a non-array body is answered 400 and no function runs |
| Runner.SyncManyRejected | bulk-delete/code/test/runner.ts:84-94 | a synchronous request of several events is answered 400 and no function runs |
| Runner.AsyncAcknowledgedFirst | bulk-delete/code/test/runner.ts:95-98 | an asynchronous request is answered 200 first, and only once |
| Runner.SyncAnsweredAfterwards | bulk-delete/code/test/runner.ts:143-150 | a synchronous request is answered once with its first result, unless a pass threw |
| Runner.AsyncRoute | bulk-delete/code/test/runner.ts:44-52 | the asynchronous route; no contract of its own |
| Runner.SyncRoute | bulk-delete/code/test/runner.ts:54-62 | the synchronous route, wrapping the body in a list; no contract of its own |
| Runner.SyncRouteNeverRejectsMany | bulk-delete/code/test/runner.ts:54-62 | the synchronous route never yields the several-events rejection |
| Runner.OneResultPerEvent | bulk-delete/code/test/runner.ts:100-141 | one entry per event, or one per event before the pass that threw |
| Runner.ResultsPrefix | bulk-delete/code/test/runner.ts:100-141 | the results of a prefix of the events begin the results of all of them |
| Runner.ResultsAreSteps | bulk-delete/code/test/runner.ts:100-141 | entry k is the pass over event k under the error left by the events before it |
| Runner.ErrorPersists | bulk-delete/code/test/runner.ts:70 | once the loop has an error it keeps one |
| Runner.ErrorCarriesOver | bulk-delete/code/test/runner.ts:70-140 | once an entry carries an error, every later entry does |
| Runner.EntryResult | bulk-delete/code/test/runner.ts:110-135 | the result is present iff the function was found, called and returned a defined value |
| Runner.EntryError | bulk-delete/code/test/runner.ts:103-139 | the error is present iff one was left over or this pass records one |
| Runner.CarriedErrorFailsActivation | bulk-delete/code/test/runner.ts:70-185 | after an unknown function name, a clean activation is still reported as Error |

## Left out

- Network I/O is not modelled. This covers the Express server and its routes'
  `listen`, `HTTPClient` and the POST in `updateSnapInState`, and `client.setupBeta`.
  The platform is the `Api` oracle, and the runner's system update is an effect value.
- Console logging is not modelled.
- Timestamps are not modelled: `Date.now()` and `expires_at` are symbolic delays.
- The base64 JSON event payload is left out. So is the spread of the previous payload
  into it. A follow-up event is modelled by its failure count and delay.
- The API base, token, actor id and `objectID` fields of `globals` are not modelled,
  because the core never decides on them.
- The SnapKit card layout is modelled only through its title, its two option values and
  its action name.
- `Promise.allSettled` concurrency is serialised in list order.
  - Every delete outcome is a function of the id alone.
  - Within one invocation, a list answer is a function of its query alone.
- `CountFailed`, `DeleteEach`, `Verdicts`, `EligibleIds` and `IneligibleCount` are
  functions. In the source they are `map`/`forEach` callbacks, which leave nothing to
  update in place. The account driver's loops over them are methods (`VetAll`, `Separate`,
  `DeleteEligible`).
- `AccountsDelete.Vet`: its `for` loop over rev orgs returns on its first iteration, so
  it is a conditional on the first rev org, not a loop.
- An SDK response lacking the expected list is folded into a rejection (`Thrown`). For
  pages it is an absent item list. Wrong-typed response fields are not modelled.
- `Runner.Js`: numbers are integers. NaN, floating point, functions and prototype-inherited
  fields are not modelled; the runner reads no inherited field.
- `Runner.TryCall`: the factory is an abstract set of names, and a function is found
  exactly when the name is a string in that set. The source's `functionFactory` maps two
  names, `bulk_delete_all` and `snap_kit_template`, to their handlers. A lookup of an
  `Object.prototype` key such as `toString` is not modelled.
- `Runner.HandleEvent`: a function's own effects are not part of the runner's trace; a
  call is an `Invocation` oracle indexed by name and event position. The `await` of a
  function is modelled by its settled outcome.
- `Runner.RunnerError`: the error messages and `err_type` values come from
  `test/types.ts`, which is not part of this model. The error kinds are named by meaning.
- A pass of the runner loop that throws outside its `try` makes `handleEvent` reject.
  Such a throw is a read of a nullish `execution_metadata`, `context` or `payload`. The
  model stops the loop there and sends no further response. What Express then does with
  the rejection is not modelled.
- The stored input values are not state carried between events. `BulkDeleteAll.RunTrace`
  and `BulkDeleteAll.Run` take each event's stored values (failed count, object type,
  validation) as part of that event. So a follow-up event's inputs are not tied to the write
  that the event before it made. The resume protocol across invocations is therefore not
  modelled: a follow-up reading the count its predecessor wrote, the account driver
  replaying `failed_count`, 'Not Set' leading to the form.
- `DevUtils.ScheduleFollowUp`: every caller issues the schedule as its last request (the
  first run, the work, contact and account drivers). So in this model a rethrown rejection
  and a swallowed one issue the same requests, and the rethrow is seen only in the value.
- `snap_kit_template` is not part of this model. Its only logic is the `hasAccess` check,
  which `DevUtils.HasAccess` models.
- The `*.test.ts` files and the SDK mock are not part of this model. They exercise jest
  mocks only.
