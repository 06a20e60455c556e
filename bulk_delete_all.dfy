/** The entry point of the snap-in (`handleEvent` and `run`). An inbound event takes one of
    four branches: the first-run warning, the confirmation form, the answer to the form, or
    straight dispatch to the driver of the stored object type (the path the drivers' own
    follow-up events take). */
module BulkDeleteAll {
  import opened Platform
  import opened DevUtils
  import IssueWarning
  import WorksDelete
  import AccountsDelete
  import ContactsDelete

  /** `radioButtonValue || stored_object`. */
  function ValidationStatus(g: Globals): Option<string> {
    if Truthy(g.radioButtonValue) then g.radioButtonValue else g.storedObject
  }

  predicate IsAnswer(status: Option<string>) {
    status == Some("Yes") || status == Some("No")
  }

  const WarningText: string :=
    "Please note: \n 1. All the tagged items will be deleted permanently. \n 2. Deleted items cannot be recovered. \n 3. If items were imported via an active Airdrop sync, the deletion will cause the sync to fail. \n 4. Please confirm if you would like to proceed in the next step."

  /** The private warning of the first run; it expires after 5 * 20 seconds. */
  function WarningEntry(g: Globals): Entry {
    Entry(g.snapInId, Text(WarningText), Private(g.userId), Some(5 * 20 * 1000))
  }

  /** The public notice that a deletion is starting. */
  function NoticeEntry(g: Globals, tagNames: seq<string>): Entry {
    Entry(g.snapInId,
          Text("<" + Show(g.userId) + "> is deleting all " + Show(g.storedObject) + " tagged with "
               + Join(tagNames, ", ") + "."),
          Public, None)
  }

  /** The follow-up event of the first run: a zero failure count, twenty seconds ahead. */
  function FirstRunFollowUp(g: Globals): EventBody {
    EventBody(g.eventType, g.sourceId, 0, 20000)
  }

  datatype Branch = Warn | ConfirmForm | Answer | DispatchOnly

  /** The branch an event takes, with the tests in source order. Since the first test catches every
      event with an entry to remove and no answer, the confirmation form is only reached
      without such an entry, and the answer branch exactly with an entry and an answer. */
  function BranchOf(g: Globals): (b: Branch)
    ensures b == Warn <==> Truthy(g.timelineId) && !IsAnswer(ValidationStatus(g))
    ensures b == ConfirmForm <==>
              !Truthy(g.timelineId) && g.validation == Some("Not Set") && !IsAnswer(ValidationStatus(g))
    ensures b == Answer <==> Truthy(g.timelineId) && IsAnswer(ValidationStatus(g))
    ensures b == DispatchOnly <==>
              !Truthy(g.timelineId) && (g.validation != Some("Not Set") || IsAnswer(ValidationStatus(g)))
  {
    var status := ValidationStatus(g);
    if Truthy(g.timelineId) && !IsAnswer(status) then Warn
    else if g.validation == Some("Not Set") && !IsAnswer(status) then ConfirmForm
    else if Truthy(g.timelineId) && Truthy(status) then Answer
    else DispatchOnly
  }

  /** The switch on the stored object type. */
  function Dispatch(g: Globals, api: Api): seq<Call> {
    if g.storedObject.Some? && WorksDelete.WorkTypeOf(g.storedObject.value).Some? then
      WorksDelete.WorksTrace(g, g.storedObject.value, api)
    else if g.storedObject == Some("Accounts") then AccountsDelete.AccountsTrace(g, api)
    else if g.storedObject == Some("Contacts") then ContactsDelete.ContactsTrace(g, api)
    else []
  }

  /** The first-run branch: access check; a refusal and return for a user outside the group;
      otherwise what `WarnAuthorized` issues. */
  function WarnTrace(g: Globals, api: Api): seq<Call>
    requires Truthy(g.timelineId)
  {
    var access := HasAccess(g.userId, api, g.groupId);
    access.calls +
    if !access.value then [TimelineEntriesCreate(IssueWarning.NotAuthorizedEntry(g))] else WarnAuthorized(g, api)
  }

  /** The first run of an authorized user: the private warning (a rejection ends the call),
      removal of the clicked entry (a rejection ends the call), the store reset to the chosen
      value with count 0 and validation 'Not Set', and a follow-up event iff the write
      answered truthy. */
  function WarnAuthorized(g: Globals, api: Api): seq<Call>
    requires Truthy(g.timelineId)
  {
    var post := TimelineEntriesCreate(WarningEntry(g));
    var remove := TimelineEntriesDelete(g.timelineId.value);
    if !api.createEntry(WarningEntry(g)) then [post]
    else if !api.deleteEntry(g.timelineId.value) then [post, remove]
    else
      var update := UpdateSnapIn(api, g.snapInId, g.radioButtonValue, Some(0), "Not Set");
      [post, remove] + update.calls
      + (if update.value == Ok(true) then ScheduleFollowUp(api, FirstRunFollowUp(g)).calls else [])
  }

  /** The answer branch: removal of the form (a rejection ends the call), return on No,
      the tag names (a rejection ends the call), the public notice, whose rejection is only
      logged, and dispatch. */
  function AnswerTrace(g: Globals, api: Api): seq<Call>
    requires Truthy(g.timelineId)
  {
    var remove := [TimelineEntriesDelete(g.timelineId.value)];
    if !api.deleteEntry(g.timelineId.value) || ValidationStatus(g) == Some("No") then remove
    else
      var tags := FilteredTagNames(g.tags, api);
      match tags.value
      case Thrown => remove + tags.calls
      case Ok(names) => remove + tags.calls + [TimelineEntriesCreate(NoticeEntry(g, names))] + Dispatch(g, api)
  }

  /** The requests one `handleEvent` call issues. */
  function HandleEvent(e: Event, api: Api): seq<Call> {
    var g := GlobalsOf(e);
    match BranchOf(g)
    case Warn => WarnTrace(g, api)
    case ConfirmForm => IssueWarning.IssueWarning(e, api)
    case Answer => AnswerTrace(g, api)
    case DispatchOnly => Dispatch(g, api)
  }

  /** The requests of `run`: the events handled one after the other, the `k`-th against the
      platform as it then is. */
  function RunTrace(events: seq<Event>, platform: nat -> Api): seq<Call> {
    if events == [] then []
    else RunTrace(events[..|events| - 1], platform) + HandleEvent(events[|events| - 1], platform(|events| - 1))
  }

  /** The switch on the stored object type, running the drivers. */
  method DispatchDrivers(g: Globals, api: Api) returns (calls: seq<Call>)
    ensures calls == Dispatch(g, api)
  {
    if g.storedObject == Some("Tickets") || g.storedObject == Some("Issues") || g.storedObject == Some("Opportunities") {
      calls := WorksDelete.DeleteWorks(g, api, g.storedObject.value);
    } else if g.storedObject == Some("Accounts") {
      calls := AccountsDelete.DeleteAccounts(g, api);
    } else if g.storedObject == Some("Contacts") {
      calls := ContactsDelete.DeleteContacts(g, api);
    } else {
      calls := [];
    }
  }

  /** `run`: every event is handled in turn; a failure inside one is caught by `handleEvent`
      and does not stop the next. */
  method Run(events: seq<Event>, platform: nat -> Api) returns (calls: seq<Call>)
    ensures calls == RunTrace(events, platform)
  {
    calls := [];
    var i := 0;
    while i < |events|
      invariant 0 <= i <= |events|
      invariant calls == RunTrace(events[..i], platform)
    {
      assert events[..i + 1][..i] == events[..i];
      calls := calls + HandleEvent(events[i], platform(i));
      i := i + 1;
    }
    assert events[..i] == events;
  }

  // ---------------------------------------------------------------------------------------
  // Properties of one event.

  /** A user outside the access group on the first run gets exactly the private refusal:
      no entry is removed, nothing is written, scheduled or deleted. */
  lemma UnauthorizedFirstRun(e: Event, api: Api)
    requires var g := GlobalsOf(e); BranchOf(g) == Warn && !HasAccess(g.userId, api, g.groupId).value
    ensures var g := GlobalsOf(e);
            HandleEvent(e, api) ==
              HasAccess(g.userId, api, g.groupId).calls + [TimelineEntriesCreate(IssueWarning.NotAuthorizedEntry(g))]
    ensures var t := HandleEvent(e, api);
            && Created(t) == [IssueWarning.NotAuthorizedEntry(GlobalsOf(e))]
            && EntriesRemoved(t) == [] && StoreWrites(t) == [] && Scheduled(t) == [] && Deletes(t) == []
  {
    var g := GlobalsOf(e);
    var post := [TimelineEntriesCreate(IssueWarning.NotAuthorizedEntry(g))];
    ReadsThen(HasAccess(g.userId, api, g.groupId).calls, post);
    CallEffects(post[0]);
  }

  /** An authorized first run, in order: the warning is posted, then the clicked entry is
      removed, then the store is reset to (chosen value, 0, 'Not Set'); a follow-up event with
      count 0 is scheduled iff the write answered truthy; nothing is deleted. */
  lemma AuthorizedFirstRunOrder(e: Event, api: Api)
    requires var g := GlobalsOf(e);
             && BranchOf(g) == Warn && HasAccess(g.userId, api, g.groupId).value
             && api.createEntry(WarningEntry(g)) && api.deleteEntry(g.timelineId.value)
    ensures var g := GlobalsOf(e);
            var t := HandleEvent(e, api);
            var n := |HasAccess(g.userId, api, g.groupId).calls|;
            var body := UpdateBody(e.snapInId, 0, e.radioValue, "Not Set");
            && |t| >= n + 3
            && t[n] == TimelineEntriesCreate(WarningEntry(g))
            && t[n + 1] == TimelineEntriesDelete(e.entryId.value)
            && t[n + 2] == SnapInsUpdate(body)
            && Scheduled(t) == (if api.updateSnapIn(body) == Ok(true) then [FirstRunFollowUp(g)] else [])
            && Deletes(t) == []
  {
    var g := GlobalsOf(e);
    var body := UpdateBody(e.snapInId, 0, e.radioValue, "Not Set");
    AuthorizedFirstRunExact(e, api);
    FirstRunShape(HasAccess(g.userId, api, g.groupId).calls, WarningEntry(g), e.entryId.value, body,
                  api.updateSnapIn(body), FirstRunFollowUp(g));
  }

  /** Nothing else is issued in that run: after the access check come exactly the warning,
      the removal, the store write and, iff the write answered truthy, the follow-up. */
  lemma AuthorizedFirstRunExact(e: Event, api: Api)
    requires var g := GlobalsOf(e);
             && BranchOf(g) == Warn && HasAccess(g.userId, api, g.groupId).value
             && api.createEntry(WarningEntry(g)) && api.deleteEntry(g.timelineId.value)
    ensures var g := GlobalsOf(e);
            var body := UpdateBody(e.snapInId, 0, e.radioValue, "Not Set");
            HandleEvent(e, api) ==
              HasAccess(g.userId, api, g.groupId).calls
              + [TimelineEntriesCreate(WarningEntry(g)), TimelineEntriesDelete(e.entryId.value), SnapInsUpdate(body)]
              + (if api.updateSnapIn(body) == Ok(true) then [ScheduleEvent(FirstRunFollowUp(g))] else [])
  {
    var g := GlobalsOf(e);
    AuthorizedFirstRunTrace(e, api);
    WarnFullRunOrder(g, api);
  }

  /** Reads, then a post, a removal, a store write and a follow-up iff the write answered
      truthy: the three requests sit right after the reads, and the only delete-free effects
      are the ones named. */
  lemma FirstRunShape(prefix: seq<Call>, post: Entry, entryId: string, body: UpdateBody,
                      answer: Outcome<bool>, follow: EventBody)
    requires ReadsOnly(prefix)
    ensures var t := prefix + [TimelineEntriesCreate(post), TimelineEntriesDelete(entryId), SnapInsUpdate(body)]
                     + (if answer == Ok(true) then [ScheduleEvent(follow)] else []);
            var n := |prefix|;
            && |t| >= n + 3
            && t[n] == TimelineEntriesCreate(post) && t[n + 1] == TimelineEntriesDelete(entryId)
            && t[n + 2] == SnapInsUpdate(body)
            && Scheduled(t) == (if answer == Ok(true) then [follow] else []) && Deletes(t) == []
  {
    var p := TimelineEntriesCreate(post);
    var r := TimelineEntriesDelete(entryId);
    var tail := [SnapInsUpdate(body)] + (if answer == Ok(true) then [ScheduleEvent(follow)] else []);
    var t := prefix + [p, r, SnapInsUpdate(body)] + (if answer == Ok(true) then [ScheduleEvent(follow)] else []);
    assert t == prefix + ([p, r] + tail);
    PostRemoveThenWrite(p, r, tail, body, answer, follow);
    ReadsThen(prefix, [p, r] + tail);
  }

  lemma PostRemoveThenWrite(p: Call, r: Call, tail: seq<Call>, body: UpdateBody, answer: Outcome<bool>, follow: EventBody)
    requires p.TimelineEntriesCreate? && r.TimelineEntriesDelete?
    requires tail == [SnapInsUpdate(body)] + (if answer == Ok(true) then [ScheduleEvent(follow)] else [])
    ensures Scheduled([p, r] + tail) == (if answer == Ok(true) then [follow] else []) && Deletes([p, r] + tail) == []
  {
    WarnPostAndRemove(p, r);
    EffectsAppend([p, r], tail);
    WriteThenSchedule(body, answer, follow);
  }

  /** An authorized first run issues the access check, then what `WarnAuthorized` issues. */
  lemma AuthorizedFirstRunTrace(e: Event, api: Api)
    requires var g := GlobalsOf(e); BranchOf(g) == Warn && HasAccess(g.userId, api, g.groupId).value
    ensures var g := GlobalsOf(e);
            && g.snapInId == e.snapInId && g.radioButtonValue == e.radioValue && g.timelineId == e.entryId
            && HandleEvent(e, api) == HasAccess(g.userId, api, g.groupId).calls + WarnAuthorized(g, api)
  {
  }

  /** The requests of an authorized first run, in order, and their effects. */
  lemma WarnAuthorizedEffects(g: Globals, api: Api)
    requires Truthy(g.timelineId)
    ensures var t := WarnAuthorized(g, api);
            var body := UpdateBody(g.snapInId, 0, g.radioButtonValue, "Not Set");
            && t[0] == TimelineEntriesCreate(WarningEntry(g))
            && Deletes(t) == [] && |StoreWrites(t)| <= 1 && |Scheduled(t)| <= 1
            && (!api.createEntry(WarningEntry(g)) ==> EntriesRemoved(t) == [] && StoreWrites(t) == [] && Scheduled(t) == [])
            && (api.createEntry(WarningEntry(g)) && api.deleteEntry(g.timelineId.value) ==>
                  |t| >= 3 && t[1] == TimelineEntriesDelete(g.timelineId.value) && t[2] == SnapInsUpdate(body)
                  && Scheduled(t) == (if api.updateSnapIn(body) == Ok(true) then [FirstRunFollowUp(g)] else []))
  {
    var post := TimelineEntriesCreate(WarningEntry(g));
    var remove := TimelineEntriesDelete(g.timelineId.value);
    if !api.createEntry(WarningEntry(g)) {
      CallEffects(post);
    } else if !api.deleteEntry(g.timelineId.value) {
      WarnPostAndRemove(post, remove);
    } else {
      WarnFullRunOrder(g, api);
      WarnFullRunEffects(g, api);
    }
  }

  lemma WarnPostAndRemove(post: Call, remove: Call)
    requires post.TimelineEntriesCreate? && remove.TimelineEntriesDelete?
    ensures Deletes([post, remove]) == [] && StoreWrites([post, remove]) == [] && Scheduled([post, remove]) == []
  {
    CallEffects(post);
    CallEffects(remove);
    EffectsAppend([post], [remove]);
    assert [post, remove] == [post] + [remove];
  }

  /** The authorized first run when the warning is posted and the entry removed: the
      removal, then the store write, follow the warning. */
  lemma WarnFullRunOrder(g: Globals, api: Api)
    requires Truthy(g.timelineId) && api.createEntry(WarningEntry(g)) && api.deleteEntry(g.timelineId.value)
    ensures var t := WarnAuthorized(g, api);
            && |t| >= 3 && t[1] == TimelineEntriesDelete(g.timelineId.value)
            && t[2] == SnapInsUpdate(UpdateBody(g.snapInId, 0, g.radioButtonValue, "Not Set"))
    ensures var body := UpdateBody(g.snapInId, 0, g.radioButtonValue, "Not Set");
            WarnAuthorized(g, api) ==
              [TimelineEntriesCreate(WarningEntry(g)), TimelineEntriesDelete(g.timelineId.value), SnapInsUpdate(body)]
              + (if api.updateSnapIn(body) == Ok(true) then [ScheduleEvent(FirstRunFollowUp(g))] else [])
  {
  }

  /** The effects of that run: one store write, and a follow-up iff the write answered
      truthy. */
  lemma WarnFullRunEffects(g: Globals, api: Api)
    requires Truthy(g.timelineId) && api.createEntry(WarningEntry(g)) && api.deleteEntry(g.timelineId.value)
    ensures var t := WarnAuthorized(g, api);
            var body := UpdateBody(g.snapInId, 0, g.radioButtonValue, "Not Set");
            && Deletes(t) == [] && StoreWrites(t) == [body]
            && Scheduled(t) == (if api.updateSnapIn(body) == Ok(true) then [FirstRunFollowUp(g)] else [])
  {
    var post := TimelineEntriesCreate(WarningEntry(g));
    var remove := TimelineEntriesDelete(g.timelineId.value);
    var body := UpdateBody(g.snapInId, 0, g.radioButtonValue, "Not Set");
    var answer := api.updateSnapIn(body);
    var tail := [SnapInsUpdate(body)] + (if answer == Ok(true) then [ScheduleEvent(FirstRunFollowUp(g))] else []);
    assert WarnAuthorized(g, api) == [post, remove] + tail;
    WarnPostAndRemove(post, remove);
    EffectsAppend([post, remove], tail);
    WriteThenSchedule(body, answer, FirstRunFollowUp(g));
  }

  /** When the warning cannot be posted, the first run ends there: the clicked entry stays
      and the store is not touched. */
  lemma WarningFailureStops(e: Event, api: Api)
    requires var g := GlobalsOf(e);
             BranchOf(g) == Warn && HasAccess(g.userId, api, g.groupId).value && !api.createEntry(WarningEntry(g))
    ensures var t := HandleEvent(e, api);
            EntriesRemoved(t) == [] && StoreWrites(t) == [] && Scheduled(t) == [] && Deletes(t) == []
  {
    var g := GlobalsOf(e);
    ReadsThen(HasAccess(g.userId, api, g.groupId).calls, WarnAuthorized(g, api));
    WarnAuthorizedEffects(g, api);
  }

  /** A request the first-run branch may issue: the access lookup, a timeline post or
      removal, the store write and the follow-up; no list of objects, no vetting read, no
      delete. */
  predicate FirstRunRequest(c: Call) {
    c.GroupMembersList? || c.TimelineEntriesCreate? || c.TimelineEntriesDelete? || c.SnapInsUpdate? || c.ScheduleEvent?
  }

  /** The first-run branch deletes no object and runs no driver. */
  lemma WarnDeletesNothing(g: Globals, api: Api)
    requires Truthy(g.timelineId)
    ensures forall k :: 0 <= k < |WarnTrace(g, api)| ==> FirstRunRequest(WarnTrace(g, api)[k])
    ensures Deletes(WarnTrace(g, api)) == [] && |StoreWrites(WarnTrace(g, api))| <= 1
    ensures |Scheduled(WarnTrace(g, api))| <= 1
  {
    WarnRequestsKinds(g, api);
    var access := HasAccess(g.userId, api, g.groupId);
    if !access.value {
      var post := [TimelineEntriesCreate(IssueWarning.NotAuthorizedEntry(g))];
      ReadsThen(access.calls, post);
      CallEffects(post[0]);
    } else {
      ReadsThen(access.calls, WarnAuthorized(g, api));
      WarnAuthorizedEffects(g, api);
    }
  }

  lemma WarnRequestsKinds(g: Globals, api: Api)
    requires Truthy(g.timelineId)
    ensures forall k :: 0 <= k < |WarnTrace(g, api)| ==> FirstRunRequest(WarnTrace(g, api)[k])
  {
    var access := HasAccess(g.userId, api, g.groupId);
    var rest := if !access.value then [TimelineEntriesCreate(IssueWarning.NotAuthorizedEntry(g))] else WarnAuthorized(g, api);
    assert WarnTrace(g, api) == access.calls + rest;
    assert forall k :: 0 <= k < |access.calls| ==> FirstRunRequest(access.calls[k]);
    if access.value && api.createEntry(WarningEntry(g)) && api.deleteEntry(g.timelineId.value) {
      var body := UpdateBody(g.snapInId, 0, g.radioButtonValue, "Not Set");
      assert rest == [TimelineEntriesCreate(WarningEntry(g)), TimelineEntriesDelete(g.timelineId.value), SnapInsUpdate(body)]
                     + (if api.updateSnapIn(body) == Ok(true) then [ScheduleEvent(FirstRunFollowUp(g))] else []);
    }
    assert forall k :: 0 <= k < |rest| ==> FirstRunRequest(rest[k]);
  }

  /** With validation 'Not Set' and no answer (and, as the branch order forces, no entry to
      remove), only the confirmation step runs: no driver, no write, no schedule. */
  lemma NotSetOnlyConfirms(e: Event, api: Api)
    requires var g := GlobalsOf(e); g.validation == Some("Not Set") && !IsAnswer(ValidationStatus(g)) && !Truthy(g.timelineId)
    ensures HandleEvent(e, api) == IssueWarning.IssueWarning(e, api)
    ensures Deletes(HandleEvent(e, api)) == [] && StoreWrites(HandleEvent(e, api)) == []
    ensures Scheduled(HandleEvent(e, api)) == []
  {
    IssueWarning.IssueWarningEffects(e, api);
  }

  /** A No answer to the form removes the form and does nothing else. */
  lemma NoCancels(e: Event, api: Api)
    requires var g := GlobalsOf(e); Truthy(g.timelineId) && ValidationStatus(g) == Some("No")
    ensures HandleEvent(e, api) == [TimelineEntriesDelete(e.entryId.value)]
  {
  }

  /** A Yes answer whose form removal and tag listing succeed posts the public notice and
      then dispatches, whatever the platform answers to the notice. */
  lemma YesNotifiesThenDispatches(e: Event, api: Api)
    requires var g := GlobalsOf(e);
             Truthy(g.timelineId) && ValidationStatus(g) == Some("Yes") && api.deleteEntry(g.timelineId.value)
             && FilteredTagNames(g.tags, api).value.Ok?
    ensures var g := GlobalsOf(e);
            var names := FilteredTagNames(g.tags, api).value.value;
            HandleEvent(e, api) ==
              [TimelineEntriesDelete(g.timelineId.value), TagsList(100), TimelineEntriesCreate(NoticeEntry(g, names))]
              + Dispatch(g, api)
  {
  }

  /** Removing the form or listing the tags can fail; then no driver runs. */
  lemma AnswerFailureStops(e: Event, api: Api)
    requires var g := GlobalsOf(e);
             Truthy(g.timelineId) && IsAnswer(ValidationStatus(g))
             && (!api.deleteEntry(g.timelineId.value) || FilteredTagNames(g.tags, api).value.Thrown?)
    ensures var t := HandleEvent(e, api);
            Deletes(t) == [] && StoreWrites(t) == [] && Scheduled(t) == [] && Created(t) == []
  {
    var g := GlobalsOf(e);
    var t := HandleEvent(e, api);
    if !api.deleteEntry(g.timelineId.value) || ValidationStatus(g) == Some("No") {
      CallEffects(TimelineEntriesDelete(g.timelineId.value));
    } else {
      assert t == [TimelineEntriesDelete(g.timelineId.value)] + [TagsList(100)];
      EffectsAppend([TimelineEntriesDelete(g.timelineId.value)], [TagsList(100)]);
      CallEffects(TimelineEntriesDelete(g.timelineId.value));
      CallEffects(TagsList(100));
    }
  }

  /** The effects of dispatch: at most one store write and at most one of a resume and a
      summary, whichever driver runs. */
  lemma DispatchEffects(g: Globals, api: Api)
    ensures |StoreWrites(Dispatch(g, api))| <= 1
    ensures |Scheduled(Dispatch(g, api))| + |Created(Dispatch(g, api))| <= 1
  {
    if g.storedObject.Some? && WorksDelete.WorkTypeOf(g.storedObject.value).Some? {
      WorksDelete.WorksResumeOrSummary(g, g.storedObject.value, api);
    } else if g.storedObject == Some("Accounts") {
      AccountsDelete.AccountsResumeOrSummary(g, api);
    } else if g.storedObject == Some("Contacts") {
      ContactsDelete.ContactsResumeOrSummary(g, api);
    }
  }

  /** Routing: the three work families go to the work driver with their own name, Accounts
      and Contacts to their drivers, and every other value (or none) issues no request. */
  lemma DispatchRoutes(g: Globals, api: Api)
    ensures g.storedObject == Some("Tickets") ==> Dispatch(g, api) == WorksDelete.WorksTrace(g, "Tickets", api)
    ensures g.storedObject == Some("Issues") ==> Dispatch(g, api) == WorksDelete.WorksTrace(g, "Issues", api)
    ensures g.storedObject == Some("Opportunities") ==> Dispatch(g, api) == WorksDelete.WorksTrace(g, "Opportunities", api)
    ensures g.storedObject == Some("Accounts") ==> Dispatch(g, api) == AccountsDelete.AccountsTrace(g, api)
    ensures g.storedObject == Some("Contacts") ==> Dispatch(g, api) == ContactsDelete.ContactsTrace(g, api)
    ensures (g.storedObject.None? || g.storedObject.value !in {"Tickets", "Issues", "Opportunities", "Accounts", "Contacts"})
              ==> Dispatch(g, api) == []
  {
  }

  /** With an entry to remove, nothing is deleted unless the answer is Yes. */
  lemma NoDeleteWithoutYes(e: Event, api: Api)
    requires Truthy(GlobalsOf(e).timelineId)
    requires Deletes(HandleEvent(e, api)) != []
    ensures ValidationStatus(GlobalsOf(e)) == Some("Yes")
  {
    var g := GlobalsOf(e);
    if BranchOf(g) == Warn {
      WarnDeletesNothing(g, api);
    } else if ValidationStatus(g) == Some("No") {
      NoCancels(e, api);
      CallEffects(TimelineEntriesDelete(g.timelineId.value));
    }
  }

  /** Whatever the event and the platform, one `handleEvent` call writes the store at most
      once and schedules at most one follow-up event. */
  lemma AtMostOneSchedulePerEvent(e: Event, api: Api)
    ensures |StoreWrites(HandleEvent(e, api))| <= 1
    ensures |Scheduled(HandleEvent(e, api))| <= 1
  {
    var g := GlobalsOf(e);
    match BranchOf(g)
    case Warn => WarnDeletesNothing(g, api);
    case ConfirmForm => IssueWarning.IssueWarningEffects(e, api);
    case Answer => AnswerEffects(g, api);
    case DispatchOnly => DispatchEffects(g, api);
  }

  lemma AnswerEffects(g: Globals, api: Api)
    requires Truthy(g.timelineId)
    ensures |StoreWrites(AnswerTrace(g, api))| <= 1 && |Scheduled(AnswerTrace(g, api))| <= 1
  {
    var remove := [TimelineEntriesDelete(g.timelineId.value)];
    CallEffects(remove[0]);
    if api.deleteEntry(g.timelineId.value) && ValidationStatus(g) != Some("No") {
      var tags := FilteredTagNames(g.tags, api);
      EffectsAppend(remove, tags.calls);
      CallEffects(TagsList(100));
      assert tags.calls == [TagsList(100)];
      if tags.value.Ok? {
        var notice := [TimelineEntriesCreate(NoticeEntry(g, tags.value.value))];
        EffectsAppend(remove + tags.calls, notice);
        EffectsAppend(remove + tags.calls + notice, Dispatch(g, api));
        CallEffects(notice[0]);
        DispatchEffects(g, api);
      }
    }
  }

  // ---------------------------------------------------------------------------------------
  // Properties of `run`.

  /** The requests of `run` are those of each event in turn. */
  lemma RunTraceAppend(events: seq<Event>, platform: nat -> Api)
    requires events != []
    ensures RunTrace(events, platform) ==
            RunTrace(events[..|events| - 1], platform) + HandleEvent(events[|events| - 1], platform(|events| - 1))
  {
  }

  /** `run` schedules at most one follow-up event, and writes the store at most once, per
      event. */
  lemma {:induction false} RunSchedulesAtMostOncePerEvent(events: seq<Event>, platform: nat -> Api)
    ensures |Scheduled(RunTrace(events, platform))| <= |events|
    ensures |StoreWrites(RunTrace(events, platform))| <= |events|
  {
    if events != [] {
      var init := events[..|events| - 1];
      var last := events[|events| - 1];
      RunSchedulesAtMostOncePerEvent(init, platform);
      EffectsAppend(RunTrace(init, platform), HandleEvent(last, platform(|events| - 1)));
      AtMostOneSchedulePerEvent(last, platform(|events| - 1));
    }
  }
}
