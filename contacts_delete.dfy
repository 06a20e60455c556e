/** The contact driver (`delete_contacts`): one page of rev users per invocation, one delete
    per contact, then either a resume or a final probe and summary. It differs from the work
    driver in that it writes `globals.object_type`, a key `globals` does not have. */
module ContactsDelete {
  import opened Platform
  import opened DevUtils

  /** The first page request: no cursor, the page limit, the configured tags. */
  function FirstQuery(g: Globals): ListQuery {
    ListQuery(None, g.limit, g.tags)
  }

  /** The remaining-count probe: one contact at most, same tags. */
  function ProbeQuery(g: Globals): ListQuery {
    ListQuery(None, 1, g.tags)
  }

  /** The internal summary comment, worded as a failure iff the probe found a contact. */
  function ContactsSummary(g: Globals, remaining: nat): Entry {
    Entry(g.snapInId,
          Text(if remaining > 0 then "Failed to delete all contacts." else "Successfully deleted all contacts."),
          Internal, None)
  }

  /** The resume event: this page's failures only, five seconds ahead. */
  function ContactsResume(g: Globals, failed: int): EventBody {
    EventBody(g.eventType, g.sourceId, failed, 5000)
  }

  /** What follows the deletes when a cursor is left: store write, then a schedule iff the
      write answered truthy. */
  function ContactsResumeCalls(g: Globals, failed: int, api: Api): seq<Call> {
    var update := UpdateSnapIn(api, g.snapInId, ObjectTypeKey(g), Some(failed), "None");
    update.calls + (if update.value == Ok(true) then ScheduleFollowUp(api, ContactsResume(g, failed)).calls else [])
  }

  /** What follows the deletes on the last page: the probe, then the summary unless the probe
      failed. */
  function ContactsProbeCalls(g: Globals, api: Api): seq<Call> {
    [RevUsersList(ProbeQuery(g))] +
    match api.revUsersList(ProbeQuery(g))
    case Ok(Page(Some(remaining), _)) => [TimelineEntriesCreate(ContactsSummary(g, |remaining|))]
    case _ => []
  }

  /** What follows the deletes of a non-empty first page. */
  function ContactsTail(g: Globals, page: Page, api: Api): seq<Call>
    requires page.items.Some?
  {
    if Truthy(page.nextCursor) then ContactsResumeCalls(g, CountFailed(api, Contacts, page.items.value), api)
    else ContactsProbeCalls(g, api)
  }

  /** The requests one invocation of the driver issues. */
  function ContactsTrace(g: Globals, api: Api): seq<Call> {
    [RevUsersList(FirstQuery(g))] +
    match api.revUsersList(FirstQuery(g))
    case Thrown => []
    case Ok(page) =>
      if page.items.None? || |page.items.value| == 0 then []
      else DeleteEach(Contacts, page.items.value) + ContactsTail(g, page, api)
  }

  /** The trace of an invocation whose first page holds contacts, in its three parts. */
  lemma ContactsTraceOfPage(g: Globals, page: Page, api: Api)
    requires api.revUsersList(FirstQuery(g)) == Ok(page) && page.items.Some? && page.items.value != []
    ensures ContactsTrace(g, api) ==
            [RevUsersList(FirstQuery(g))] + DeleteEach(Contacts, page.items.value) + ContactsTail(g, page, api)
  {
    var head := [RevUsersList(FirstQuery(g))];
    var dels := DeleteEach(Contacts, page.items.value);
    var tail := ContactsTail(g, page, api);
    assert ContactsTrace(g, api) == head + (dels + tail);
    assert head + (dels + tail) == head + dels + tail;
  }

  /** `delete_contacts`. */
  method DeleteContacts(g: Globals, api: Api) returns (calls: seq<Call>)
    ensures calls == ContactsTrace(g, api)
  {
    var cursor: Option<string> := None;
    var failedCount := 0;
    var objectType := ObjectTypeKey(g);

    var query := ListQuery(cursor, g.limit, g.tags);
    calls := [RevUsersList(query)];
    var response := api.revUsersList(query);
    if response.Thrown? || response.value.items.None? || |response.value.items.value| == 0 {
      return;
    }
    var allContacts := response.value.items.value;
    cursor := response.value.nextCursor;

    var i := 0;
    while i < |allContacts|
      invariant 0 <= i <= |allContacts|
      invariant failedCount == CountFailed(api, Contacts, allContacts[..i])
      invariant calls == [RevUsersList(query)] + DeleteEach(Contacts, allContacts[..i])
    {
      assert allContacts[..i + 1] == allContacts[..i] + [allContacts[i]];
      DeleteEachSnoc(Contacts, allContacts[..i], allContacts[i]);
      CountFailedSnoc(api, Contacts, allContacts[..i], allContacts[i]);
      calls := calls + [Delete(Contacts, allContacts[i])];
      if !api.deletes(Contacts, allContacts[i]) {
        failedCount := failedCount + 1;
      }
      i := i + 1;
    }
    assert allContacts[..i] == allContacts;

    var tail: seq<Call>;
    if Truthy(cursor) {
      var body := ContactsResume(g, failedCount);
      var update := UpdateSnapIn(api, g.snapInId, objectType, Some(failedCount), "None");
      tail := update.calls;
      if update.value == Ok(true) {
        var scheduled := ScheduleFollowUp(api, body);
        tail := tail + scheduled.calls;
      }
    } else {
      var probe := ProbeQuery(g);
      tail := [RevUsersList(probe)];
      var remaining := api.revUsersList(probe);
      if remaining.Ok? && remaining.value.items.Some? {
        tail := tail + [TimelineEntriesCreate(ContactsSummary(g, |remaining.value.items.value|))];
      }
    }
    assert tail == ContactsTail(g, response.value, api);
    ContactsTraceOfPage(g, response.value, api);
    calls := calls + tail;
  }

  // ---------------------------------------------------------------------------------------
  // Properties of one invocation.

  /** A rejected, missing or empty first page ends the invocation after that one read. */
  lemma ContactsEmptyPageStops(g: Globals, api: Api)
    requires var r := api.revUsersList(FirstQuery(g));
             r.Thrown? || r.value.items.None? || r.value.items.value == []
    ensures ContactsTrace(g, api) == [RevUsersList(FirstQuery(g))]
    ensures ReadsOnly(ContactsTrace(g, api))
  {
  }

  /** The requests after the deletes delete nothing. */
  lemma NoDeletesAfter(g: Globals, page: Page, api: Api)
    requires page.items.Some?
    ensures Deletes(ContactsTail(g, page, api)) == []
  {
    if Truthy(page.nextCursor) {
      ContactsResumeEffects(g, CountFailed(api, Contacts, page.items.value), api);
    } else {
      ContactsProbeEffects(g, api);
    }
  }

  /** Every contact of a non-empty first page is deleted by exactly one request, in page
      order, and nothing else is deleted. */
  lemma ContactsDeletesEachOnce(g: Globals, api: Api)
    requires var r := api.revUsersList(FirstQuery(g));
             r.Ok? && r.value.items.Some? && r.value.items.value != []
    ensures Deletes(ContactsTrace(g, api)) == api.revUsersList(FirstQuery(g)).value.items.value
  {
    var page := api.revUsersList(FirstQuery(g)).value;
    var head := [RevUsersList(FirstQuery(g))];
    var dels := DeleteEach(Contacts, page.items.value);
    var tail := ContactsTail(g, page, api);
    ContactsTraceOfPage(g, page, api);
    EffectsAppend(head + dels, tail);
    EffectsAppend(head, dels);
    CallEffects(head[0]);
    DeleteEachEffects(Contacts, page.items.value);
    NoDeletesAfter(g, page, api);
  }

  /** The effects of the resume requests alone: the one store write carries an undefined
      object type. */
  lemma ContactsResumeEffects(g: Globals, failed: int, api: Api)
    ensures var body := UpdateBody(g.snapInId, failed, None, "None");
            var t := ContactsResumeCalls(g, failed, api);
            && StoreWrites(t) == [body]
            && Scheduled(t) == (if api.updateSnapIn(body) == Ok(true) then [ContactsResume(g, failed)] else [])
            && Created(t) == [] && Deletes(t) == []
  {
    var update := UpdateSnapIn(api, g.snapInId, ObjectTypeKey(g), Some(failed), "None");
    var sched := if update.value == Ok(true) then ScheduleFollowUp(api, ContactsResume(g, failed)).calls else [];
    EffectsAppend(update.calls, sched);
    assert update.calls == [update.calls[0]];
    CallEffects(update.calls[0]);
  }

  /** The effects of the probe requests alone. */
  lemma ContactsProbeEffects(g: Globals, api: Api)
    ensures var t := ContactsProbeCalls(g, api);
            var probe := api.revUsersList(ProbeQuery(g));
            && t[0] == RevUsersList(ProbeQuery(g))
            && StoreWrites(t) == [] && Scheduled(t) == [] && Deletes(t) == []
            && Created(t) == (if probe.Ok? && probe.value.items.Some?
                              then [ContactsSummary(g, |probe.value.items.value|)] else [])
  {
    var t := ContactsProbeCalls(g, api);
    var head := [t[0]];
    var rest := t[1..];
    assert t == head + rest;
    EffectsAppend(head, rest);
    CallEffects(t[0]);
    if rest != [] {
      assert rest == [rest[0]];
      CallEffects(rest[0]);
    }
  }

  /** With a cursor left, the store is written once with this page's failure count and an
      undefined object type, a resume carrying that count is scheduled iff the write answered
      truthy, and no summary is posted. */
  lemma ContactsCursorResumes(g: Globals, api: Api)
    requires var r := api.revUsersList(FirstQuery(g));
             r.Ok? && r.value.items.Some? && r.value.items.value != [] && Truthy(r.value.nextCursor)
    ensures var failed := CountFailed(api, Contacts, api.revUsersList(FirstQuery(g)).value.items.value);
            var body := UpdateBody(g.snapInId, failed, None, "None");
            && StoreWrites(ContactsTrace(g, api)) == [body]
            && Scheduled(ContactsTrace(g, api)) ==
                 (if api.updateSnapIn(body) == Ok(true) then [EventBody(g.eventType, g.sourceId, failed, 5000)] else [])
            && Created(ContactsTrace(g, api)) == []
  {
    var page := api.revUsersList(FirstQuery(g)).value;
    var failed := CountFailed(api, Contacts, page.items.value);
    var head := [RevUsersList(FirstQuery(g))];
    var dels := DeleteEach(Contacts, page.items.value);
    var tail := ContactsResumeCalls(g, failed, api);
    ContactsTraceOfPage(g, page, api);
    assert ContactsTail(g, page, api) == tail;
    EffectsAppend(head + dels, tail);
    EffectsAppend(head, dels);
    CallEffects(head[0]);
    DeleteEachEffects(Contacts, page.items.value);
    ContactsResumeEffects(g, failed, api);
  }

  /** On the last page one probe of limit 1 runs right after the deletes; nothing is written
      or scheduled, and one summary is posted unless the probe fails, worded as a failure iff
      the probe found a contact. */
  lemma ContactsLastPageSummarises(g: Globals, api: Api)
    requires var r := api.revUsersList(FirstQuery(g));
             r.Ok? && r.value.items.Some? && r.value.items.value != [] && !Truthy(r.value.nextCursor)
    ensures var t := ContactsTrace(g, api);
            var contacts := api.revUsersList(FirstQuery(g)).value.items.value;
            var probe := api.revUsersList(ListQuery(None, 1, g.tags));
            && |t| > |contacts| + 1 && t[|contacts| + 1] == RevUsersList(ListQuery(None, 1, g.tags))
            && StoreWrites(t) == [] && Scheduled(t) == []
            && Created(t) == (if probe.Ok? && probe.value.items.Some?
                              then [ContactsSummary(g, |probe.value.items.value|)] else [])
  {
    var page := api.revUsersList(FirstQuery(g)).value;
    var head := [RevUsersList(FirstQuery(g))];
    var dels := DeleteEach(Contacts, page.items.value);
    var tail := ContactsProbeCalls(g, api);
    ContactsTraceOfPage(g, page, api);
    assert ContactsTail(g, page, api) == tail;
    assert (head + dels + tail)[|page.items.value| + 1] == tail[0];
    EffectsAppend(head + dels, tail);
    EffectsAppend(head, dels);
    CallEffects(head[0]);
    DeleteEachEffects(Contacts, page.items.value);
    ContactsProbeEffects(g, api);
  }

  /** The summary's wording. */
  lemma ContactsSummaryWording(g: Globals, remaining: nat)
    ensures ContactsSummary(g, remaining).body.text ==
            (if remaining > 0 then "Failed to delete all contacts." else "Successfully deleted all contacts.")
    ensures ContactsSummary(g, remaining).visibility == Internal
    ensures ContactsSummary(g, remaining).objectId == g.snapInId
  {
  }

  /** Whatever the platform answers, one invocation writes the store at most once, with an
      undefined object type, and posts at most one of a resume and a summary. */
  lemma ContactsResumeOrSummary(g: Globals, api: Api)
    ensures |StoreWrites(ContactsTrace(g, api))| <= 1
    ensures forall k :: 0 <= k < |StoreWrites(ContactsTrace(g, api))| ==> StoreWrites(ContactsTrace(g, api))[k].objectType.None?
    ensures |Scheduled(ContactsTrace(g, api))| + |Created(ContactsTrace(g, api))| <= 1
  {
    var r := api.revUsersList(FirstQuery(g));
    if r.Thrown? || r.value.items.None? || r.value.items.value == [] {
      ContactsEmptyPageStops(g, api);
      ReadsOnlyNoEffects(ContactsTrace(g, api));
    } else if Truthy(r.value.nextCursor) {
      ContactsCursorResumes(g, api);
    } else {
      ContactsLastPageSummarises(g, api);
    }
  }
}
