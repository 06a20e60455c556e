/** The work-item driver (`delete_works`): one page of tickets, issues or opportunities per
    invocation, one delete per work, then either a resume or a final probe and summary. */
module WorksDelete {
  import opened Platform
  import opened DevUtils

  /** The switch on the object type; any other name is rejected before any request. */
  function WorkTypeOf(objectType: string): (t: Option<WorkType>)
    ensures t.Some? <==> objectType == "Tickets" || objectType == "Issues" || objectType == "Opportunities"
    ensures objectType == "Tickets" ==> t == Some(Ticket)
    ensures objectType == "Issues" ==> t == Some(Issue)
    ensures objectType == "Opportunities" ==> t == Some(Opportunity)
  {
    if objectType == "Tickets" then Some(Ticket)
    else if objectType == "Issues" then Some(Issue)
    else if objectType == "Opportunities" then Some(Opportunity)
    else None
  }

  /** The first page request: no cursor, the page limit, the configured tags. */
  function FirstQuery(g: Globals): ListQuery {
    ListQuery(None, g.limit, g.tags)
  }

  /** The remaining-count probe: one work at most, same tags. */
  function ProbeQuery(g: Globals): ListQuery {
    ListQuery(None, 1, g.tags)
  }

  /** The internal summary comment, worded as a failure iff the probe found a work. */
  function WorksSummary(g: Globals, objectType: string, remaining: nat): Entry {
    Entry(g.snapInId,
          Text(if remaining > 0 then "Failed to delete all " + objectType + "."
               else "Successfully deleted all " + objectType + "."),
          Internal, None)
  }

  /** The resume event: this page's failures only, five seconds ahead. */
  function WorksResume(g: Globals, failed: int): EventBody {
    EventBody(g.eventType, g.sourceId, failed, 5000)
  }

  /** What follows the deletes when a cursor is left: store write, then a schedule iff the
      write answered truthy. */
  function WorksResumeCalls(g: Globals, objectType: string, failed: int, api: Api): seq<Call> {
    var update := UpdateSnapIn(api, g.snapInId, Some(objectType), Some(failed), "None");
    update.calls + (if update.value == Ok(true) then ScheduleFollowUp(api, WorksResume(g, failed)).calls else [])
  }

  /** What follows the deletes on the last page: the probe, then the summary unless the probe
      failed. */
  function WorksProbeCalls(g: Globals, objectType: string, workType: WorkType, api: Api): seq<Call> {
    [WorksList(workType, ProbeQuery(g))] +
    match api.worksList(workType, ProbeQuery(g))
    case Ok(Page(Some(remaining), _)) => [TimelineEntriesCreate(WorksSummary(g, objectType, |remaining|))]
    case _ => []
  }

  /** What follows the deletes of a non-empty first page. */
  function WorksTail(g: Globals, objectType: string, workType: WorkType, page: Page, api: Api): seq<Call>
    requires page.items.Some?
  {
    if Truthy(page.nextCursor) then WorksResumeCalls(g, objectType, CountFailed(api, Works, page.items.value), api)
    else WorksProbeCalls(g, objectType, workType, api)
  }

  /** The requests one invocation of the driver issues. */
  function WorksTrace(g: Globals, objectType: string, api: Api): seq<Call> {
    match WorkTypeOf(objectType)
    case None => []
    case Some(workType) =>
      [WorksList(workType, FirstQuery(g))] +
      match api.worksList(workType, FirstQuery(g))
      case Thrown => []
      case Ok(page) =>
        if page.items.None? || |page.items.value| == 0 then []
        else DeleteEach(Works, page.items.value) + WorksTail(g, objectType, workType, page, api)
  }

  /** The trace of an invocation whose first page holds works, in its three parts. */
  lemma WorksTraceOfPage(g: Globals, objectType: string, workType: WorkType, page: Page, api: Api)
    requires WorkTypeOf(objectType) == Some(workType)
    requires api.worksList(workType, FirstQuery(g)) == Ok(page) && page.items.Some? && page.items.value != []
    ensures WorksTrace(g, objectType, api) ==
            [WorksList(workType, FirstQuery(g))] + DeleteEach(Works, page.items.value) + WorksTail(g, objectType, workType, page, api)
  {
    var head := [WorksList(workType, FirstQuery(g))];
    var dels := DeleteEach(Works, page.items.value);
    var tail := WorksTail(g, objectType, workType, page, api);
    assert WorksTrace(g, objectType, api) == head + (dels + tail);
    assert head + (dels + tail) == head + dels + tail;
  }

  /** `delete_works`. */
  method DeleteWorks(g: Globals, api: Api, objectType: string) returns (calls: seq<Call>)
    ensures calls == WorksTrace(g, objectType, api)
  {
    var cursor: Option<string> := None;
    var workType: WorkType;
    var failedCount := 0;
    if objectType == "Tickets" {
      workType := Ticket;
    } else if objectType == "Issues" {
      workType := Issue;
    } else if objectType == "Opportunities" {
      workType := Opportunity;
    } else {
      return [];
    }
    assert WorkTypeOf(objectType) == Some(workType);

    var query := ListQuery(cursor, g.limit, g.tags);
    calls := [WorksList(workType, query)];
    var response := api.worksList(workType, query);
    if response.Thrown? || response.value.items.None? || |response.value.items.value| == 0 {
      return;
    }
    var allWorks := response.value.items.value;
    cursor := response.value.nextCursor;

    var i := 0;
    while i < |allWorks|
      invariant 0 <= i <= |allWorks|
      invariant failedCount == CountFailed(api, Works, allWorks[..i])
      invariant calls == [WorksList(workType, query)] + DeleteEach(Works, allWorks[..i])
    {
      assert allWorks[..i + 1] == allWorks[..i] + [allWorks[i]];
      DeleteEachSnoc(Works, allWorks[..i], allWorks[i]);
      CountFailedSnoc(api, Works, allWorks[..i], allWorks[i]);
      calls := calls + [Delete(Works, allWorks[i])];
      if !api.deletes(Works, allWorks[i]) {
        failedCount := failedCount + 1;
      }
      i := i + 1;
    }
    assert allWorks[..i] == allWorks;

    var tail: seq<Call>;
    if Truthy(cursor) {
      var body := WorksResume(g, failedCount);
      var update := UpdateSnapIn(api, g.snapInId, Some(objectType), Some(failedCount), "None");
      tail := update.calls;
      if update.value == Ok(true) {
        var scheduled := ScheduleFollowUp(api, body);
        tail := tail + scheduled.calls;
      }
    } else {
      var probe := ProbeQuery(g);
      tail := [WorksList(workType, probe)];
      var remaining := api.worksList(workType, probe);
      if remaining.Ok? && remaining.value.items.Some? {
        tail := tail + [TimelineEntriesCreate(WorksSummary(g, objectType, |remaining.value.items.value|))];
      }
    }
    assert tail == WorksTail(g, objectType, workType, response.value, api);
    WorksTraceOfPage(g, objectType, workType, response.value, api);
    calls := calls + tail;
  }

  // ---------------------------------------------------------------------------------------
  // Properties of one invocation.

  /** A name that is not one of the three work families issues no request at all. */
  lemma WorksUnknownTypeIsSilent(g: Globals, objectType: string, api: Api)
    requires objectType != "Tickets" && objectType != "Issues" && objectType != "Opportunities"
    ensures WorksTrace(g, objectType, api) == []
  {
  }

  /** Every list request of an invocation is for the chosen work type: the first page, and
      the probe of the last page. */
  lemma WorksListsChosenType(g: Globals, objectType: string, workType: WorkType, api: Api)
    requires WorkTypeOf(objectType) == Some(workType)
    ensures var t := WorksTrace(g, objectType, api);
            && |t| >= 1 && t[0] == WorksList(workType, FirstQuery(g))
            && forall k :: 0 <= k < |t| && t[k].WorksList? ==> t[k].workType == workType
  {
    var t := WorksTrace(g, objectType, api);
    var head := [WorksList(workType, FirstQuery(g))];
    var response := api.worksList(workType, FirstQuery(g));
    if response.Ok? && response.value.items.Some? && |response.value.items.value| > 0 {
      var page := response.value;
      var dels := DeleteEach(Works, page.items.value);
      var tail := WorksTail(g, objectType, workType, page, api);
      assert t == head + (dels + tail);
      assert forall k :: 0 <= k < |tail| && tail[k].WorksList? ==> tail[k].workType == workType by {
        if Truthy(page.nextCursor) {
          var failed := CountFailed(api, Works, page.items.value);
          var update := UpdateSnapIn(api, g.snapInId, Some(objectType), Some(failed), "None");
          assert tail == update.calls + (if update.value == Ok(true) then ScheduleFollowUp(api, WorksResume(g, failed)).calls else []);
        }
      }
      assert forall k :: 0 <= k < |dels| ==> dels[k].Delete?;
    }
  }

  /** A rejected, missing or empty first page ends the invocation after that one read: no
      delete, no store write, no schedule, no summary. */
  lemma WorksEmptyPageStops(g: Globals, objectType: string, api: Api)
    requires WorkTypeOf(objectType).Some?
    requires var r := api.worksList(WorkTypeOf(objectType).value, FirstQuery(g));
             r.Thrown? || r.value.items.None? || r.value.items.value == []
    ensures WorksTrace(g, objectType, api) == [WorksList(WorkTypeOf(objectType).value, FirstQuery(g))]
    ensures ReadsOnly(WorksTrace(g, objectType, api))
  {
  }

  /** Every work of a non-empty first page is deleted by exactly one request, in page order,
      and nothing else is deleted. */
  lemma WorksDeletesEachOnce(g: Globals, objectType: string, api: Api)
    requires WorkTypeOf(objectType).Some?
    requires var r := api.worksList(WorkTypeOf(objectType).value, FirstQuery(g));
             r.Ok? && r.value.items.Some? && r.value.items.value != []
    ensures Deletes(WorksTrace(g, objectType, api)) == api.worksList(WorkTypeOf(objectType).value, FirstQuery(g)).value.items.value
  {
    var workType := WorkTypeOf(objectType).value;
    var page := api.worksList(workType, FirstQuery(g)).value;
    var head := [WorksList(workType, FirstQuery(g))];
    var dels := DeleteEach(Works, page.items.value);
    var tail := WorksTail(g, objectType, workType, page, api);
    WorksTraceOfPage(g, objectType, workType, page, api);
    EffectsAppend(head + dels, tail);
    EffectsAppend(head, dels);
    CallEffects(head[0]);
    DeleteEachEffects(Works, page.items.value);
    NoDeletesAfter(g, objectType, workType, page, api);
  }

  /** The requests after the deletes delete nothing. */
  lemma NoDeletesAfter(g: Globals, objectType: string, workType: WorkType, page: Page, api: Api)
    requires page.items.Some?
    ensures Deletes(WorksTail(g, objectType, workType, page, api)) == []
  {
    if Truthy(page.nextCursor) {
      var failed := CountFailed(api, Works, page.items.value);
      var update := UpdateSnapIn(api, g.snapInId, Some(objectType), Some(failed), "None");
      var sched := if update.value == Ok(true) then ScheduleFollowUp(api, WorksResume(g, failed)).calls else [];
      EffectsAppend(update.calls, sched);
      assert update.calls == [update.calls[0]];
      CallEffects(update.calls[0]);
    } else {
      var probe := [WorksList(workType, ProbeQuery(g))];
      var rest := WorksProbeCalls(g, objectType, workType, api)[1..];
      assert WorksProbeCalls(g, objectType, workType, api) == probe + rest;
      EffectsAppend(probe, rest);
      CallEffects(probe[0]);
      if rest != [] {
        assert rest == [rest[0]];
        CallEffects(rest[0]);
      }
    }
  }

  /** With a cursor left, the store is written once with this page's failure count, a resume
      carrying that count is scheduled iff the write answered truthy, and no summary is
      posted. The count starts from zero, not from the stored `failed_count`. */
  lemma WorksCursorResumes(g: Globals, objectType: string, api: Api)
    requires WorkTypeOf(objectType).Some?
    requires var r := api.worksList(WorkTypeOf(objectType).value, FirstQuery(g));
             r.Ok? && r.value.items.Some? && r.value.items.value != [] && Truthy(r.value.nextCursor)
    ensures var works := api.worksList(WorkTypeOf(objectType).value, FirstQuery(g)).value.items.value;
            var failed := CountFailed(api, Works, works);
            var body := UpdateBody(g.snapInId, failed, Some(objectType), "None");
            && StoreWrites(WorksTrace(g, objectType, api)) == [body]
            && Scheduled(WorksTrace(g, objectType, api)) ==
                 (if api.updateSnapIn(body) == Ok(true) then [EventBody(g.eventType, g.sourceId, failed, 5000)] else [])
            && Created(WorksTrace(g, objectType, api)) == []
  {
    var workType := WorkTypeOf(objectType).value;
    var page := api.worksList(workType, FirstQuery(g)).value;
    var failed := CountFailed(api, Works, page.items.value);
    var head := [WorksList(workType, FirstQuery(g))];
    var dels := DeleteEach(Works, page.items.value);
    var tail := WorksResumeCalls(g, objectType, failed, api);
    WorksTraceOfPage(g, objectType, workType, page, api);
    assert WorksTail(g, objectType, workType, page, api) == tail;
    EffectsAppend(head + dels, tail);
    EffectsAppend(head, dels);
    CallEffects(head[0]);
    DeleteEachEffects(Works, page.items.value);
    WorksResumeEffects(g, objectType, failed, api);
  }

  /** The effects of the resume requests alone. */
  lemma WorksResumeEffects(g: Globals, objectType: string, failed: int, api: Api)
    ensures var body := UpdateBody(g.snapInId, failed, Some(objectType), "None");
            var t := WorksResumeCalls(g, objectType, failed, api);
            && StoreWrites(t) == [body]
            && Scheduled(t) == (if api.updateSnapIn(body) == Ok(true) then [WorksResume(g, failed)] else [])
            && Created(t) == []
  {
    var update := UpdateSnapIn(api, g.snapInId, Some(objectType), Some(failed), "None");
    var sched := if update.value == Ok(true) then ScheduleFollowUp(api, WorksResume(g, failed)).calls else [];
    EffectsAppend(update.calls, sched);
    assert update.calls == [update.calls[0]];
    CallEffects(update.calls[0]);
  }

  /** On the last page (no cursor) one probe of limit 1 runs right after the deletes; nothing
      is written or scheduled, and exactly one summary is posted unless the probe itself
      fails, worded as a failure iff the probe found a work. */
  lemma WorksLastPageSummarises(g: Globals, objectType: string, api: Api)
    requires WorkTypeOf(objectType).Some?
    requires var r := api.worksList(WorkTypeOf(objectType).value, FirstQuery(g));
             r.Ok? && r.value.items.Some? && r.value.items.value != [] && !Truthy(r.value.nextCursor)
    ensures var t := WorksTrace(g, objectType, api);
            var workType := WorkTypeOf(objectType).value;
            var works := api.worksList(workType, FirstQuery(g)).value.items.value;
            var probe := api.worksList(workType, ListQuery(None, 1, g.tags));
            && |t| > |works| + 1 && t[|works| + 1] == WorksList(workType, ListQuery(None, 1, g.tags))
            && StoreWrites(t) == [] && Scheduled(t) == []
            && Created(t) == (if probe.Ok? && probe.value.items.Some?
                              then [WorksSummary(g, objectType, |probe.value.items.value|)]
                              else [])
  {
    var workType := WorkTypeOf(objectType).value;
    var page := api.worksList(workType, FirstQuery(g)).value;
    var head := [WorksList(workType, FirstQuery(g))];
    var dels := DeleteEach(Works, page.items.value);
    var tail := WorksProbeCalls(g, objectType, workType, api);
    WorksTraceOfPage(g, objectType, workType, page, api);
    assert WorksTail(g, objectType, workType, page, api) == tail;
    assert (head + dels + tail)[|page.items.value| + 1] == tail[0];
    EffectsAppend(head + dels, tail);
    EffectsAppend(head, dels);
    CallEffects(head[0]);
    DeleteEachEffects(Works, page.items.value);
    WorksProbeEffects(g, objectType, workType, api);
  }

  /** The effects of the probe requests alone. */
  lemma WorksProbeEffects(g: Globals, objectType: string, workType: WorkType, api: Api)
    ensures var t := WorksProbeCalls(g, objectType, workType, api);
            var probe := api.worksList(workType, ProbeQuery(g));
            && t[0] == WorksList(workType, ProbeQuery(g))
            && StoreWrites(t) == [] && Scheduled(t) == [] && Deletes(t) == []
            && Created(t) == (if probe.Ok? && probe.value.items.Some?
                              then [WorksSummary(g, objectType, |probe.value.items.value|)] else [])
  {
    var t := WorksProbeCalls(g, objectType, workType, api);
    var head := [t[0]];
    var rest := t[1..];
    assert t == head + rest;
    EffectsAppend(head, rest);
    CallEffects(t[0]);
    if rest != [] {
      assert rest == [rest[0]];
      CallEffects(rest[0]);
    }
  }

  /** The summary is worded as a failure iff works remain. */
  lemma WorksSummaryWording(g: Globals, objectType: string, remaining: nat)
    ensures WorksSummary(g, objectType, remaining).body.text ==
            (if remaining > 0 then "Failed to delete all " else "Successfully deleted all ") + objectType + "."
    ensures WorksSummary(g, objectType, remaining).visibility == Internal
    ensures WorksSummary(g, objectType, remaining).objectId == g.snapInId
  {
  }

  /** Whatever the platform answers, one invocation writes the store at most once and posts
      at most one of a resume and a summary. */
  lemma WorksResumeOrSummary(g: Globals, objectType: string, api: Api)
    ensures |StoreWrites(WorksTrace(g, objectType, api))| <= 1
    ensures |Scheduled(WorksTrace(g, objectType, api))| + |Created(WorksTrace(g, objectType, api))| <= 1
  {
    if WorkTypeOf(objectType).Some? {
      var workType := WorkTypeOf(objectType).value;
      var r := api.worksList(workType, FirstQuery(g));
      if r.Thrown? || r.value.items.None? || r.value.items.value == [] {
        WorksEmptyPageStops(g, objectType, api);
        ReadsOnlyNoEffects(WorksTrace(g, objectType, api));
      } else if Truthy(r.value.nextCursor) {
        WorksCursorResumes(g, objectType, api);
      } else {
        WorksLastPageSummarises(g, objectType, api);
      }
    }
  }
}
