/** The shared helpers of the snap-in's functions: the `globals` view of an inbound event, the
    access guard, the tag filter, and the wrappers that write the stored input values and
    schedule a follow-up event. */
module DevUtils {
  import opened Platform

  /** The event type of every follow-up event the snap-in schedules. */
  const ScheduledEventType: string := "scheduled_issue_creation"

  /** The page size of every listing the drivers issue. */
  const PageLimit: int := 100

  /** The parts of an inbound event the core reads; each is optional, as in the
      duck-typed payload. */
  datatype Event = Event(
    userId: Option<string>,             // context.user_id
    snapInId: Option<string>,           // context.snap_in_id
    radioValue: Option<string>,         // payload.action.value.radio_buttons.value.value
    entryId: Option<string>,            // payload.context.entry_id
    scheduledSource: Option<string>,    // input_data.event_sources['scheduled-events']
    failedCount: Option<int>,           // input_data.global_values.failed_count
    accessGroup: Option<string>,        // input_data.global_values.access_group
    objectType: Option<string>,         // input_data.global_values.object_type
    tags: Option<seq<string>>,          // input_data.global_values.tags
    validation: Option<string>)         // input_data.global_values.validation

  /** The record `globals(event)` builds. Like the source's record, it has no `object_type`
      key: the stored object type is `storedObject`. */
  datatype Globals = Globals(
    eventType: string,
    failedCount: Option<int>,
    groupId: Option<string>,
    limit: int,
    radioButtonValue: Option<string>,
    snapInId: Option<string>,
    sourceId: Option<string>,
    storedObject: Option<string>,
    tags: Option<seq<string>>,
    timelineId: Option<string>,
    userId: Option<string>,
    validation: Option<string>)

  function GlobalsOf(e: Event): (g: Globals)
    ensures g.limit == PageLimit && g.eventType == ScheduledEventType
  {
    Globals(ScheduledEventType, e.failedCount, e.accessGroup, PageLimit, e.radioValue, e.snapInId,
            e.scheduledSource, e.objectType, e.tags, e.entryId, e.userId, e.validation)
  }

  /** `globals.object_type`: a key the record does not have, so always `undefined`. */
  function ObjectTypeKey(g: Globals): Option<string> {
    None
  }

  /** Every event yields the same page limit and event type, and `object_type` is undefined
      whatever the stored object type is. */
  lemma GlobalsConstants(e1: Event, e2: Event)
    ensures GlobalsOf(e1).limit == GlobalsOf(e2).limit == 100
    ensures GlobalsOf(e1).eventType == GlobalsOf(e2).eventType == "scheduled_issue_creation"
    ensures ObjectTypeKey(GlobalsOf(e1)).None?
  {
  }

  /** `members.some((m) => m.member.id === devUserId)`. */
  function SomeMember(members: seq<string>, userId: Option<string>): (r: bool)
    ensures r <==> userId.Some? && userId.value in members
  {
    |members| > 0 && (Some(members[0]) == userId || SomeMember(members[1..], userId))
  }

  /** `hasAccess`: open when no group is configured; otherwise membership of the acting user
      in the group, and denial when the member lookup fails. */
  function HasAccess(userId: Option<string>, api: Api, groupId: Option<string>): (r: Traced<bool>)
    ensures !Truthy(groupId) ==> r == Traced(true, [])
    ensures Truthy(groupId) ==> r.calls == [GroupMembersList(groupId.value)]
    ensures Truthy(groupId) ==>
      (r.value <==> api.groupMembers(groupId.value).Ok? && userId.Some?
                    && userId.value in api.groupMembers(groupId.value).value)
    ensures ReadsOnly(r.calls)
  {
    if !Truthy(groupId) then Traced(true, [])
    else
      var calls := [GroupMembersList(groupId.value)];
      match api.groupMembers(groupId.value)
      case Thrown => Traced(false, calls)
      case Ok(members) => Traced(SomeMember(members, userId), calls)
  }

  /** The names of the tags whose id is among `wanted`, in list order. */
  function MatchingNames(all: seq<Tag>, wanted: seq<string>): (r: seq<string>)
    ensures |r| <= |all|
  {
    if all == [] then []
    else (if all[0].id in wanted then [all[0].name] else []) + MatchingNames(all[1..], wanted)
  }

  /** A name is in the result iff some listed tag with a wanted id carries it. */
  lemma {:induction false} MatchingNamesMembers(all: seq<Tag>, wanted: seq<string>, name: string)
    ensures name in MatchingNames(all, wanted) <==>
            exists j :: 0 <= j < |all| && all[j].id in wanted && all[j].name == name
  {
    if all != [] {
      var rest := all[1..];
      var head := if all[0].id in wanted then [all[0].name] else [];
      assert MatchingNames(all, wanted) == head + MatchingNames(rest, wanted);
      MatchingNamesMembers(rest, wanted, name);
      if name in MatchingNames(all, wanted) && name !in head {
        var j :| 0 <= j < |rest| && rest[j].id in wanted && rest[j].name == name;
        assert all[j + 1] == rest[j];
      }
      if exists j :: 1 <= j < |all| && all[j].id in wanted && all[j].name == name {
        var j :| 1 <= j < |all| && all[j].id in wanted && all[j].name == name;
        assert rest[j - 1] == all[j];
      }
    }
  }

  /** The filter keeps list order: filtering a concatenation concatenates the filtered parts. */
  lemma {:induction false} MatchingNamesAppend(a: seq<Tag>, b: seq<Tag>, wanted: seq<string>)
    ensures MatchingNames(a + b, wanted) == MatchingNames(a, wanted) + MatchingNames(b, wanted)
  {
    if a == [] {
      assert a + b == b;
    } else {
      var head := if a[0].id in wanted then [a[0].name] else [];
      assert (a + b)[0] == a[0] && (a + b)[1..] == a[1..] + b;
      MatchingNamesAppend(a[1..], b, wanted);
      assert MatchingNames(a + b, wanted) == head + MatchingNames(a[1..] + b, wanted);
      assert MatchingNames(a, wanted) == head + MatchingNames(a[1..], wanted);
    }
  }

  /** `filteredTagNames`: one `tagsList` request; the names of the listed tags whose id is
      among the configured ones. It rejects when the listing fails, and when tags are listed
      but none are configured (`includes` on `undefined`). */
  function FilteredTagNames(tags: Option<seq<string>>, api: Api): (r: Traced<Outcome<seq<string>>>)
    ensures r.calls == [TagsList(100)]
    ensures r.value.Ok? <==> api.tagsList.Ok? && (tags.Some? || api.tagsList.value == [])
    ensures r.value.Ok? ==> |r.value.value| <= |api.tagsList.value|
    ensures r.value.Ok? && tags.Some? ==> r.value.value == MatchingNames(api.tagsList.value, tags.value)
    ensures r.value.Ok? && tags.None? ==> r.value.value == []
  {
    var calls := [TagsList(100)];
    match api.tagsList
    case Thrown => Traced(Thrown, calls)
    case Ok(all) =>
      if tags.None? then (if all == [] then Traced(Ok([]), calls) else Traced(Thrown, calls))
      else Traced(Ok(MatchingNames(all, tags.value)), calls)
  }

  /** The body `updateSnapIn` writes. `failedCountNew == None` stands for `null`, which
      writes 0; an `undefined` count, which the source would pass through, is never given
      by a caller. */
  function UpdateBodyOf(snapInId: Option<string>, objectType: Option<string>, failedCountNew: Option<int>,
                        validation: string): UpdateBody
  {
    UpdateBody(snapInId, if failedCountNew.Some? then failedCountNew.value else 0, objectType, validation)
  }

  /** `updateSnapIn`: one `snapInsUpdate` request whose inputs carry `failed_count` (0 for
      null), `object_type` and `validation` as given; a rejection is rethrown, never turned
      into a falsy response. */
  function UpdateSnapIn(api: Api, snapInId: Option<string>, objectType: Option<string>,
                        failedCountNew: Option<int>, validation: string): (r: Traced<Outcome<bool>>)
    ensures |r.calls| == 1 && r.calls[0].SnapInsUpdate?
    ensures r.calls[0].update.failedCount == (if failedCountNew.None? then 0 else failedCountNew.value)
    ensures r.calls[0].update.objectType == objectType && r.calls[0].update.validation == validation
    ensures r.calls[0].update.id == snapInId
    ensures r.value == api.updateSnapIn(r.calls[0].update)
  {
    var body := UpdateBodyOf(snapInId, objectType, failedCountNew, validation);
    Traced(api.updateSnapIn(body), [SnapInsUpdate(body)])
  }

  /** `scheduleEvent`: one request; a rejection is rethrown (`false`). */
  function ScheduleFollowUp(api: Api, body: EventBody): (r: Traced<bool>)
    ensures r.calls == [ScheduleEvent(body)]
    ensures Scheduled(r.calls) == [body]
    ensures r.value <==> api.scheduleEvent(body)
  {
    CallEffects(ScheduleEvent(body));
    Traced(api.scheduleEvent(body), [ScheduleEvent(body)])
  }
}
