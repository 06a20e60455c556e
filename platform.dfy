/** The platform as the snap-in sees it: the requests its SDK client can issue, the answers
    the platform gives to them, and a few JavaScript value conventions the code relies on.

    An operation of the snap-in is modelled by the sequence of SDK requests it issues, in
    order (a `seq<Call>`), computed against an `Api` value that fixes the platform's answer to
    every request. What the operations do to the platform (objects deleted, timeline entries
    posted, the stored input values overwritten, follow-up events scheduled) is read off that
    sequence with the projections at the end of this module. */
module Platform {

  datatype Option<+T> = None | Some(value: T)

  /** The settled state of an awaited request: the value it resolved to, or a rejection. */
  datatype Outcome<+T> = Ok(value: T) | Thrown

  /** JavaScript truthiness of an optional string: `undefined` and `''` are falsy. */
  predicate Truthy(s: Option<string>) {
    s.Some? && s.value != ""
  }

  /** How a template literal renders an optional string. */
  function Show(s: Option<string>): string {
    if s.Some? then s.value else "undefined"
  }

  /** `Array.prototype.join`. */
  function Join(xs: seq<string>, sep: string): string {
    if |xs| == 0 then ""
    else if |xs| == 1 then xs[0]
    else xs[0] + sep + Join(xs[1..], sep)
  }

  datatype WorkType = Ticket | Issue | Opportunity

  /** The three object families whose members the snap-in deletes: works (tickets, issues,
      opportunities), accounts and rev users (contacts). */
  datatype Family = Works | Accounts | Contacts

  /** A paginated list request: an optional cursor, the page size and the tag filter. */
  datatype ListQuery = ListQuery(cursor: Option<string>, limit: int, tags: Option<seq<string>>)

  /** A page of object ids; `items` is `None` when the response has no list at all. */
  datatype Page = Page(items: Option<seq<string>>, nextCursor: Option<string>)

  datatype Tag = Tag(id: string, name: string)

  datatype Visibility = Private(to: Option<string>) | Internal | Public

  /** A timeline entry's content: a plain comment, or an interactive form whose radio buttons
      carry the given option values. */
  datatype Body = Text(text: string) | SnapKit(title: string, options: seq<string>, action: string)

  datatype Entry = Entry(objectId: Option<string>, body: Body, visibility: Visibility, expiresInMs: Option<int>)

  /** The body written by `snapInsUpdate`: the snap-in id and its new input values.
      `objectType == None` is an `undefined` value, which the JSON body omits. */
  datatype UpdateBody = UpdateBody(id: Option<string>, failedCount: int, objectType: Option<string>, validation: string)

  /** A follow-up event: its type, its event source, the `failed_count` of its payload and
      how far in the future it is published. */
  datatype EventBody = EventBody(eventType: string, sourceId: Option<string>, failedCount: int, delayMs: int)

  /** One SDK request. */
  datatype Call =
    | WorksList(workType: WorkType, query: ListQuery)
    | AccountsList(query: ListQuery)
    | RevUsersList(query: ListQuery)
    | RevOrgsList(account: string)
    | LinkedTicketsList(revOrg: string)
    | Delete(family: Family, id: string)
    | GroupMembersList(group: string)
    | TagsList(limit: int)
    | TimelineEntriesCreate(entry: Entry)
    | TimelineEntriesDelete(entryId: string)
    | SnapInsUpdate(update: UpdateBody)
    | ScheduleEvent(event: EventBody)

  /** The platform's answer to each request. A lookup that rejects, or a plain lookup whose
      response lacks its list, answers `Thrown`; a page whose response lacks its list has no
      `items`; `deletes`, `createEntry`, `deleteEntry` and
      `scheduleEvent` say whether the request resolved; `updateSnapIn` gives the truthiness of
      the response data. */
  datatype Api = Api(
    worksList: (WorkType, ListQuery) -> Outcome<Page>,
    accountsList: ListQuery -> Outcome<Page>,
    revUsersList: ListQuery -> Outcome<Page>,
    revOrgsList: string -> Outcome<seq<string>>,
    linkedTickets: string -> Outcome<seq<string>>,
    deletes: (Family, string) -> bool,
    groupMembers: string -> Outcome<seq<string>>,
    tagsList: Outcome<seq<Tag>>,
    createEntry: Entry -> bool,
    deleteEntry: string -> bool,
    updateSnapIn: UpdateBody -> Outcome<bool>,
    scheduleEvent: EventBody -> bool)

  /** A value computed together with the requests issued to compute it. */
  datatype Traced<+T> = Traced(value: T, calls: seq<Call>)

  /** One delete request per id, in order. */
  function DeleteEach(family: Family, ids: seq<string>): (r: seq<Call>)
  {
    seq(|ids|, k requires 0 <= k < |ids| => Delete(family, ids[k]))
  }

  lemma DeleteEachSnoc(family: Family, ids: seq<string>, id: string)
    ensures DeleteEach(family, ids + [id]) == DeleteEach(family, ids) + [Delete(family, id)]
  {
  }

  /** The number of ids whose delete request rejects. */
  function CountFailed(api: Api, family: Family, ids: seq<string>): (n: nat)
    ensures n <= |ids|
    ensures n == 0 <==> forall k :: 0 <= k < |ids| ==> api.deletes(family, ids[k])
  {
    if ids == [] then 0
    else CountFailed(api, family, ids[..|ids| - 1]) + (if api.deletes(family, ids[|ids| - 1]) then 0 else 1)
  }

  lemma CountFailedSnoc(api: Api, family: Family, ids: seq<string>, id: string)
    ensures CountFailed(api, family, ids + [id]) == CountFailed(api, family, ids) + (if api.deletes(family, id) then 0 else 1)
  {
    assert (ids + [id])[..|ids|] == ids;
  }

  // ---------------------------------------------------------------------------------------
  // Projections of a request sequence onto its effects.

  /** A request that only reads. */
  predicate IsRead(c: Call) {
    c.WorksList? || c.AccountsList? || c.RevUsersList? || c.RevOrgsList? || c.LinkedTicketsList?
    || c.GroupMembersList? || c.TagsList?
  }

  predicate ReadsOnly(calls: seq<Call>) {
    forall k :: 0 <= k < |calls| ==> IsRead(calls[k])
  }

  function DeleteOf(c: Call): Option<string> {
    if c.Delete? then Some(c.id) else None
  }

  function EntryOf(c: Call): Option<Entry> {
    if c.TimelineEntriesCreate? then Some(c.entry) else None
  }

  function EntryDeleteOf(c: Call): Option<string> {
    if c.TimelineEntriesDelete? then Some(c.entryId) else None
  }

  function UpdateOf(c: Call): Option<UpdateBody> {
    if c.SnapInsUpdate? then Some(c.update) else None
  }

  function ScheduleOf(c: Call): Option<EventBody> {
    if c.ScheduleEvent? then Some(c.event) else None
  }

  /** The values `pick` finds in `calls`, in order. */
  function Project<T>(calls: seq<Call>, pick: Call -> Option<T>): (r: seq<T>)
    ensures |r| <= |calls|
  {
    if calls == [] then []
    else (if pick(calls[0]).Some? then [pick(calls[0]).value] else []) + Project(calls[1..], pick)
  }

  /** The ids of the objects a request sequence deletes. */
  function Deletes(calls: seq<Call>): seq<string> { Project(calls, DeleteOf) }

  /** The timeline entries a request sequence posts. */
  function Created(calls: seq<Call>): seq<Entry> { Project(calls, EntryOf) }

  /** The timeline entries a request sequence removes. */
  function EntriesRemoved(calls: seq<Call>): seq<string> { Project(calls, EntryDeleteOf) }

  /** The writes of the stored input values. */
  function StoreWrites(calls: seq<Call>): seq<UpdateBody> { Project(calls, UpdateOf) }

  /** The follow-up events scheduled. */
  function Scheduled(calls: seq<Call>): seq<EventBody> { Project(calls, ScheduleOf) }

  lemma {:induction false} ProjectAppend<T>(a: seq<Call>, b: seq<Call>, pick: Call -> Option<T>)
    ensures Project(a + b, pick) == Project(a, pick) + Project(b, pick)
  {
    if a != [] {
      var head := if pick(a[0]).Some? then [pick(a[0]).value] else [];
      assert (a + b)[0] == a[0] && (a + b)[1..] == a[1..] + b;
      ProjectAppend(a[1..], b, pick);
      assert Project(a + b, pick) == head + Project(a[1..] + b, pick);
      assert Project(a, pick) == head + Project(a[1..], pick);
    } else {
      assert a + b == b;
    }
  }

  lemma ProjectOne<T>(c: Call, pick: Call -> Option<T>)
    ensures Project([c], pick) == if pick(c).Some? then [pick(c).value] else []
  {
    assert [c][1..] == [];
  }

  /** All five projections distribute over concatenation. */
  lemma EffectsAppend(a: seq<Call>, b: seq<Call>)
    ensures Deletes(a + b) == Deletes(a) + Deletes(b)
    ensures Created(a + b) == Created(a) + Created(b)
    ensures EntriesRemoved(a + b) == EntriesRemoved(a) + EntriesRemoved(b)
    ensures StoreWrites(a + b) == StoreWrites(a) + StoreWrites(b)
    ensures Scheduled(a + b) == Scheduled(a) + Scheduled(b)
  {
    ProjectAppend(a, b, DeleteOf);
    ProjectAppend(a, b, EntryOf);
    ProjectAppend(a, b, EntryDeleteOf);
    ProjectAppend(a, b, UpdateOf);
    ProjectAppend(a, b, ScheduleOf);
  }

  /** A request sequence that only reads has no effect. */
  lemma {:induction false} ReadsOnlyNoEffects(calls: seq<Call>)
    requires ReadsOnly(calls)
    ensures Deletes(calls) == [] && Created(calls) == [] && EntriesRemoved(calls) == []
    ensures StoreWrites(calls) == [] && Scheduled(calls) == []
  {
    if calls != [] {
      assert ReadsOnly(calls[1..]) by {
        forall k | 0 <= k < |calls[1..]| ensures IsRead(calls[1..][k]) {
          assert calls[1..][k] == calls[k + 1];
        }
      }
      ReadsOnlyNoEffects(calls[1..]);
    }
  }

  /** Reads in front of a request sequence add no effect to it. */
  lemma ReadsThen(a: seq<Call>, b: seq<Call>)
    requires ReadsOnly(a)
    ensures Deletes(a + b) == Deletes(b) && Created(a + b) == Created(b) && EntriesRemoved(a + b) == EntriesRemoved(b)
    ensures StoreWrites(a + b) == StoreWrites(b) && Scheduled(a + b) == Scheduled(b)
  {
    EffectsAppend(a, b);
    ReadsOnlyNoEffects(a);
  }

  lemma ReadsOnlyAppend(a: seq<Call>, b: seq<Call>)
    requires ReadsOnly(a) && ReadsOnly(b)
    ensures ReadsOnly(a + b)
  {
    forall k | 0 <= k < |a + b| ensures IsRead((a + b)[k]) {
      if k < |a| { assert (a + b)[k] == a[k]; } else { assert (a + b)[k] == b[k - |a|]; }
    }
  }

  /** Deleting every id of a page, one request each, deletes exactly that page and does
      nothing else. */
  lemma {:induction false} DeleteEachEffects(family: Family, ids: seq<string>)
    ensures Deletes(DeleteEach(family, ids)) == ids
    ensures Created(DeleteEach(family, ids)) == [] && EntriesRemoved(DeleteEach(family, ids)) == []
    ensures StoreWrites(DeleteEach(family, ids)) == [] && Scheduled(DeleteEach(family, ids)) == []
  {
    if ids != [] {
      var init := ids[..|ids| - 1];
      var last := ids[|ids| - 1];
      assert ids == init + [last];
      DeleteEachSnoc(family, init, last);
      DeleteEachEffects(family, init);
      EffectsAppend(DeleteEach(family, init), [Delete(family, last)]);
      ProjectOne(Delete(family, last), DeleteOf);
      ProjectOne(Delete(family, last), EntryOf);
      ProjectOne(Delete(family, last), EntryDeleteOf);
      ProjectOne(Delete(family, last), UpdateOf);
      ProjectOne(Delete(family, last), ScheduleOf);
    }
  }

  /** The closing requests of a run: the write of the stored input values, then, once the
      write resolved, a follow-up event when its answer was truthy and the run was cut short,
      else a summary entry. */
  lemma WriteThenFollowUp(body: UpdateBody, answer: Outcome<bool>, long: bool, resume: EventBody, summary: Entry)
    ensures var t := [SnapInsUpdate(body)] + (if answer.Thrown? then []
                                              else if answer.value && long then [ScheduleEvent(resume)]
                                              else [TimelineEntriesCreate(summary)]);
            && StoreWrites(t) == [body] && Deletes(t) == [] && EntriesRemoved(t) == []
            && Scheduled(t) == (if answer == Ok(true) && long then [resume] else [])
            && Created(t) == (if answer.Ok? && !(answer.value && long) then [summary] else [])
            && |Scheduled(t)| + |Created(t)| <= 1
  {
    var w := SnapInsUpdate(body);
    CallEffects(w);
    if !answer.Thrown? {
      var x := if answer.value && long then ScheduleEvent(resume) else TimelineEntriesCreate(summary);
      EffectsAppend([w], [x]);
      CallEffects(x);
    }
  }

  /** The write of the stored input values, then a follow-up event iff the write answered
      truthy. */
  lemma WriteThenSchedule(body: UpdateBody, answer: Outcome<bool>, follow: EventBody)
    ensures var t := [SnapInsUpdate(body)] + (if answer == Ok(true) then [ScheduleEvent(follow)] else []);
            && StoreWrites(t) == [body] && Deletes(t) == [] && EntriesRemoved(t) == [] && Created(t) == []
            && Scheduled(t) == (if answer == Ok(true) then [follow] else [])
  {
    var w := SnapInsUpdate(body);
    CallEffects(w);
    if answer == Ok(true) {
      EffectsAppend([w], [ScheduleEvent(follow)]);
      CallEffects(ScheduleEvent(follow));
    }
  }

  /** The effects of one request. */
  lemma CallEffects(c: Call)
    ensures Deletes([c]) == (if c.Delete? then [c.id] else [])
    ensures Created([c]) == (if c.TimelineEntriesCreate? then [c.entry] else [])
    ensures EntriesRemoved([c]) == (if c.TimelineEntriesDelete? then [c.entryId] else [])
    ensures StoreWrites([c]) == (if c.SnapInsUpdate? then [c.update] else [])
    ensures Scheduled([c]) == (if c.ScheduleEvent? then [c.event] else [])
  {
    ProjectOne(c, DeleteOf);
    ProjectOne(c, EntryOf);
    ProjectOne(c, EntryDeleteOf);
    ProjectOne(c, UpdateOf);
    ProjectOne(c, ScheduleOf);
  }
}
