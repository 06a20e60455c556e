/** The confirmation step (`issueWarning`): remove the entry the user clicked, check access,
    then post an internal form asking for a Yes or No answer. */
module IssueWarning {
  import opened Platform
  import opened DevUtils

  /** Five minutes, the lifetime of the private refusal and of the form. */
  const FiveMinutesMs: int := 5 * 60 * 1000

  /** The private refusal posted to a user outside the access group. */
  function NotAuthorizedEntry(g: Globals): Entry {
    Entry(g.snapInId, Text("You are not authorized to delete."), Private(g.userId), Some(FiveMinutesMs))
  }

  const TitlePrefix: string := "Note: Confirm that you are about to delete "
  const TitleMiddle: string := " that have the tag "

  /** The form title: the stored object type and the tag names joined with ", ". */
  function ConfirmationTitle(objectType: Option<string>, tagNames: seq<string>): string {
    TitlePrefix + (Show(objectType) + (TitleMiddle + Join(tagNames, ", ") + ":"))
  }

  /** The form: a radio group with the values Yes and No, answered to `bulk_delete_all`. */
  function ConfirmationForm(g: Globals, tagNames: seq<string>): Entry {
    Entry(g.snapInId, SnapKit(ConfirmationTitle(g.storedObject, tagNames), ["Yes", "No"], "bulk_delete_all"),
          Internal, Some(FiveMinutesMs))
  }

  /** Listing the tag names, then posting the form; a rejected tag listing ends the call. A
      rejected post is only logged. */
  function PostForm(g: Globals, api: Api): seq<Call> {
    var tags := FilteredTagNames(g.tags, api);
    tags.calls +
    match tags.value
    case Thrown => []
    case Ok(names) => [TimelineEntriesCreate(ConfirmationForm(g, names))]
  }

  /** The requests `issueWarning` issues. With an entry to remove it first removes it (a
      rejection ends the call), then checks access and, for a user outside the group, posts
      the refusal instead of the form. Without such an entry the form is posted unchecked. */
  function IssueWarning(e: Event, api: Api): seq<Call> {
    var g := GlobalsOf(e);
    if Truthy(g.timelineId) then
      var remove := [TimelineEntriesDelete(g.timelineId.value)];
      if !api.deleteEntry(g.timelineId.value) then remove
      else
        var access := HasAccess(g.userId, api, g.groupId);
        if !access.value then remove + access.calls + [TimelineEntriesCreate(NotAuthorizedEntry(g))]
        else remove + access.calls + PostForm(g, api)
    else PostForm(g, api)
  }

  // ---------------------------------------------------------------------------------------
  // Properties.

  /** The effects of posting the form: nothing is deleted, removed, written or scheduled, no
      access check is made, and exactly one form is posted unless the tag listing rejects. */
  lemma PostFormEffects(g: Globals, api: Api)
    ensures var t := PostForm(g, api);
            var tags := FilteredTagNames(g.tags, api);
            && Deletes(t) == [] && EntriesRemoved(t) == [] && StoreWrites(t) == [] && Scheduled(t) == []
            && (forall k :: 0 <= k < |t| ==> !t[k].GroupMembersList?)
            && Created(t) == (if tags.value.Ok? then [ConfirmationForm(g, tags.value.value)] else [])
  {
    var tags := FilteredTagNames(g.tags, api);
    var post := if tags.value.Ok? then [TimelineEntriesCreate(ConfirmationForm(g, tags.value.value))] else [];
    assert PostForm(g, api) == [TagsList(100)] + post;
    ListThenPost(TagsList(100), post);
  }

  /** One read followed by at most one post: the only effect is the post. */
  lemma ListThenPost(read: Call, post: seq<Call>)
    requires read.TagsList?
    requires |post| <= 1 && forall k :: 0 <= k < |post| ==> post[k].TimelineEntriesCreate?
    ensures var t := [read] + post;
            && Deletes(t) == [] && EntriesRemoved(t) == [] && StoreWrites(t) == [] && Scheduled(t) == []
            && (forall k :: 0 <= k < |t| ==> !t[k].GroupMembersList?)
            && Created(t) == (if post == [] then [] else [post[0].entry])
  {
    EffectsAppend([read], post);
    CallEffects(read);
    if post != [] {
      assert post == [post[0]];
      CallEffects(post[0]);
    }
  }

  /** With an entry to remove, its removal is the first request, and the access check (when
      a group is configured) comes right after it; when the removal rejects, nothing else
      happens. */
  lemma RemovalPrecedesAccessCheck(e: Event, api: Api)
    requires Truthy(GlobalsOf(e).timelineId)
    ensures var g := GlobalsOf(e);
            var t := IssueWarning(e, api);
            && t[0] == TimelineEntriesDelete(g.timelineId.value)
            && (!api.deleteEntry(g.timelineId.value) ==> t == [TimelineEntriesDelete(g.timelineId.value)])
            && (api.deleteEntry(g.timelineId.value) && Truthy(g.groupId) ==>
                  |t| > 1 && t[1] == GroupMembersList(g.groupId.value))
  {
  }

  /** A user outside the access group gets exactly the private refusal (five minutes, to that
      user) and no form; nothing else is posted. */
  lemma UnauthorizedGetsNoForm(e: Event, api: Api)
    requires var g := GlobalsOf(e);
             Truthy(g.timelineId) && api.deleteEntry(g.timelineId.value) && !HasAccess(g.userId, api, g.groupId).value
    ensures var g := GlobalsOf(e);
            var t := IssueWarning(e, api);
            && Created(t) == [NotAuthorizedEntry(g)]
            && EntriesRemoved(t) == [g.timelineId.value]
            && StoreWrites(t) == [] && Scheduled(t) == [] && Deletes(t) == []
  {
    var g := GlobalsOf(e);
    var remove := [TimelineEntriesDelete(g.timelineId.value)];
    var access := HasAccess(g.userId, api, g.groupId);
    var post := [TimelineEntriesCreate(NotAuthorizedEntry(g))];
    assert IssueWarning(e, api) == remove + access.calls + post;
    EffectsAppend(remove + access.calls, post);
    EffectsAppend(remove, access.calls);
    ReadsOnlyNoEffects(access.calls);
    CallEffects(remove[0]);
    CallEffects(post[0]);
  }

  /** A user inside the group (or any user when no group is configured) gets the form after
      the removal, unless the tag listing rejects. */
  lemma AuthorizedGetsForm(e: Event, api: Api)
    requires var g := GlobalsOf(e);
             Truthy(g.timelineId) && api.deleteEntry(g.timelineId.value) && HasAccess(g.userId, api, g.groupId).value
    ensures var g := GlobalsOf(e);
            var t := IssueWarning(e, api);
            var tags := FilteredTagNames(g.tags, api);
            && Created(t) == (if tags.value.Ok? then [ConfirmationForm(g, tags.value.value)] else [])
            && EntriesRemoved(t) == [g.timelineId.value]
            && StoreWrites(t) == [] && Scheduled(t) == [] && Deletes(t) == []
  {
    var g := GlobalsOf(e);
    var remove := [TimelineEntriesDelete(g.timelineId.value)];
    var access := HasAccess(g.userId, api, g.groupId);
    var rest := access.calls + PostForm(g, api);
    assert IssueWarning(e, api) == remove + rest;
    EffectsAppend(remove, rest);
    CallEffects(remove[0]);
    ReadsThen(access.calls, PostForm(g, api));
    PostFormEffects(g, api);
  }

  /** Without an entry to remove, no access check is made and the form is posted. */
  lemma NoEntryNoAccessCheck(e: Event, api: Api)
    requires !Truthy(GlobalsOf(e).timelineId)
    ensures var t := IssueWarning(e, api);
            var tags := FilteredTagNames(e.tags, api);
            && (forall k :: 0 <= k < |t| ==> !t[k].GroupMembersList?)
            && EntriesRemoved(t) == []
            && Created(t) == (if tags.value.Ok? then [ConfirmationForm(GlobalsOf(e), tags.value.value)] else [])
  {
    PostFormEffects(GlobalsOf(e), api);
  }

  /** Whatever happens, `issueWarning` deletes no object, writes nothing and schedules
      nothing, and posts at most one entry. */
  lemma IssueWarningEffects(e: Event, api: Api)
    ensures var t := IssueWarning(e, api);
            Deletes(t) == [] && StoreWrites(t) == [] && Scheduled(t) == [] && |Created(t)| <= 1
  {
    var g := GlobalsOf(e);
    if !Truthy(g.timelineId) {
      PostFormEffects(g, api);
    } else if !api.deleteEntry(g.timelineId.value) {
      CallEffects(TimelineEntriesDelete(g.timelineId.value));
    } else if !HasAccess(g.userId, api, g.groupId).value {
      UnauthorizedGetsNoForm(e, api);
    } else {
      AuthorizedGetsForm(e, api);
    }
  }

  /** The refusal is private to the acting user and expires after five minutes. */
  lemma RefusalIsPrivate(g: Globals)
    ensures NotAuthorizedEntry(g).visibility == Private(g.userId)
    ensures NotAuthorizedEntry(g).expiresInMs == Some(300000)
    ensures NotAuthorizedEntry(g).objectId == g.snapInId
  {
  }

  /** The form offers exactly two values, Yes then No, and answers to `bulk_delete_all`. */
  lemma FormOffersYesNo(g: Globals, tagNames: seq<string>)
    ensures ConfirmationForm(g, tagNames).body.options == ["Yes", "No"]
    ensures ConfirmationForm(g, tagNames).body.action == "bulk_delete_all"
    ensures ConfirmationForm(g, tagNames).visibility == Internal
  {
  }

  /** The title names the stored object type right after its fixed opening. */
  lemma TitleNamesObjectType(objectType: Option<string>, tagNames: seq<string>)
    ensures var t := ConfirmationTitle(objectType, tagNames);
            var n := |TitlePrefix|;
            |t| >= n + |Show(objectType)| && t[..n] == TitlePrefix && t[n..n + |Show(objectType)|] == Show(objectType)
  {
    PiecesOfConcat(TitlePrefix, Show(objectType), TitleMiddle + Join(tagNames, ", ") + ":");
  }

  /** The first two parts of `a + (b + c)` are found at their offsets. */
  lemma PiecesOfConcat(a: string, b: string, c: string)
    ensures var t := a + (b + c);
            |t| >= |a| + |b| && t[..|a|] == a && t[|a|..|a| + |b|] == b
  {
    var t := a + (b + c);
    assert t[..|a|] == a;
    assert t[|a|..|a| + |b|] == (b + c)[..|b|];
  }

  /** `piece` occurs in `s` starting at position `i`. */
  predicate OccursAt(s: string, piece: string, i: int) {
    0 <= i <= |s| - |piece| && s[i..i + |piece|] == piece
  }

  /** A piece of `b` is a piece of `a + b`, shifted by `|a|`. */
  lemma OccursAfter(a: string, b: string, piece: string, i: int)
    requires OccursAt(b, piece, i)
    ensures OccursAt(a + b, piece, |a| + i)
  {
    assert (a + b)[|a| + i..|a| + i + |piece|] == b[i..i + |piece|];
  }

  /** A piece of `a` is a piece of `a + b`, at the same position. */
  lemma OccursBefore(a: string, b: string, piece: string, i: int)
    requires OccursAt(a, piece, i)
    ensures OccursAt(a + b, piece, i)
  {
    assert (a + b)[i..i + |piece|] == a[i..i + |piece|];
  }

  /** Every tag name occurs in the joined list, as a contiguous piece. */
  lemma {:induction false} JoinContains(names: seq<string>, sep: string, name: string)
    requires name in names
    ensures exists i :: OccursAt(Join(names, sep), name, i)
  {
    if |names| == 1 {
      assert OccursAt(Join(names, sep), name, 0);
    } else if names[0] == name {
      var j := Join(names, sep);
      assert j == name + (sep + Join(names[1..], sep));
      assert j[0..|name|] == name;
      assert OccursAt(j, name, 0);
    } else {
      assert name in names[1..];
      JoinContains(names[1..], sep, name);
      var rest := Join(names[1..], sep);
      var i :| OccursAt(rest, name, i);
      var head := names[0] + sep;
      assert Join(names, sep) == head + rest;
      OccursAfter(head, rest, name, i);
    }
  }

  /** The title names every configured tag whose name was listed. */
  lemma TitleNamesEveryTag(objectType: Option<string>, tagNames: seq<string>, name: string)
    requires name in tagNames
    ensures exists i :: OccursAt(ConfirmationTitle(objectType, tagNames), name, i)
  {
    JoinContains(tagNames, ", ", name);
    var j := Join(tagNames, ", ");
    var i :| OccursAt(j, name, i);
    OccursAfter(TitleMiddle, j, name, i);
    var rest := TitleMiddle + j;
    OccursBefore(rest, ":", name, |TitleMiddle| + i);
    OccursAfter(Show(objectType), rest + ":", name, |TitleMiddle| + i);
    OccursAfter(TitlePrefix, Show(objectType) + (rest + ":"), name, |Show(objectType)| + |TitleMiddle| + i);
    assert ConfirmationTitle(objectType, tagNames) == TitlePrefix + (Show(objectType) + (rest + ":"));
    assert OccursAt(ConfirmationTitle(objectType, tagNames), name,
                    |TitlePrefix| + (|Show(objectType)| + |TitleMiddle| + i));
  }
}
