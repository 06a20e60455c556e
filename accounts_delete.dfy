/** The account driver (`delete_accounts`). An invocation first re-lists the pages whose
    accounts earlier invocations could not delete (its `failed_count` says how many), keeps
    at most one page of accounts, vets each one (an account is deletable only when its first
    rev org has no ticket), deletes the deletable ones, writes the new failure count and
    then resumes or posts a summary. */
module AccountsDelete {
  import opened Platform
  import opened DevUtils

  /** `globals.failed_count || 0`. */
  function StartingFailedCount(g: Globals): int {
    if g.failedCount.Some? then g.failedCount.value else 0
  }

  /** A page request: with the cursor when it is truthy, else without one. */
  function AccountsQuery(g: Globals, cursor: Option<string>): ListQuery {
    ListQuery(if Truthy(cursor) then cursor else None, g.limit, g.tags)
  }

  // ---------------------------------------------------------------------------------------
  // Collecting the accounts of this invocation.

  /** Where the skipping loop leaves the count and the cursor. */
  datatype Skipped = Skipped(remaining: int, cursor: Option<string>)

  /** The skipping loop: one page request per whole hundred of the count, keeping only the
      cursor of each answer. */
  function SkipPages(g: Globals, api: Api, failedCount: int, cursor: Option<string>): Traced<Outcome<Skipped>>
    decreases failedCount
  {
    if failedCount < 100 then Traced(Ok(Skipped(failedCount, cursor)), [])
    else
      var query := AccountsQuery(g, cursor);
      match api.accountsList(query)
      case Thrown => Traced(Thrown, [AccountsList(query)])
      case Ok(page) =>
        var rest := SkipPages(g, api, failedCount - 100, page.nextCursor);
        Traced(rest.value, [AccountsList(query)] + rest.calls)
  }

  /** What the remainder request leaves: the accounts kept so far, the cursor and the length
      of the page it read (100 when it did not run). */
  datatype Fetched = Fetched(accounts: seq<Option<string>>, cursor: Option<string>, accountCount: int)

  /** The accounts of `items` from position `lo` (inclusive) to `hi` (exclusive). */
  function Segment(items: seq<string>, lo: nat, hi: nat): (r: seq<Option<string>>)
    requires lo <= hi && (hi <= |items| || hi == lo)
    ensures |r| == hi - lo
  {
    seq(hi - lo, k requires 0 <= k < hi - lo => Some(items[lo + k]))
  }

  /** The remainder request: when part of a hundred is left, one more page whose accounts
      past that part are kept. A page without a list rejects (its `length` is read). */
  function FetchRemainder(g: Globals, api: Api, s: Skipped): Traced<Outcome<Fetched>> {
    if s.remaining <= 0 then Traced(Ok(Fetched([], s.cursor, 100)), [])
    else
      var query := AccountsQuery(g, s.cursor);
      match api.accountsList(query)
      case Thrown => Traced(Thrown, [AccountsList(query)])
      case Ok(page) =>
        if page.items.None? then Traced(Thrown, [AccountsList(query)])
        else
          var items := page.items.value;
          var kept := if s.remaining < |items| then Segment(items, s.remaining, |items|) else [];
          Traced(Ok(Fetched(kept, page.nextCursor, |items|)), [AccountsList(query)])
  }

  /** `responseData.accounts[k]`: past the end of the page, `undefined`. */
  function Slot(items: seq<string>, k: nat): Option<string> {
    if k < |items| then Some(items[k]) else None
  }

  /** The first `n` slots of a page. */
  function Pad(items: seq<string>, n: nat): (r: seq<Option<string>>)
    ensures |r| == n
    ensures forall k :: 0 <= k < n && k < |items| ==> r[k] == Some(items[k])
    ensures forall k :: 0 <= k < n ==> (r[k].None? <==> k >= |items|)
  {
    seq(n, k requires 0 <= k < n => Slot(items, k))
  }

  /** The top-up request: when the remainder read a full page (or did not run), one more page
      from which slots are appended until `limit` accounts are held, whether or not the page
      has that many. A page without a list rejects when a slot is read from it. */
  function TopUp(g: Globals, api: Api, f: Fetched): Traced<Outcome<seq<Option<string>>>> {
    if f.accountCount != 100 then Traced(Ok(f.accounts), [])
    else
      var query := AccountsQuery(g, f.cursor);
      var limiter := g.limit - |f.accounts|;
      match api.accountsList(query)
      case Thrown => Traced(Thrown, [AccountsList(query)])
      case Ok(page) =>
        if limiter <= 0 then Traced(Ok(f.accounts), [AccountsList(query)])
        else if page.items.None? then Traced(Thrown, [AccountsList(query)])
        else Traced(Ok(f.accounts + Pad(page.items.value, limiter)), [AccountsList(query)])
  }

  /** The three stages of collection, stopping at the first that rejects. */
  function Collect(g: Globals, api: Api): Traced<Outcome<seq<Option<string>>>> {
    var skip := SkipPages(g, api, StartingFailedCount(g), None);
    match skip.value
    case Thrown => Traced(Thrown, skip.calls)
    case Ok(s) =>
      var rem := FetchRemainder(g, api, s);
      match rem.value
      case Thrown => Traced(Thrown, skip.calls + rem.calls)
      case Ok(f) =>
        var top := TopUp(g, api, f);
        Traced(top.value, skip.calls + rem.calls + top.calls)
  }

  // ---------------------------------------------------------------------------------------
  // Vetting, deleting and concluding.

  /** How the vetting promise of one slot settles: fulfilled as deletable (carrying the
      account), fulfilled as not deletable, or rejected. */
  datatype Verdict = Eligible(id: string) | Ineligible | Rejected

  /** The vetting of one slot. An `undefined` slot throws on `account.id` in the try block and
      again in the catch block, so its promise rejects without a request. Otherwise the rev
      orgs of the account are listed and only the first one is checked for a linked ticket. */
  function Vet(api: Api, slot: Option<string>): Traced<Verdict> {
    match slot
    case None => Traced(Rejected, [])
    case Some(id) =>
      match api.revOrgsList(id)
      case Thrown => Traced(Ineligible, [RevOrgsList(id)])
      case Ok(orgs) =>
        if orgs == [] then Traced(Ineligible, [RevOrgsList(id)])
        else
          var calls := [RevOrgsList(id), LinkedTicketsList(orgs[0])];
          if api.linkedTickets(orgs[0]) == Ok([]) then Traced(Eligible(id), calls) else Traced(Ineligible, calls)
  }

  /** The settled vetting promises, in slot order. */
  function Verdicts(api: Api, slots: seq<Option<string>>): (r: seq<Verdict>)
    ensures |r| == |slots|
  {
    seq(|slots|, k requires 0 <= k < |slots| => Vet(api, slots[k]).value)
  }

  /** The vetting requests of all slots, serialised in slot order. */
  function VetCalls(api: Api, slots: seq<Option<string>>): seq<Call> {
    if slots == [] then []
    else VetCalls(api, slots[..|slots| - 1]) + Vet(api, slots[|slots| - 1]).calls
  }

  /** The accounts of the fulfilled, deletable results, in order. */
  function EligibleIds(vs: seq<Verdict>): (r: seq<string>)
    ensures |r| <= |vs|
  {
    if vs == [] then []
    else EligibleIds(vs[..|vs| - 1]) + (if vs[|vs| - 1].Eligible? then [vs[|vs| - 1].id] else [])
  }

  /** The number of fulfilled, not deletable results. */
  function IneligibleCount(vs: seq<Verdict>): (n: nat)
    ensures n <= |vs|
  {
    if vs == [] then 0
    else IneligibleCount(vs[..|vs| - 1]) + (if vs[|vs| - 1].Ineligible? then 1 else 0)
  }

  /** The failure count the invocation writes: the starting count, plus the accounts found
      not deletable, plus the deletes that reject. */
  function TotalFailed(api: Api, start: int, slots: seq<Option<string>>): int {
    var vs := Verdicts(api, slots);
    start + IneligibleCount(vs) + CountFailed(api, Accounts, EligibleIds(vs))
  }

  /** The resume event: the total count, twenty seconds ahead. */
  function AccountsResume(g: Globals, total: int): EventBody {
    EventBody(g.eventType, g.sourceId, total, 20000)
  }

  /** The internal summary comment, worded as a success iff the total count is zero. */
  function AccountsSummary(g: Globals, total: int): Entry {
    Entry(g.snapInId,
          Text(if total == 0 then "All accounts deleted successfully."
               else "Failed to delete some accounts (Note: Accounts linked with a ticket cannot be deleted)."),
          Internal, None)
  }

  /** The store write, then a resume when it answered truthy and at least 100 slots were
      held, else the summary; nothing when the write rejects. */
  function Conclude(g: Globals, api: Api, slots: seq<Option<string>>, total: int): seq<Call> {
    var update := UpdateSnapIn(api, g.snapInId, ObjectTypeKey(g), Some(total), "None");
    update.calls +
    match update.value
    case Thrown => []
    case Ok(truthy) =>
      if truthy && |slots| >= 100 then ScheduleFollowUp(api, AccountsResume(g, total)).calls
      else [TimelineEntriesCreate(AccountsSummary(g, total))]
  }

  /** Everything after collection. */
  function Process(g: Globals, api: Api, start: int, slots: seq<Option<string>>): seq<Call> {
    VetCalls(api, slots) + DeleteEach(Accounts, EligibleIds(Verdicts(api, slots)))
    + Conclude(g, api, slots, TotalFailed(api, start, slots))
  }

  /** The requests one invocation of the driver issues. */
  function AccountsTrace(g: Globals, api: Api): seq<Call> {
    var c := Collect(g, api);
    c.calls + (if c.value.Ok? then Process(g, api, StartingFailedCount(g), c.value.value) else [])
  }

  // ---------------------------------------------------------------------------------------
  // The driver, loop by loop.

  /** The skipping loop. */
  method SkipProcessed(g: Globals, api: Api) returns (calls: seq<Call>, skipped: Outcome<Skipped>)
    ensures Traced(skipped, calls) == SkipPages(g, api, StartingFailedCount(g), None)
  {
    var failedCount := StartingFailedCount(g);
    var cursor: Option<string> := None;
    calls := [];
    while failedCount >= 100
      invariant calls + SkipPages(g, api, failedCount, cursor).calls == SkipPages(g, api, StartingFailedCount(g), None).calls
      invariant SkipPages(g, api, failedCount, cursor).value == SkipPages(g, api, StartingFailedCount(g), None).value
      decreases failedCount
    {
      var query := AccountsQuery(g, cursor);
      var response := api.accountsList(query);
      if response.Thrown? {
        return calls + [AccountsList(query)], Thrown;
      }
      assert calls + SkipPages(g, api, failedCount, cursor).calls ==
             (calls + [AccountsList(query)]) + SkipPages(g, api, failedCount - 100, response.value.nextCursor).calls;
      calls := calls + [AccountsList(query)];
      cursor := response.value.nextCursor;
      failedCount := failedCount - 100;
    }
    assert calls + [] == calls;
    skipped := Ok(Skipped(failedCount, cursor));
  }

  /** The remainder request and the loop that keeps the accounts past the count. */
  method FetchRemainderPage(g: Globals, api: Api, s: Skipped) returns (calls: seq<Call>, fetched: Outcome<Fetched>)
    ensures Traced(fetched, calls) == FetchRemainder(g, api, s)
  {
    var failedCount := s.remaining;
    var allAccounts: seq<Option<string>> := [];
    if failedCount <= 0 {
      return [], Ok(Fetched([], s.cursor, 100));
    }
    var query := AccountsQuery(g, s.cursor);
    calls := [AccountsList(query)];
    var response := api.accountsList(query);
    if response.Thrown? || response.value.items.None? {
      return calls, Thrown;
    }
    var items := response.value.items.value;
    var i: nat := failedCount;
    while i < |items|
      invariant failedCount <= i && (i <= |items| || i == failedCount)
      invariant allAccounts == Segment(items, failedCount, i)
    {
      assert Segment(items, failedCount, i + 1) == Segment(items, failedCount, i) + [Some(items[i])];
      allAccounts := allAccounts + [Some(items[i])];
      i := i + 1;
    }
    fetched := Ok(Fetched(allAccounts, response.value.nextCursor, |items|));
  }

  /** The top-up request and the loop that fills the held accounts up to `limit`. */
  method TopUpPage(g: Globals, api: Api, f: Fetched) returns (calls: seq<Call>, slots: Outcome<seq<Option<string>>>)
    ensures Traced(slots, calls) == TopUp(g, api, f)
  {
    var allAccounts := f.accounts;
    if f.accountCount != 100 {
      return [], Ok(allAccounts);
    }
    var query := AccountsQuery(g, f.cursor);
    calls := [AccountsList(query)];
    var response := api.accountsList(query);
    if response.Thrown? {
      return calls, Thrown;
    }
    var limiter := g.limit - |allAccounts|;
    if limiter > 0 && response.value.items.None? {
      return calls, Thrown;
    }
    var i := 0;
    while i < limiter
      invariant 0 <= i && (i <= limiter || i == 0)
      invariant |allAccounts| == |f.accounts| + i
      invariant allAccounts[..|f.accounts|] == f.accounts
      invariant forall k :: 0 <= k < i ==> allAccounts[|f.accounts| + k] == Slot(response.value.items.value, k)
    {
      allAccounts := allAccounts + [Slot(response.value.items.value, i)];
      i := i + 1;
    }
    if limiter > 0 {
      assert allAccounts == f.accounts + Pad(response.value.items.value, limiter);
    } else {
      assert allAccounts == f.accounts;
    }
    slots := Ok(allAccounts);
  }

  /** The three collection stages. */
  method CollectAccounts(g: Globals, api: Api) returns (calls: seq<Call>, slots: Outcome<seq<Option<string>>>)
    ensures Traced(slots, calls) == Collect(g, api)
  {
    var skipCalls, skipped := SkipProcessed(g, api);
    if skipped.Thrown? {
      return skipCalls, Thrown;
    }
    var remCalls, fetched := FetchRemainderPage(g, api, skipped.value);
    if fetched.Thrown? {
      return skipCalls + remCalls, Thrown;
    }
    var topCalls, topped := TopUpPage(g, api, fetched.value);
    calls := skipCalls + remCalls + topCalls;
    slots := topped;
  }

  /** The vetting promises, settled in slot order. */
  method VetAll(api: Api, slots: seq<Option<string>>) returns (calls: seq<Call>, verdicts: seq<Verdict>)
    ensures calls == VetCalls(api, slots) && verdicts == Verdicts(api, slots)
  {
    calls := [];
    verdicts := [];
    var i := 0;
    while i < |slots|
      invariant 0 <= i <= |slots|
      invariant calls == VetCalls(api, slots[..i])
      invariant |verdicts| == i && forall k :: 0 <= k < i ==> verdicts[k] == Vet(api, slots[k]).value
    {
      assert slots[..i + 1][..i] == slots[..i];
      var settled := Vet(api, slots[i]);
      calls := calls + settled.calls;
      verdicts := verdicts + [settled.value];
      i := i + 1;
    }
    assert slots[..i] == slots;
  }

  /** The loop that separates the results: deletable accounts are kept, the others add one to
      the total, rejected promises are only logged. */
  method Separate(verdicts: seq<Verdict>, total0: int) returns (accountsToDelete: seq<string>, total: int)
    ensures accountsToDelete == EligibleIds(verdicts)
    ensures total == total0 + IneligibleCount(verdicts)
  {
    accountsToDelete := [];
    total := total0;
    var i := 0;
    while i < |verdicts|
      invariant 0 <= i <= |verdicts|
      invariant accountsToDelete == EligibleIds(verdicts[..i])
      invariant total == total0 + IneligibleCount(verdicts[..i])
    {
      assert verdicts[..i + 1][..i] == verdicts[..i];
      match verdicts[i] {
        case Eligible(id) => accountsToDelete := accountsToDelete + [id];
        case Ineligible => total := total + 1;
        case Rejected =>
      }
      i := i + 1;
    }
    assert verdicts[..i] == verdicts;
  }

  /** The deletes of the deletable accounts; each rejection adds one to the total. */
  method DeleteEligible(api: Api, accountsToDelete: seq<string>, total0: int) returns (calls: seq<Call>, total: int)
    ensures calls == DeleteEach(Accounts, accountsToDelete)
    ensures total == total0 + CountFailed(api, Accounts, accountsToDelete)
  {
    calls := [];
    total := total0;
    var i := 0;
    while i < |accountsToDelete|
      invariant 0 <= i <= |accountsToDelete|
      invariant calls == DeleteEach(Accounts, accountsToDelete[..i])
      invariant total == total0 + CountFailed(api, Accounts, accountsToDelete[..i])
    {
      assert accountsToDelete[..i + 1] == accountsToDelete[..i] + [accountsToDelete[i]];
      DeleteEachSnoc(Accounts, accountsToDelete[..i], accountsToDelete[i]);
      CountFailedSnoc(api, Accounts, accountsToDelete[..i], accountsToDelete[i]);
      calls := calls + [Delete(Accounts, accountsToDelete[i])];
      if !api.deletes(Accounts, accountsToDelete[i]) {
        total := total + 1;
      }
      i := i + 1;
    }
    assert accountsToDelete[..i] == accountsToDelete;
  }

  /** `delete_accounts`. */
  method DeleteAccounts(g: Globals, api: Api) returns (calls: seq<Call>)
    ensures calls == AccountsTrace(g, api)
  {
    var start := StartingFailedCount(g);
    var totalFailedCount := start;
    var objectType := ObjectTypeKey(g);

    var collected;
    calls, collected := CollectAccounts(g, api);
    if collected.Thrown? {
      assert calls + [] == calls;
      return;
    }
    var allAccounts := collected.value;

    var vetCalls, verdicts := VetAll(api, allAccounts);
    var accountsToDelete;
    accountsToDelete, totalFailedCount := Separate(verdicts, totalFailedCount);
    var deleteCalls;
    deleteCalls, totalFailedCount := DeleteEligible(api, accountsToDelete, totalFailedCount);
    assert totalFailedCount == TotalFailed(api, start, allAccounts);

    var body := AccountsResume(g, totalFailedCount);
    var update := UpdateSnapIn(api, g.snapInId, objectType, Some(totalFailedCount), "None");
    var tail := update.calls;
    if update.value.Ok? {
      if update.value.value && |allAccounts| >= 100 {
        var scheduled := ScheduleFollowUp(api, body);
        tail := tail + scheduled.calls;
      } else {
        tail := tail + [TimelineEntriesCreate(AccountsSummary(g, totalFailedCount))];
      }
    }
    assert tail == Conclude(g, api, allAccounts, totalFailedCount);
    calls := calls + (vetCalls + deleteCalls + tail);
  }

  // ---------------------------------------------------------------------------------------
  // Properties of collection.

  /** The skipping loop only reads; from a count of at least zero it issues one request per
      whole hundred and leaves the rest of the hundred; it stops at the first rejection. */
  lemma {:induction false} SkipPagesCounts(g: Globals, api: Api, f: int, cursor: Option<string>)
    ensures ReadsOnly(SkipPages(g, api, f, cursor).calls)
    ensures f < 100 ==> SkipPages(g, api, f, cursor) == Traced(Ok(Skipped(f, cursor)), [])
    ensures f >= 0 && SkipPages(g, api, f, cursor).value.Ok? ==>
              |SkipPages(g, api, f, cursor).calls| == f / 100
              && SkipPages(g, api, f, cursor).value.value.remaining == f % 100
    ensures SkipPages(g, api, f, cursor).value.Thrown? ==>
              var calls := SkipPages(g, api, f, cursor).calls;
              calls != [] && calls[|calls| - 1].AccountsList? && api.accountsList(calls[|calls| - 1].query).Thrown?
    decreases f
  {
    if f >= 100 {
      var query := AccountsQuery(g, cursor);
      var head := [AccountsList(query)];
      if api.accountsList(query).Ok? {
        var next := api.accountsList(query).value.nextCursor;
        SkipPagesCounts(g, api, f - 100, next);
        var rest := SkipPages(g, api, f - 100, next);
        assert SkipPages(g, api, f, cursor) == Traced(rest.value, head + rest.calls);
        ReadsOnlyAppend(head, rest.calls);
        assert (f - 100) / 100 == f / 100 - 1 && (f - 100) % 100 == f % 100;
        if rest.calls != [] {
          assert (head + rest.calls)[|head + rest.calls| - 1] == rest.calls[|rest.calls| - 1];
        }
      }
    }
  }

  /** The remainder request runs iff part of a hundred is left; when it succeeds it keeps
      exactly the accounts of its page past that part, in page order, and records the page
      length. It fails iff its page rejects or has no list. */
  lemma FetchRemainderKeeps(g: Globals, api: Api, s: Skipped)
    ensures s.remaining <= 0 ==> FetchRemainder(g, api, s) == Traced(Ok(Fetched([], s.cursor, 100)), [])
    ensures s.remaining > 0 ==> FetchRemainder(g, api, s).calls == [AccountsList(AccountsQuery(g, s.cursor))]
    ensures s.remaining > 0 ==>
              var r := api.accountsList(AccountsQuery(g, s.cursor));
              (FetchRemainder(g, api, s).value.Ok? <==> r.Ok? && r.value.items.Some?)
    ensures s.remaining > 0 && FetchRemainder(g, api, s).value.Ok? ==>
              var items := api.accountsList(AccountsQuery(g, s.cursor)).value.items.value;
              var f := FetchRemainder(g, api, s).value.value;
              && f.accountCount == |items|
              && |f.accounts| == (if s.remaining < |items| then |items| - s.remaining else 0)
              && (forall k :: 0 <= k < |f.accounts| ==> f.accounts[k] == Some(items[s.remaining + k]))
  {
  }

  /** The top-up runs iff the remainder read a full page or did not run. When it succeeds the
      held accounts are kept in front and slots of the new page follow, up to `limit` in
      all; past the end of the page the slots are `undefined`. */
  lemma TopUpPads(g: Globals, api: Api, f: Fetched)
    ensures f.accountCount != 100 ==> TopUp(g, api, f) == Traced(Ok(f.accounts), [])
    ensures f.accountCount == 100 ==> TopUp(g, api, f).calls == [AccountsList(AccountsQuery(g, f.cursor))]
    ensures f.accountCount == 100 && TopUp(g, api, f).value.Ok? ==>
              var slots := TopUp(g, api, f).value.value;
              var page := api.accountsList(AccountsQuery(g, f.cursor)).value;
              && |slots| == (if |f.accounts| < g.limit then g.limit else |f.accounts|)
              && slots[..|f.accounts|] == f.accounts
              && (|f.accounts| < g.limit ==>
                    page.items.Some?
                    && forall k :: |f.accounts| <= k < g.limit ==> slots[k] == Slot(page.items.value, k - |f.accounts|))
  {
  }

  /** Collection only reads. */
  lemma CollectReadsOnly(g: Globals, api: Api)
    ensures ReadsOnly(Collect(g, api).calls)
  {
    var skip := SkipPages(g, api, StartingFailedCount(g), None);
    SkipPagesCounts(g, api, StartingFailedCount(g), None);
    if skip.value.Ok? {
      var rem := FetchRemainder(g, api, skip.value.value);
      assert ReadsOnly(rem.calls);
      ReadsOnlyAppend(skip.calls, rem.calls);
      if rem.value.Ok? {
        var top := TopUp(g, api, rem.value.value);
        assert ReadsOnly(top.calls);
        ReadsOnlyAppend(skip.calls + rem.calls, top.calls);
      }
    }
  }

  // ---------------------------------------------------------------------------------------
  // Properties of vetting.

  /** The vetting of one slot only reads, at most twice. An `undefined` slot, and only such a
      slot, rejects, without a request. A defined one is deletable iff its rev orgs are
      listed, there is at least one, and the first one has no linked ticket. */
  lemma VetRule(api: Api, slot: Option<string>)
    ensures ReadsOnly(Vet(api, slot).calls) && |Vet(api, slot).calls| <= 2
    ensures Vet(api, slot).value.Rejected? <==> slot.None?
    ensures slot.None? ==> Vet(api, slot).calls == []
    ensures slot.Some? ==>
              var orgs := api.revOrgsList(slot.value);
              (Vet(api, slot).value.Eligible? <==>
                 orgs.Ok? && orgs.value != [] && api.linkedTickets(orgs.value[0]) == Ok([]))
    ensures Vet(api, slot).value.Eligible? ==> slot == Some(Vet(api, slot).value.id)
  {
  }

  /** Only the first rev org is consulted: with two rev orgs, the account is deletable when
      the first has no ticket even though the second has one, and is not deletable in the
      opposite case; the second rev org is never looked up. */
  lemma FirstRevOrgDecides(api: Api, id: string, first: string, second: string, ticket: string)
    requires api.revOrgsList(id) == Ok([first, second])
    ensures api.linkedTickets(first) == Ok([]) && api.linkedTickets(second) == Ok([ticket]) ==>
              Vet(api, Some(id)).value == Eligible(id)
    ensures api.linkedTickets(first) == Ok([ticket]) && api.linkedTickets(second) == Ok([]) ==>
              Vet(api, Some(id)).value == Ineligible
    ensures Vet(api, Some(id)).calls == [RevOrgsList(id), LinkedTicketsList(first)]
  {
  }

  lemma {:induction false} VetCallsReadsOnly(api: Api, slots: seq<Option<string>>)
    ensures ReadsOnly(VetCalls(api, slots))
  {
    if slots != [] {
      VetCallsReadsOnly(api, slots[..|slots| - 1]);
      VetRule(api, slots[|slots| - 1]);
      ReadsOnlyAppend(VetCalls(api, slots[..|slots| - 1]), Vet(api, slots[|slots| - 1]).calls);
    }
  }

  /** An account is kept for deletion iff its vetting fulfilled as deletable. */
  lemma {:induction false} EligibleIdsMembers(vs: seq<Verdict>, id: string)
    ensures id in EligibleIds(vs) <==> Eligible(id) in vs
  {
    if vs != [] {
      var init := vs[..|vs| - 1];
      assert vs == init + [vs[|vs| - 1]];
      EligibleIdsMembers(init, id);
    }
  }

  /** Every fulfilled result is either kept for deletion or counted as a failure; only the
      rejected ones (the `undefined` slots) are in neither. */
  lemma {:induction false} VerdictsPartition(vs: seq<Verdict>)
    ensures |EligibleIds(vs)| + IneligibleCount(vs) + multiset(vs)[Rejected] == |vs|
  {
    if vs != [] {
      var init := vs[..|vs| - 1];
      assert vs == init + [vs[|vs| - 1]];
      assert multiset(vs) == multiset(init) + multiset{vs[|vs| - 1]};
      VerdictsPartition(init);
    }
  }

  /** The accounts deleted are held slots whose vetting found them deletable. */
  lemma DeletedAccountsWereVetted(api: Api, slots: seq<Option<string>>, id: string)
    requires id in EligibleIds(Verdicts(api, slots))
    ensures exists k :: 0 <= k < |slots| && slots[k] == Some(id) && Vet(api, slots[k]).value == Eligible(id)
  {
    var vs := Verdicts(api, slots);
    EligibleIdsMembers(vs, id);
    var k :| 0 <= k < |vs| && vs[k] == Eligible(id);
    VetRule(api, slots[k]);
  }

  /** The written count never drops below the starting one and grows by at most one per held
      slot; the `undefined` slots add nothing. */
  lemma TotalFailedBounds(api: Api, start: int, slots: seq<Option<string>>)
    ensures var vs := Verdicts(api, slots);
            start <= TotalFailed(api, start, slots) <= start + |slots| - multiset(vs)[Rejected]
  {
    VerdictsPartition(Verdicts(api, slots));
  }

  // ---------------------------------------------------------------------------------------
  // Properties of one invocation.

  /** The conclusion alone: one store write with the total count and an undefined object
      type; then a resume iff the write answered truthy and at least 100 slots were held,
      else the summary, unless the write rejected. */
  lemma ConcludeEffects(g: Globals, api: Api, slots: seq<Option<string>>, total: int)
    ensures var body := UpdateBody(g.snapInId, total, None, "None");
            var t := Conclude(g, api, slots, total);
            && StoreWrites(t) == [body] && Deletes(t) == []
            && Scheduled(t) == (if api.updateSnapIn(body) == Ok(true) && |slots| >= 100 then [AccountsResume(g, total)] else [])
            && Created(t) == (if api.updateSnapIn(body).Ok? && !(api.updateSnapIn(body).value && |slots| >= 100)
                              then [AccountsSummary(g, total)] else [])
            && |Scheduled(t)| + |Created(t)| <= 1
  {
    var body := UpdateBody(g.snapInId, total, None, "None");
    var answer := api.updateSnapIn(body);
    var long := |slots| >= 100;
    assert Conclude(g, api, slots, total) ==
      [SnapInsUpdate(body)] + (if answer.Thrown? then []
                               else if answer.value && long then [ScheduleEvent(AccountsResume(g, total))]
                               else [TimelineEntriesCreate(AccountsSummary(g, total))]);
    WriteThenFollowUp(body, answer, long, AccountsResume(g, total), AccountsSummary(g, total));
  }

  /** The trace of an invocation whose collection succeeded, in its four parts. */
  lemma AccountsTraceParts(g: Globals, api: Api)
    requires Collect(g, api).value.Ok?
    ensures var c := Collect(g, api);
            var slots := c.value.value;
            AccountsTrace(g, api) ==
              c.calls + (VetCalls(api, slots) + DeleteEach(Accounts, EligibleIds(Verdicts(api, slots)))
                         + Conclude(g, api, slots, TotalFailed(api, StartingFailedCount(g), slots)))
  {
  }

  /** A failed collection ends the invocation with reads only: nothing is deleted, written,
      scheduled or posted. */
  lemma AccountsCollectFailureIsSilent(g: Globals, api: Api)
    requires Collect(g, api).value.Thrown?
    ensures AccountsTrace(g, api) == Collect(g, api).calls
    ensures Deletes(AccountsTrace(g, api)) == [] && StoreWrites(AccountsTrace(g, api)) == []
    ensures Scheduled(AccountsTrace(g, api)) == [] && Created(AccountsTrace(g, api)) == []
  {
    assert Collect(g, api).calls + [] == Collect(g, api).calls;
    CollectReadsOnly(g, api);
    ReadsOnlyNoEffects(Collect(g, api).calls);
  }

  /** After a successful collection: exactly the deletable accounts are deleted, in vetting
      order; the store is written once with the starting count plus the accounts found not
      deletable plus the rejected deletes, and an undefined object type; then a resume or a
      summary as the conclusion decides. */
  lemma AccountsEffects(g: Globals, api: Api)
    requires Collect(g, api).value.Ok?
    ensures var slots := Collect(g, api).value.value;
            var total := TotalFailed(api, StartingFailedCount(g), slots);
            var body := UpdateBody(g.snapInId, total, None, "None");
            var t := AccountsTrace(g, api);
            && Deletes(t) == EligibleIds(Verdicts(api, slots))
            && StoreWrites(t) == [body]
            && Scheduled(t) == Scheduled(Conclude(g, api, slots, total))
            && Created(t) == Created(Conclude(g, api, slots, total))
            && |Scheduled(t)| + |Created(t)| <= 1
  {
    var c := Collect(g, api);
    var slots := c.value.value;
    var total := TotalFailed(api, StartingFailedCount(g), slots);
    var vet := VetCalls(api, slots);
    var dels := DeleteEach(Accounts, EligibleIds(Verdicts(api, slots)));
    var con := Conclude(g, api, slots, total);
    AccountsTraceParts(g, api);
    EffectsAppend(c.calls, vet + dels + con);
    EffectsAppend(vet + dels, con);
    EffectsAppend(vet, dels);
    CollectReadsOnly(g, api);
    ReadsOnlyNoEffects(c.calls);
    VetCallsReadsOnly(api, slots);
    ReadsOnlyNoEffects(vet);
    DeleteEachEffects(Accounts, EligibleIds(Verdicts(api, slots)));
    ConcludeEffects(g, api, slots, total);
  }

  /** Whatever the platform answers, an invocation writes the store at most once, with an
      undefined object type, and posts at most one of a resume and a summary. */
  lemma AccountsResumeOrSummary(g: Globals, api: Api)
    ensures |StoreWrites(AccountsTrace(g, api))| <= 1
    ensures forall k :: 0 <= k < |StoreWrites(AccountsTrace(g, api))| ==> StoreWrites(AccountsTrace(g, api))[k].objectType.None?
    ensures |Scheduled(AccountsTrace(g, api))| + |Created(AccountsTrace(g, api))| <= 1
  {
    if Collect(g, api).value.Thrown? {
      AccountsCollectFailureIsSilent(g, api);
    } else {
      AccountsEffects(g, api);
    }
  }

  /** A first invocation whose only page holds a single account collects that account padded
      with `undefined` to 100 slots. */
  lemma SingleAccountCollected(g: Globals, api: Api, id: string)
    requires StartingFailedCount(g) == 0 && g.limit == 100
    requires api.accountsList(AccountsQuery(g, None)) == Ok(Page(Some([id]), None))
    ensures Collect(g, api).value == Ok(Pad([id], 100))
    ensures var slots := Collect(g, api).value.value;
            |slots| == 100 && slots[0] == Some(id) && forall k :: 1 <= k < 100 ==> slots[k].None?
  {
    var skip := SkipPages(g, api, 0, None);
    assert skip == Traced(Ok(Skipped(0, None)), []);
    var rem := FetchRemainder(g, api, Skipped(0, None));
    assert rem == Traced(Ok(Fetched([], None, 100)), []);
    var top := TopUp(g, api, Fetched([], None, 100));
    assert [] + Pad([id], 100) == Pad([id], 100);
    assert top.value == Ok(Pad([id], 100));
  }

  /** Such an invocation still holds 100 slots (the top-up pads with `undefined`), so when
      the store write answers truthy it schedules another invocation instead of posting the
      summary. */
  lemma ShortLastPageStillResumes(g: Globals, api: Api, id: string)
    requires StartingFailedCount(g) == 0 && g.limit == 100
    requires api.accountsList(AccountsQuery(g, None)) == Ok(Page(Some([id]), None))
    requires forall b :: api.updateSnapIn(b) == Ok(true)
    ensures Collect(g, api).value.Ok? && |Collect(g, api).value.value| == 100
    ensures Collect(g, api).value.value[0] == Some(id)
    ensures forall k :: 1 <= k < 100 ==> Collect(g, api).value.value[k].None?
    ensures |Scheduled(AccountsTrace(g, api))| == 1 && Created(AccountsTrace(g, api)) == []
  {
    SingleAccountCollected(g, api, id);
    var slots := Collect(g, api).value.value;
    var total := TotalFailed(api, StartingFailedCount(g), slots);
    var body := UpdateBody(g.snapInId, total, None, "None");
    assert api.updateSnapIn(body) == Ok(true);
    AccountsEffects(g, api);
    ConcludeEffects(g, api, slots, total);
  }
}
