/**
 Access requests (backend/src/server.ts): users ask for a permission, administrators review. The
 store is the process's Map, here a list in insertion order; records are never removed.
 */
module AccessRequests {
  import opened Wrappers

  datatype Status = Pending | Approved | Denied

  datatype Request = Request(id: nat, userId: string, permission: string, status: Status, createdAt: int, reviewedAt: Option<int>)

  /** A body field: absent, a string, or some other JSON value. */
  datatype Field = Absent | Text(text: string) | OtherJson

  datatype SubmitAnswer = MissingUser | BadSubmit | AlreadyGranted | Duplicate(existing: Request) | Created(record: Request)

  datatype ReviewAnswer = NotFound | AlreadyReviewed | BadReview | Reviewed(record: Request)

  const ACCESS_PERMISSIONS := {"verify", "publish", "admin"}
  const MAX_TEXT := 1000

  predicate InGroup(r: Request, userId: string, permission: string) { r.userId == userId && r.permission == permission }

  predicate SameGroup(a: Request, b: Request) { InGroup(a, b.userId, b.permission) }

  // --- permissionState ------------------------------------------------------------------------

  function Filter(records: seq<Request>, userId: string, permission: string): seq<Request> {
    if records == [] then []
    else
      var last := records[|records| - 1];
      Filter(records[..|records| - 1], userId, permission) + if InGroup(last, userId, permission) then [last] else []
  }

  /** Stable sort, newest first: a record goes behind those at least as new as itself. */
  function Place(sorted: seq<Request>, r: Request): seq<Request> {
    if sorted == [] then [r]
    else if sorted[0].createdAt >= r.createdAt then [sorted[0]] + Place(sorted[1..], r)
    else [r] + sorted
  }

  function SortNewestFirst(records: seq<Request>): seq<Request> {
    if records == [] then []
    else Place(SortNewestFirst(records[..|records| - 1]), records[|records| - 1])
  }

  function CurrentRequest(records: seq<Request>, userId: string, permission: string): Option<Request> {
    var sorted := SortNewestFirst(Filter(records, userId, permission));
    if sorted == [] then None else Some(sorted[0])
  }

  predicate Granted(records: seq<Request>, userId: string, permission: string) {
    var current := CurrentRequest(records, userId, permission);
    current.Some? && current.value.status == Approved
  }

  // --- What the sort picks --------------------------------------------------------------------

  predicate Descending(records: seq<Request>) {
    forall i, j :: 0 <= i < j < |records| ==> records[i].createdAt >= records[j].createdAt
  }

  lemma {:induction false} PlaceKeeps(sorted: seq<Request>, r: Request)
    ensures multiset(Place(sorted, r)) == multiset(sorted) + multiset{r}
  {
    if sorted != [] && sorted[0].createdAt >= r.createdAt {
      PlaceKeeps(sorted[1..], r);
      assert sorted == [sorted[0]] + sorted[1..];
    }
  }

  lemma {:induction false} PlaceOrders(sorted: seq<Request>, r: Request)
    requires Descending(sorted)
    ensures Descending(Place(sorted, r))
  {
    if sorted != [] && sorted[0].createdAt >= r.createdAt {
      PlaceOrders(sorted[1..], r);
      PlaceKeeps(sorted[1..], r);
      var rest := Place(sorted[1..], r);
      forall j | 0 <= j < |rest| ensures rest[j].createdAt <= sorted[0].createdAt {
        assert rest[j] in multiset(rest);
        assert rest[j] == r || rest[j] in sorted[1..];
      }
    }
  }

  /** The list endpoints show every record once, newest first. */
  lemma {:induction false} SortSpec(records: seq<Request>)
    ensures Descending(SortNewestFirst(records)) && multiset(SortNewestFirst(records)) == multiset(records)
  {
    if records != [] {
      SortSpec(records[..|records| - 1]);
      PlaceOrders(SortNewestFirst(records[..|records| - 1]), records[|records| - 1]);
      PlaceKeeps(SortNewestFirst(records[..|records| - 1]), records[|records| - 1]);
      assert records == records[..|records| - 1] + [records[|records| - 1]];
    }
  }

  /** A record added at the end becomes the current one of its group only when it is strictly newer. */
  lemma CurrentAfterAppend(records: seq<Request>, r: Request, userId: string, permission: string)
    ensures var before := CurrentRequest(records, userId, permission);
            CurrentRequest(records + [r], userId, permission) ==
              if !InGroup(r, userId, permission) || (before.Some? && before.value.createdAt >= r.createdAt) then before else Some(r)
  {
    var group := Filter(records, userId, permission);
    assert (records + [r])[..|records|] == records;
    if InGroup(r, userId, permission) {
      assert (group + [r])[..|group|] == group;
      assert SortNewestFirst(group + [r]) == Place(SortNewestFirst(group), r);
    } else {
      assert group + [] == group;
    }
  }

  /** The current request is the earliest of the newest of its group; there is none only if the group is empty. */
  ghost predicate IsCurrent(records: seq<Request>, userId: string, permission: string, k: int) {
    0 <= k < |records| && InGroup(records[k], userId, permission) &&
    (forall j :: 0 <= j < |records| && InGroup(records[j], userId, permission) ==> records[j].createdAt <= records[k].createdAt) &&
    (forall j :: 0 <= j < k && InGroup(records[j], userId, permission) ==> records[j].createdAt < records[k].createdAt)
  }

  lemma NoCurrent(userId: string, permission: string)
    ensures CurrentRequest([], userId, permission) == None
  {
  }

  ghost predicate CurrentAt(records: seq<Request>, userId: string, permission: string, k: int) {
    var current := CurrentRequest(records, userId, permission);
    if current.None? then forall j :: 0 <= j < |records| ==> !InGroup(records[j], userId, permission)
    else IsCurrent(records, userId, permission, k) && records[k] == current.value
  }

  lemma CurrentKept(init: seq<Request>, last: Request, userId: string, permission: string, k: int)
    requires CurrentAt(init, userId, permission, k)
    requires CurrentRequest(init + [last], userId, permission) == CurrentRequest(init, userId, permission)
    requires !InGroup(last, userId, permission) ||
             (CurrentRequest(init, userId, permission).Some? && CurrentRequest(init, userId, permission).value.createdAt >= last.createdAt)
    ensures CurrentAt(init + [last], userId, permission, k)
  {
    hide CurrentRequest;
  }

  lemma CurrentReplaced(init: seq<Request>, last: Request, userId: string, permission: string, k: int)
    requires CurrentAt(init, userId, permission, k)
    requires CurrentRequest(init + [last], userId, permission) == Some(last)
    requires InGroup(last, userId, permission) &&
             (CurrentRequest(init, userId, permission).Some? ==> CurrentRequest(init, userId, permission).value.createdAt < last.createdAt)
    ensures CurrentAt(init + [last], userId, permission, |init|)
  {
    hide CurrentRequest;
  }

  lemma {:induction false} CurrentSpec(records: seq<Request>, userId: string, permission: string) returns (k: int)
    ensures CurrentAt(records, userId, permission, k)
    decreases |records|
  {
    k := -1;
    if records == [] {
      NoCurrent(userId, permission);
    } else {
      hide CurrentRequest, CurrentAt;
      var init, last := records[..|records| - 1], records[|records| - 1];
      k := CurrentSpec(init, userId, permission);
      CurrentAfterAppend(init, last, userId, permission);
      assert init + [last] == records;
      var before := CurrentRequest(init, userId, permission);
      if !InGroup(last, userId, permission) || (before.Some? && before.value.createdAt >= last.createdAt) {
        CurrentKept(init, last, userId, permission, k);
      } else {
        CurrentReplaced(init, last, userId, permission, k);
        k := |init|;
      }
    }
  }

  predicate DistinctIds(records: seq<Request>) { forall i, j :: 0 <= i < j < |records| ==> records[i].id != records[j].id }

  /** No request of the same user and permission follows. */
  predicate LastOfGroup(records: seq<Request>, k: nat) {
    k < |records| && forall j :: k < j < |records| ==> !SameGroup(records[j], records[k])
  }

  /**
   What the sort picks, exactly: the group's last request if and only if it is strictly newer than
   every earlier one of its group. On a tie an older record is taken for the current one.
   */
  lemma CurrentIsLast(records: seq<Request>, k: nat)
    requires LastOfGroup(records, k) && DistinctIds(records)
    ensures CurrentRequest(records, records[k].userId, records[k].permission) == Some(records[k]) <==>
            forall j :: 0 <= j < k && SameGroup(records[j], records[k]) ==> records[j].createdAt < records[k].createdAt
  {
    var n := CurrentSpec(records, records[k].userId, records[k].permission);
    hide CurrentRequest;
  }

  // --- The handlers ---------------------------------------------------------------------------

  /** The store, and the ids of the reviews that have passed their check and whose bodies are still arriving. */
  datatype Desk = Desk(records: seq<Request>, nextId: nat, reading: multiset<nat>)

  /** POST /api/access-requests, after its body has arrived: one uninterrupted piece from check to write. */
  function Submit(d: Desk, userId: Option<string>, permission: Field, reason: Field, now: int): (Desk, SubmitAnswer) {
    if userId.None? then (d, MissingUser)
    else if !permission.Text? || permission.text !in ACCESS_PERMISSIONS then (d, BadSubmit)
    else if reason.OtherJson? || (reason.Text? && |reason.text| > MAX_TEXT) then (d, BadSubmit)
    else
      var current := CurrentRequest(d.records, userId.value, permission.text);
      if current.Some? && current.value.status == Approved then (d, AlreadyGranted)
      else if current.Some? && current.value.status == Pending then (d, Duplicate(current.value))
      else
        var record := Request(d.nextId, userId.value, permission.text, Pending, now, None);
        (d.(records := d.records + [record], nextId := d.nextId + 1), Created(record))
  }

  function IndexOf(records: seq<Request>, id: nat): (k: nat)
    ensures k <= |records| && (k < |records| ==> records[k].id == id) && forall j :: 0 <= j < k ==> records[j].id != id
  {
    if records == [] || records[0].id == id then 0 else 1 + IndexOf(records[1..], id)
  }

  /** POST review, up to the wait for its body. */
  function BeginReview(d: Desk, id: nat): (Desk, Option<ReviewAnswer>) {
    var k := IndexOf(d.records, id);
    if k == |d.records| then (d, Some(NotFound))
    else if d.records[k].status != Pending then (d, Some(AlreadyReviewed))
    else (d.(reading := d.reading + multiset{id}), None)
  }

  /** POST review once its body is there: the status is not looked at again. */
  function FinishReview(d: Desk, id: nat, decision: Field, note: Field, now: int): (Desk, ReviewAnswer) {
    var k := IndexOf(d.records, id);
    var done := d.(reading := d.reading - multiset{id});
    if k == |d.records| then (done, NotFound)
    else if decision !in {Text("approve"), Text("deny")} then (done, BadReview)
    else if note.OtherJson? || (note.Text? && |note.text| > MAX_TEXT) then (done, BadReview)
    else
      var record := d.records[k].(status := if decision == Text("approve") then Approved else Denied, reviewedAt := Some(now));
      (done.(records := d.records[k := record]), Reviewed(record))
  }

  /** The module-level Map and its handlers. */
  class AccessRequestStore {
    var desk: Desk

    constructor ()
      ensures desk == Desk([], 0, multiset{})
    {
      desk := Desk([], 0, multiset{});
    }

    method HandleSubmit(userId: Option<string>, permission: Field, reason: Field, now: int) returns (answer: SubmitAnswer)
      modifies this
      ensures (desk, answer) == Submit(old(desk), userId, permission, reason, now)
    {
      if userId.None? {
        return MissingUser;
      }
      if !permission.Text? || permission.text !in ACCESS_PERMISSIONS {
        return BadSubmit;
      }
      if reason.OtherJson? || (reason.Text? && |reason.text| > MAX_TEXT) {
        return BadSubmit;
      }
      var current := CurrentRequest(desk.records, userId.value, permission.text);
      if current.Some? && current.value.status == Approved {
        return AlreadyGranted;
      }
      if current.Some? && current.value.status == Pending {
        return Duplicate(current.value);
      }
      var record := Request(desk.nextId, userId.value, permission.text, Pending, now, None);
      desk := desk.(records := desk.records + [record], nextId := desk.nextId + 1);
      answer := Created(record);
    }

    method StartReview(id: nat) returns (answer: Option<ReviewAnswer>)
      modifies this
      ensures (desk, answer) == BeginReview(old(desk), id)
    {
      var k := IndexOf(desk.records, id);
      if k == |desk.records| {
        return Some(NotFound);
      }
      if desk.records[k].status != Pending {
        return Some(AlreadyReviewed);
      }
      desk := desk.(reading := desk.reading + multiset{id});
      answer := None;
    }

    method EndReview(id: nat, decision: Field, note: Field, now: int) returns (answer: ReviewAnswer)
      modifies this
      ensures (desk, answer) == FinishReview(old(desk), id, decision, note, now)
    {
      desk := desk.(reading := desk.reading - multiset{id});
      var k := IndexOf(desk.records, id);
      if k == |desk.records| {
        return NotFound;
      }
      if decision != Text("approve") && decision != Text("deny") {
        return BadReview;
      }
      if note.OtherJson? || (note.Text? && |note.text| > MAX_TEXT) {
        return BadReview;
      }
      var record := desk.records[k].(status := if decision == Text("approve") then Approved else Denied, reviewedAt := Some(now));
      desk := desk.(records := desk.records[k := record]);
      answer := Reviewed(record);
    }
  }

  /** The review route when no other review of the same request comes in between: it decides a pending request once and for all. */
  method ReviewAlone(store: AccessRequestStore, id: nat, decision: Field, note: Field, now: int) returns (answer: ReviewAnswer)
    modifies store
    ensures |store.desk.records| == |old(store.desk.records)| && store.desk.reading == old(store.desk.reading)
    ensures var k := IndexOf(old(store.desk.records), id);
            && (answer.NotFound? <==> k == |old(store.desk.records)|)
            && (answer.AlreadyReviewed? <==> k < |old(store.desk.records)| && old(store.desk.records)[k].status != Pending)
            && (answer.Reviewed? ==> old(store.desk.records)[k].status == Pending && BeginReview(store.desk, id).1 == Some(AlreadyReviewed) &&
                                     (decision == Text("approve") || decision == Text("deny")) &&
                                     store.desk.records == old(store.desk.records)[k := answer.record] &&
                                     answer.record.status == (if decision == Text("approve") then Approved else Denied))
            && (!answer.Reviewed? ==> store.desk == old(store.desk))
  {
    var early := store.StartReview(id);
    if early.Some? {
      return early.value;
    }
    answer := store.EndReview(id, decision, note, now);
    if answer.Reviewed? { SameIndex(old(store.desk.records), store.desk.records, id); }
  }

  lemma SameIndex(records: seq<Request>, after: seq<Request>, id: nat)
    requires |after| == |records| && forall i :: 0 <= i < |records| ==> after[i].id == records[i].id
    ensures IndexOf(after, id) == IndexOf(records, id)
  {
  }

  // --- What every run keeps -------------------------------------------------------------------

  datatype Step = DoSubmit(userId: Option<string>, permission: Field, reason: Field, now: int)
                | DoBegin(id: nat)
                | DoFinish(id: nat, decision: Field, note: Field, now: int)

  function Next(d: Desk, step: Step): Desk {
    match step
    case DoSubmit(u, p, r, now) => Submit(d, u, p, r, now).0
    case DoBegin(id) => BeginReview(d, id).0
    case DoFinish(id, decision, note, now) => FinishReview(d, id, decision, note, now).0
  }

  /** A review ends only after it has begun. */
  predicate Enabled(d: Desk, step: Step) { step.DoFinish? ==> step.id in d.reading }

  /** Later requests of the same user and permission carry later times. */
  predicate StrictTimes(records: seq<Request>) {
    forall i, j :: 0 <= i < j < |records| && SameGroup(records[i], records[j]) ==> records[i].createdAt < records[j].createdAt
  }

  /** Per user and permission: denied requests, then at most one request of any status. */
  predicate DeniedButLast(records: seq<Request>) {
    forall i, j :: 0 <= i < j < |records| && SameGroup(records[i], records[j]) ==> records[i].status == Denied
  }

  predicate Numbered(d: Desk) { DistinctIds(d.records) && forall i :: 0 <= i < |d.records| ==> d.records[i].id < d.nextId }

  predicate Shape(d: Desk) { Numbered(d) && StrictTimes(d.records) && DeniedButLast(d.records) }

  /** Each review under way is the only one of its request, which is pending. */
  predicate ReviewsOpen(d: Desk) {
    forall id :: id in d.reading ==>
      d.reading[id] == 1 && IndexOf(d.records, id) < |d.records| && d.records[IndexOf(d.records, id)].status == Pending
  }

  predicate Good(d: Desk) { Shape(d) && ReviewsOpen(d) }

  /** A new record is stamped later than those of the same user and permission. */
  predicate ClockMoves(d: Desk, step: Step) {
    step.DoSubmit? && step.userId.Some? && step.permission.Text? ==>
      forall i :: 0 <= i < |d.records| && InGroup(d.records[i], step.userId.value, step.permission.text) ==> d.records[i].createdAt < step.now
  }

  /** No review begins while another of the same request is under way. */
  predicate NoOverlap(d: Desk, step: Step) { step.DoBegin? ==> step.id !in d.reading }

  /** With increasing times the current request is the last of its group. */
  lemma CurrentOfGroup(records: seq<Request>, userId: string, permission: string) returns (k: int)
    requires StrictTimes(records)
    ensures var current := CurrentRequest(records, userId, permission);
            if current.None? then forall j :: 0 <= j < |records| ==> !InGroup(records[j], userId, permission)
            else && 0 <= k < |records| && InGroup(records[k], userId, permission) && records[k] == current.value
                 && forall j :: k < j < |records| ==> !InGroup(records[j], userId, permission)
  {
    k := CurrentSpec(records, userId, permission);
    hide CurrentRequest;
    forall j | 0 <= k < j < |records| && InGroup(records[j], userId, permission) && InGroup(records[k], userId, permission)
      ensures records[k].createdAt < records[j].createdAt
    {
      assert SameGroup(records[k], records[j]);
    }
  }

  /** A permission is granted exactly when some request for it is approved. */
  lemma GrantedIffApproved(d: Desk, userId: string, permission: string)
    requires Shape(d)
    ensures Granted(d.records, userId, permission) <==>
            exists i :: 0 <= i < |d.records| && InGroup(d.records[i], userId, permission) && d.records[i].status == Approved
  {
    var k := CurrentOfGroup(d.records, userId, permission);
    hide CurrentRequest;
    forall i | 0 <= i < |d.records| && InGroup(d.records[i], userId, permission) && i != k ensures d.records[i].status == Denied {
      assert SameGroup(d.records[i], d.records[k]);
    }
  }

  lemma IndexOfFirst(records: seq<Request>, id: nat, k: nat)
    requires DistinctIds(records) && k < |records| && records[k].id == id
    ensures IndexOf(records, id) == k
  {
  }

  /** What a submission adds. */
  lemma SubmitAdds(d: Desk, step: Step)
    requires step.DoSubmit? && Next(d, step) != d
    ensures step.userId.Some? && step.permission.Text?
    ensures var u, p := step.userId.value, step.permission.text;
            && Next(d, step) == d.(records := d.records + [Request(d.nextId, u, p, Pending, step.now, None)], nextId := d.nextId + 1)
            && (CurrentRequest(d.records, u, p).Some? ==> CurrentRequest(d.records, u, p).value.status == Denied)
  {
    hide CurrentRequest;
  }

  lemma SubmitKeepsGood(d: Desk, step: Step)
    requires Good(d) && step.DoSubmit? && ClockMoves(d, step)
    ensures Good(Next(d, step)) && d.records <= Next(d, step).records
  {
    var d' := Next(d, step);
    if d' != d {
      SubmitAdds(d, step);
      var u, p := step.userId.value, step.permission.text;
      var k := CurrentOfGroup(d.records, u, p);
      hide CurrentRequest, Next, IndexOf, ReviewsOpen, DistinctIds;
      forall i | 0 <= i < |d.records| && InGroup(d.records[i], u, p) ensures d.records[i].status == Denied {
        if i != k { assert SameGroup(d.records[i], d.records[k]); }
      }
      AppendKeepsReviews(d, d'.records[|d.records|]);
      AppendKeepsShape(d, d'.records[|d.records|]);
    }
  }

  lemma AppendKeepsShape(d: Desk, r: Request)
    requires Shape(d) && r.id == d.nextId
    requires forall i :: 0 <= i < |d.records| && SameGroup(d.records[i], r) ==> d.records[i].status == Denied && d.records[i].createdAt < r.createdAt
    ensures Shape(d.(records := d.records + [r], nextId := d.nextId + 1))
  {
  }

  lemma AppendKeepsReviews(d: Desk, r: Request)
    requires Numbered(d) && ReviewsOpen(d) && r.id == d.nextId
    ensures ReviewsOpen(d.(records := d.records + [r], nextId := d.nextId + 1))
  {
    forall id | id in d.reading ensures IndexOf(d.records + [r], id) == IndexOf(d.records, id) {
      IndexOfFirst(d.records + [r], id, IndexOf(d.records, id));
    }
  }

  /** What the end of a review changes: at most the status of its request. */
  lemma FinishChanges(d: Desk, step: Step)
    requires step.DoFinish?
    ensures var d', k := Next(d, step), IndexOf(d.records, step.id);
            && d'.reading == d.reading - multiset{step.id} && d'.nextId == d.nextId && |d'.records| == |d.records|
            && (forall i :: 0 <= i < |d.records| && i != k ==> d'.records[i] == d.records[i])
            && (k < |d.records| ==> d'.records[k] == d.records[k].(status := d'.records[k].status, reviewedAt := d'.records[k].reviewedAt))
  {
  }

  /** A pending request is the last of its group, so deciding it keeps the shape and takes nothing away. */
  lemma FinishKeepsShape(d: Desk, step: Step)
    requires Good(d) && step.DoFinish? && Enabled(d, step)
    ensures Shape(Next(d, step))
    ensures |Next(d, step).records| == |d.records| && Next(d, step).reading == d.reading - multiset{step.id}
    ensures forall i :: 0 <= i < |d.records| && (d.records[i].status == Approved || d.records[i].id != step.id) ==> Next(d, step).records[i] == d.records[i]
    ensures forall i :: 0 <= i < |d.records| ==> Next(d, step).records[i].id == d.records[i].id && SameGroup(Next(d, step).records[i], d.records[i])
  {
    FinishChanges(d, step);
    var d', k := Next(d, step), IndexOf(d.records, step.id);
    assert d.records[k].status == Pending;
    hide Next, IndexOf, ReviewsOpen, StrictTimes, DeniedButLast, DistinctIds;
    DecideKeepsShape(d.records, d'.records, k);
  }

  lemma DecideKeepsShape(records: seq<Request>, after: seq<Request>, k: nat)
    requires DistinctIds(records) && StrictTimes(records) && DeniedButLast(records)
    requires k < |records| == |after| && records[k].status == Pending
    requires forall i :: 0 <= i < |records| && i != k ==> after[i] == records[i]
    requires after[k] == records[k].(status := after[k].status, reviewedAt := after[k].reviewedAt)
    ensures DistinctIds(after) && StrictTimes(after) && DeniedButLast(after)
    ensures forall i :: 0 <= i < |records| ==> after[i].id == records[i].id && SameGroup(after[i], records[i])
  {
    forall i, j | 0 <= i < j < |records| && SameGroup(after[i], after[j]) ensures SameGroup(records[i], records[j]) {
    }
  }

  lemma FinishKeepsGood(d: Desk, step: Step)
    requires Good(d) && step.DoFinish? && Enabled(d, step)
    ensures Good(Next(d, step))
    ensures forall i :: 0 <= i < |d.records| && d.records[i].status == Approved ==> Next(d, step).records[i] == d.records[i]
    ensures |Next(d, step).records| == |d.records|
    ensures forall i :: 0 <= i < |d.records| ==> SameGroup(Next(d, step).records[i], d.records[i])
  {
    FinishKeepsShape(d, step);
    hide Next;
    var d' := Next(d, step);
    forall id | id in d'.reading
      ensures id in d.reading && d'.reading[id] == 1 && id != step.id && IndexOf(d'.records, id) == IndexOf(d.records, id)
    {
      IndexOfFirst(d'.records, id, IndexOf(d.records, id));
    }
  }

  lemma BeginKeepsGood(d: Desk, step: Step)
    requires Good(d) && step.DoBegin? && NoOverlap(d, step)
    ensures Good(Next(d, step)) && Next(d, step).records == d.records
  {
  }

  /** Every handler step keeps the shape and takes no permission away. */
  lemma StepKeepsGood(d: Desk, step: Step, userId: string, permission: string)
    requires Good(d) && Enabled(d, step) && ClockMoves(d, step) && NoOverlap(d, step)
    ensures Good(Next(d, step))
    ensures Granted(d.records, userId, permission) ==> Granted(Next(d, step).records, userId, permission)
  {
    var d' := Next(d, step);
    match step {
      case DoSubmit(_, _, _, _) => SubmitKeepsGood(d, step);
      case DoBegin(_) => BeginKeepsGood(d, step);
      case DoFinish(_, _, _, _) => FinishKeepsGood(d, step);
    }
    GrantedIffApproved(d, userId, permission);
    GrantedIffApproved(d', userId, permission);
    hide Next, Granted, Good;
    if Granted(d.records, userId, permission) {
      var i :| 0 <= i < |d.records| && InGroup(d.records[i], userId, permission) && d.records[i].status == Approved;
      assert d'.records[i] == d.records[i];
      assert InGroup(d'.records[i], userId, permission) && d'.records[i].status == Approved;
    }
  }

  function Run(d: Desk, steps: seq<Step>): Desk
    decreases |steps|
  {
    if steps == [] then d else Run(Next(d, steps[0]), steps[1..])
  }

  predicate Orderly(d: Desk, steps: seq<Step>)
    decreases |steps|
  {
    steps == [] || (Enabled(d, steps[0]) && ClockMoves(d, steps[0]) && NoOverlap(d, steps[0]) && Orderly(Next(d, steps[0]), steps[1..]))
  }

  /**
   In every run with moving clock and non-overlapping reviews: the requests of a user for a permission
   are denied ones followed by at most one other, the permission is granted exactly when one of them
   is approved, and it then stays granted.
   */
  lemma {:induction false} AccessAlongRuns(d: Desk, steps: seq<Step>, userId: string, permission: string)
    requires Good(d) && Orderly(d, steps)
    ensures Good(Run(d, steps))
    ensures Granted(Run(d, steps).records, userId, permission) <==>
            exists i :: 0 <= i < |Run(d, steps).records| && InGroup(Run(d, steps).records[i], userId, permission) && Run(d, steps).records[i].status == Approved
    ensures Granted(d.records, userId, permission) ==> Granted(Run(d, steps).records, userId, permission)
    decreases |steps|
  {
    if steps == [] {
      GrantedIffApproved(d, userId, permission);
    } else {
      StepKeepsGood(d, steps[0], userId, permission);
      AccessAlongRuns(Next(d, steps[0]), steps[1..], userId, permission);
    }
  }

  // --- What the handlers decide ---------------------------------------------------------------

  predicate Asked(d: Desk, userId: string, permission: string, status: Status) {
    exists i :: 0 <= i < |d.records| && d.records[i].userId == userId && d.records[i].permission == permission && d.records[i].status == status
  }

  predicate ShortText(f: Field) { f == Absent || (f.Text? && |f.text| <= 1000) }

  /**
   What a submission is answered, in the order of its checks; only an accepted one changes anything, by one
   pending request at the end.
   */
  lemma WhatASubmissionDoes(d: Desk, userId: Option<string>, permission: Field, reason: Field, now: int)
    requires Good(d)
    ensures var (d', answer) := Submit(d, userId, permission, reason, now);
            var known := permission in {Text("verify"), Text("publish"), Text("admin")} && ShortText(reason);
            && (answer.MissingUser? <==> userId.None?)
            && (answer.BadSubmit? <==> userId.Some? && !known)
            && (answer.AlreadyGranted? <==> userId.Some? && known && Asked(d, userId.value, permission.text, Approved))
            && (answer.Duplicate? <==> userId.Some? && known && Asked(d, userId.value, permission.text, Pending))
            && (answer.Duplicate? ==> answer.existing in d.records && answer.existing.status == Pending &&
                                      InGroup(answer.existing, userId.value, permission.text))
            && (answer.Created? ==> d'.reading == d.reading && d'.records == d.records + [answer.record] &&
                                    answer.record == Request(d.nextId, userId.value, permission.text, Pending, now, None))
            && (!answer.Created? ==> d' == d)
  {
    if userId.Some? && permission.Text? {
      var u, p := userId.value, permission.text;
      var k := CurrentOfGroup(d.records, u, p);
      assert permission in {Text("verify"), Text("publish"), Text("admin")} <==> p in ACCESS_PERMISSIONS;
      hide CurrentRequest, ReviewsOpen;
      OneUndecided(d, u, p, if CurrentRequest(d.records, u, p).Some? then k else -1);
    }
  }

  /** Only the last request of a group can be anything but denied. */
  lemma OneUndecided(d: Desk, u: string, p: string, k: int)
    requires DeniedButLast(d.records)
    requires 0 <= k < |d.records| ==> InGroup(d.records[k], u, p) && forall j :: k < j < |d.records| ==> !InGroup(d.records[j], u, p)
    ensures 0 <= k < |d.records| ==> (Asked(d, u, p, Approved) <==> d.records[k].status == Approved) && (Asked(d, u, p, Pending) <==> d.records[k].status == Pending)
    ensures (forall j :: 0 <= j < |d.records| ==> !InGroup(d.records[j], u, p)) ==> !Asked(d, u, p, Approved) && !Asked(d, u, p, Pending)
  {
    if 0 <= k < |d.records| {
      forall i | 0 <= i < |d.records| && InGroup(d.records[i], u, p) && i != k ensures d.records[i].status == Denied {
        assert SameGroup(d.records[i], d.records[k]);
      }
      assert d.records[k].userId == u && d.records[k].permission == p;
    }
  }

  /** The two decisions, as JSON texts. */
  predicate Decision(f: Field) { f == Text("approve") || f == Text("deny") }

  /**
   A review that begins and ends with nothing else of its request in between: a pending request with a valid
   decision and note is decided as asked, and the permission is granted from then on exactly if it was approved.
   */
  lemma WhatAReviewDecides(d: Desk, id: nat, decision: Field, note: Field, now: int)
    requires Good(d) && id !in d.reading
    ensures var k, d1, early := IndexOf(d.records, id), BeginReview(d, id).0, BeginReview(d, id).1;
            && d1.records == d.records
            && (early == Some(NotFound) <==> forall i :: 0 <= i < |d.records| ==> d.records[i].id != id)
            && (early == Some(AlreadyReviewed) <==> exists i :: 0 <= i < |d.records| && d.records[i].id == id && d.records[i].status != Pending)
            && (early.Some? ==> d1 == d)
            && (early.None? ==>
                  var (d2, answer) := FinishReview(d1, id, decision, note, now);
                  && k < |d.records| && (answer.Reviewed? <==> Decision(decision) && ShortText(note)) && (answer.BadReview? <==> !answer.Reviewed?)
                  && d2.reading == d.reading && (answer.BadReview? ==> d2 == d)
                  && (answer.Reviewed? ==>
                        && answer.record == d.records[k].(status := if decision == Text("approve") then Approved else Denied, reviewedAt := Some(now))
                        && d2.records == d.records[k := answer.record]
                        && (Granted(d2.records, d.records[k].userId, d.records[k].permission) <==> decision == Text("approve"))))
  {
    FirstOfId(d, id);
    if BeginReview(d, id).1.None? {
      PendingReview(d, id, decision, note, now);
      hide FinishReview, Good, Granted, DistinctIds;
    }
    hide Good;
  }

  lemma FirstOfId(d: Desk, id: nat)
    requires Good(d)
    ensures var k := IndexOf(d.records, id); forall i :: 0 <= i < |d.records| && d.records[i].id == id ==> i == k
  {
    hide ReviewsOpen;
  }

  lemma PendingReview(d: Desk, id: nat, decision: Field, note: Field, now: int)
    requires Good(d) && id !in d.reading && IndexOf(d.records, id) < |d.records| && d.records[IndexOf(d.records, id)].status == Pending
    ensures var k, d1 := IndexOf(d.records, id), BeginReview(d, id).0;
            var (d2, answer) := FinishReview(d1, id, decision, note, now);
            && (answer.Reviewed? <==> Decision(decision) && ShortText(note)) && (answer.BadReview? <==> !answer.Reviewed?)
            && d2.reading == d.reading && (answer.BadReview? ==> d2 == d)
            && (answer.Reviewed? ==>
                  && answer.record == d.records[k].(status := if decision == Text("approve") then Approved else Denied, reviewedAt := Some(now))
                  && d2.records == d.records[k := answer.record]
                  && (Granted(d2.records, d.records[k].userId, d.records[k].permission) <==> decision == Text("approve")))
  {
    hide Good, Granted, FinishReview, BeginReview, IndexOf;
    var k, d1 := IndexOf(d.records, id), BeginReview(d, id).0;
    BeginsPending(d, id);
    ReviewKeepsGood(d, id, decision, note, now);
    FinishAnswers(d1, id, decision, note, now);
    var (d2, answer) := FinishReview(d1, id, decision, note, now);
    if answer.Reviewed? { DecidedIsShown(d, d2, k); }
  }

  lemma BeginsPending(d: Desk, id: nat)
    requires id !in d.reading && IndexOf(d.records, id) < |d.records| && d.records[IndexOf(d.records, id)].status == Pending
    ensures var d1 := BeginReview(d, id).0;
            d1 == d.(reading := d.reading + multiset{id}) && d1.reading - multiset{id} == d.reading
  {
  }

  lemma ReviewKeepsGood(d: Desk, id: nat, decision: Field, note: Field, now: int)
    requires Good(d) && id !in d.reading && IndexOf(d.records, id) < |d.records| && d.records[IndexOf(d.records, id)].status == Pending
    ensures Good(FinishReview(BeginReview(d, id).0, id, decision, note, now).0)
  {
    BeginKeepsGood(d, DoBegin(id));
    BeginsPending(d, id);
    hide Good, IndexOf, FinishReview;
    FinishKeepsGood(BeginReview(d, id).0, DoFinish(id, decision, note, now));
  }

  lemma FinishAnswers(d: Desk, id: nat, decision: Field, note: Field, now: int)
    requires IndexOf(d.records, id) < |d.records|
    ensures var k := IndexOf(d.records, id);
            var (d', answer) := FinishReview(d, id, decision, note, now);
            && (answer.Reviewed? <==> Decision(decision) && ShortText(note)) && (answer.BadReview? <==> !answer.Reviewed?)
            && d'.reading == d.reading - multiset{id} && d'.nextId == d.nextId && (answer.BadReview? ==> d'.records == d.records)
            && (answer.Reviewed? ==>
                  && answer.record == d.records[k].(status := if decision == Text("approve") then Approved else Denied, reviewedAt := Some(now))
                  && d'.records == d.records[k := answer.record])
  {
    assert Text("approve") != Text("deny") by { assert |"approve"| != |"deny"|; }
  }

  lemma DecidedIsShown(d: Desk, d2: Desk, k: nat)
    requires Good(d) && Good(d2) && k < |d.records| && d.records[k].status == Pending && |d2.records| == |d.records|
    requires forall i :: 0 <= i < |d.records| && i != k ==> d2.records[i] == d.records[i]
    requires SameGroup(d2.records[k], d.records[k])
    ensures Granted(d2.records, d.records[k].userId, d.records[k].permission) <==> d2.records[k].status == Approved
  {
    var u, p := d.records[k].userId, d.records[k].permission;
    GrantedIffApproved(d2, u, p);
    hide Granted;
    forall i | 0 <= i < |d.records| && i != k && InGroup(d2.records[i], u, p) ensures d2.records[i].status != Approved {
      assert if i < k then SameGroup(d.records[i], d.records[k]) else SameGroup(d.records[k], d.records[i]);
    }
    assert InGroup(d2.records[k], u, p);
  }

  // --- Without those conditions ---------------------------------------------------------------

  /**
   A review that ends is applied whatever the status has become. Exactly then does it spoil the
   shape: it approves a request that is not the last of its group. And exactly then does it take a
   permission away: it denies a request approved meanwhile.
   */
  lemma OverlappingReview(d: Desk, id: nat, decision: Field, note: Field, now: int)
    requires Shape(d) && FinishReview(d, id, decision, note, now).1.Reviewed?
    ensures var k := IndexOf(d.records, id);
            var after := FinishReview(d, id, decision, note, now).0.records;
            && (DeniedButLast(after) <==> decision == Text("deny") || LastOfGroup(d.records, k))
            && ((Granted(d.records, d.records[k].userId, d.records[k].permission) && !Granted(after, d.records[k].userId, d.records[k].permission))
                <==> d.records[k].status == Approved && decision == Text("deny"))
  {
    var k := IndexOf(d.records, id);
    LateDecision(d.records, k, if decision == Text("approve") then Approved else Denied, Some(now));
    hide Granted, DeniedButLast, StrictTimes;
  }

  lemma LateDecision(records: seq<Request>, k: nat, status: Status, reviewedAt: Option<int>)
    requires StrictTimes(records) && DeniedButLast(records) && k < |records| && status != Pending
    ensures var after := records[k := records[k].(status := status, reviewedAt := reviewedAt)];
            && (DeniedButLast(after) <==> status == Denied || LastOfGroup(records, k))
            && ((Granted(records, records[k].userId, records[k].permission) && !Granted(after, records[k].userId, records[k].permission))
                <==> records[k].status == Approved && status == Denied)
  {
    var after := records[k := records[k].(status := status, reviewedAt := reviewedAt)];
    var u, p := records[k].userId, records[k].permission;
    forall i, j | 0 <= i < j < |records| ensures SameGroup(after[i], after[j]) <==> SameGroup(records[i], records[j]) {
    }
    if status == Approved && !LastOfGroup(records, k) {
      var j :| k < j < |records| && SameGroup(records[j], records[k]);
      assert SameGroup(after[k], after[j]);
    }
    var n := CurrentOfGroup(records, u, p);
    var m := CurrentOfGroup(after, u, p);
    hide CurrentRequest;
    assert InGroup(records[k], u, p) && InGroup(after[k], u, p);
    assert n == m by {
      assert InGroup(records[m], u, p) && InGroup(after[n], u, p);
    }
    if k != n { assert SameGroup(records[k], records[n]); }
  }

  /**
   When a submission spoils the shape, exactly: some request of its group that is not denied is followed
   by one that is not newer, so that the sort shows an older one instead of it.
   */
  lemma WhenSubmissionSpoils(d: Desk, userId: string, permission: string, reason: Field, now: int)
    requires Numbered(d) && DeniedButLast(d.records)
    requires Submit(d, Some(userId), Text(permission), reason, now).1.Created?
    ensures var after := Submit(d, Some(userId), Text(permission), reason, now).0.records;
            !DeniedButLast(after) <==>
              exists j, k :: 0 <= j < k < |d.records| && InGroup(d.records[j], userId, permission) && InGroup(d.records[k], userId, permission) &&
                d.records[k].status != Denied && d.records[j].createdAt >= d.records[k].createdAt
  {
    var records := d.records;
    SubmitAdds(d, DoSubmit(Some(userId), Text(permission), reason, now));
    var after := Submit(d, Some(userId), Text(permission), reason, now).0.records;
    var n := CurrentSpec(records, userId, permission);
    hide CurrentRequest, Submit;
    if !DeniedButLast(after) {
      var k, j :| 0 <= k < j < |after| && SameGroup(after[k], after[j]) && after[k].status != Denied;
      assert j == |records| && InGroup(records[k], userId, permission);
      assert InGroup(records[n], userId, permission) && records[n].status == Denied;
      assert SameGroup(records[k], records[n]) && n < k;
    }
    forall k | 0 <= k < |records| && InGroup(records[k], userId, permission) && records[k].status != Denied
      ensures !DeniedButLast(after)
    {
      assert SameGroup(after[k], after[|records|]);
    }
  }

  /**
   When an approved request grants its permission, whatever the times: exactly if every earlier request
   of its group is strictly older. Otherwise an older, denied one is shown instead.
   */
  lemma WhenApprovalShows(d: Desk, k: nat)
    requires Numbered(d) && DeniedButLast(d.records) && k < |d.records| && d.records[k].status == Approved
    ensures Granted(d.records, d.records[k].userId, d.records[k].permission) <==>
            forall j :: 0 <= j < k && SameGroup(d.records[j], d.records[k]) ==> d.records[j].createdAt < d.records[k].createdAt
  {
    var r := d.records[k];
    assert forall j :: k < j < |d.records| ==> (SameGroup(d.records[j], r) <==> SameGroup(r, d.records[j]));
    assert LastOfGroup(d.records, k);
    CurrentIsLast(d.records, k);
    var n := CurrentSpec(d.records, r.userId, r.permission);
    hide CurrentRequest;
    if CurrentRequest(d.records, r.userId, r.permission).Some? && n != k { assert SameGroup(d.records[n], r); }
  }

  /** Two requests in the same millisecond: the denied one hides the pending one, and a third is accepted beside it. */
  lemma TieLetsTwoPendingIn(userId: string, permission: string, now: int)
    requires permission in ACCESS_PERMISSIONS
    ensures var d0 := Desk([Request(0, userId, permission, Denied, now, Some(now))], 1, multiset{});
            var d1 := Submit(d0, Some(userId), Text(permission), Absent, now).0;
            var (d2, answer) := Submit(d1, Some(userId), Text(permission), Absent, now);
            && Numbered(d0) && DeniedButLast(d0.records)
            && answer.Created? && |d2.records| == 3
            && d2.records[1].status == Pending && d2.records[2].status == Pending && !DeniedButLast(d2.records)
  {
    NoCurrent(userId, permission);
    hide CurrentRequest;
    var denied := Request(0, userId, permission, Denied, now, Some(now));
    var second := Request(1, userId, permission, Pending, now, None);
    CurrentAfterAppend([], denied, userId, permission);
    assert [] + [denied] == [denied];
    CurrentAfterAppend([denied], second, userId, permission);
    var d1 := Submit(Desk([denied], 1, multiset{}), Some(userId), Text(permission), Absent, now).0;
    assert d1.records == [denied] + [second];
    var d2 := Submit(d1, Some(userId), Text(permission), Absent, now).0;
    assert d2.records == d1.records + [Request(2, userId, permission, Pending, now, None)];
    assert SameGroup(d2.records[1], d2.records[2]);
  }
}
