/**
 The request deduplicator (frontend/services/requestDeduplicator.ts): callers asking for the same key
 share one pending fetch, for a limited time. Entries go away by timers that delete by key.
 */
module Deduplicator {
  import opened Wrappers

  /**
   A fetch from its start: not settled; settled, with its cleanup timer still to fire; cleaned up; or
   rejected with null or undefined, where building the log message throws before the timer is set.
   */
  datatype Phase = Unsettled | TimerPending | Cleaned | Leaked

  datatype Fetch = Fetch(key: string, startedAt: int, phase: Phase)

  datatype Entry = Entry(fetch: nat, timestamp: int)

  datatype Outcome = Resolves | RejectsWithError | RejectsWithNullish

  /** The cache, and every fetch ever started, in order; a promise is the index of its fetch. */
  datatype State = State(pending: map<string, Entry>, fetches: seq<Fetch>, now: int, maxPendingTime: int)

  predicate Reusable(s: State, key: string) {
    key in s.pending && s.now - s.pending[key].timestamp < s.maxPendingTime
  }

  /** The promise a caller gets. `starts` says whether the fetch function returns a promise or throws at once. */
  function Deduplicate(s: State, key: string, starts: bool): (State, Option<nat>) {
    if Reusable(s, key) then (s, Some(s.pending[key].fetch))
    else
      var dropped := s.(pending := s.pending - {key});
      if !starts then (dropped, None)
      else
        var f := |s.fetches|;
        (dropped.(fetches := s.fetches + [Fetch(key, s.now, Unsettled)], pending := dropped.pending[key := Entry(f, s.now)]), Some(f))
  }

  function Settle(s: State, f: nat, outcome: Outcome): State
    requires f < |s.fetches|
  {
    s.(fetches := s.fetches[f := s.fetches[f].(phase := if outcome.RejectsWithNullish? then Leaked else TimerPending)])
  }

  function FireTimer(s: State, f: nat): State
    requires f < |s.fetches|
  {
    s.(fetches := s.fetches[f := s.fetches[f].(phase := Cleaned)], pending := s.pending - {s.fetches[f].key})
  }

  /** The service object; `now` stands for `Date.now()`, and `fetches` records the promises it has made. */
  class RequestDeduplicator {
    var pendingRequests: map<string, Entry>
    var maxPendingTime: int
    var fetches: seq<Fetch>
    var now: int

    function View(): State
      reads this
    {
      State(pendingRequests, fetches, now, maxPendingTime)
    }

    constructor (maxPendingTime: Option<int>, now: int)
      ensures View() == State(map[], [], now, maxPendingTime.GetOr(5000))
    {
      this.maxPendingTime := maxPendingTime.GetOr(5000);
      this.now := now;
      pendingRequests, fetches := map[], [];
    }

    method Request(key: string, starts: bool) returns (promise: Option<nat>)
      modifies this
      ensures (View(), promise) == Deduplicate(old(View()), key, starts)
    {
      if key in pendingRequests {
        var age := now - pendingRequests[key].timestamp;
        if age < maxPendingTime {
          return Some(pendingRequests[key].fetch);
        }
      }
      pendingRequests := pendingRequests - {key};
      if !starts {
        return None;
      }
      promise := Some(|fetches|);
      pendingRequests := pendingRequests[key := Entry(|fetches|, now)];
      fetches := fetches + [Fetch(key, now, Unsettled)];
    }

    method OnSettled(f: nat, outcome: Outcome)
      requires f < |fetches|
      modifies this
      ensures View() == Settle(old(View()), f, outcome)
    {
      fetches := fetches[f := fetches[f].(phase := if outcome.RejectsWithNullish? then Leaked else TimerPending)];
    }

    method OnTimer(f: nat)
      requires f < |fetches|
      modifies this
      ensures View() == FireTimer(old(View()), f)
    {
      pendingRequests := pendingRequests - {fetches[f].key};
      fetches := fetches[f := fetches[f].(phase := Cleaned)];
    }

    method Clear()
      modifies this
      ensures View() == old(View()).(pending := map[])
    {
      pendingRequests := map[];
    }

    method ClearKey(key: string)
      modifies this
      ensures View() == old(View()).(pending := old(View()).pending - {key})
    {
      if key in pendingRequests {
        pendingRequests := pendingRequests - {key};
      }
    }
  }

  // --- Runs -----------------------------------------------------------------------------------

  datatype Step = Call(key: string, starts: bool) | SettleStep(f: nat, outcome: Outcome) | Timer(f: nat)
                | ClearAll | ClearOne(key: string) | SetMax(limit: int) | Tick(ms: nat)

  predicate Enabled(s: State, step: Step) {
    match step
    case SettleStep(f, _) => f < |s.fetches| && s.fetches[f].phase == Unsettled
    case Timer(f) => f < |s.fetches| && s.fetches[f].phase == TimerPending
    case _ => true
  }

  function Next(s: State, step: Step): State
    requires Enabled(s, step)
  {
    match step
    case Call(key, starts) => Deduplicate(s, key, starts).0
    case SettleStep(f, outcome) => Settle(s, f, outcome)
    case Timer(f) => FireTimer(s, f)
    case ClearAll => s.(pending := map[])
    case ClearOne(key) => s.(pending := s.pending - {key})
    case SetMax(limit) => s.(maxPendingTime := limit)
    case Tick(ms) => s.(now := s.now + ms)
  }

  predicate ValidRun(s: State, steps: seq<Step>)
    decreases |steps|
  {
    steps == [] || (Enabled(s, steps[0]) && ValidRun(Next(s, steps[0]), steps[1..]))
  }

  function Run(s: State, steps: seq<Step>): State
    requires ValidRun(s, steps)
    decreases |steps|
  {
    if steps == [] then s else Run(Next(s, steps[0]), steps[1..])
  }

  /** No later fetch was started for the key of this one. */
  predicate NewestForKey(s: State, f: nat) {
    f < |s.fetches| && forall g :: f < g < |s.fetches| ==> s.fetches[g].key != s.fetches[f].key
  }

  /** Every entry names the newest fetch of its key, at the time that fetch started, and it is not yet cleaned up. */
  predicate Inv(s: State) {
    forall key :: key in s.pending ==>
      var e := s.pending[key];
      NewestForKey(s, e.fetch) && s.fetches[e.fetch].key == key && e.timestamp == s.fetches[e.fetch].startedAt &&
      s.fetches[e.fetch].phase != Cleaned
  }

  lemma StepKeepsInv(s: State, step: Step)
    requires Inv(s) && Enabled(s, step)
    ensures Inv(Next(s, step))
  {
  }

  lemma {:induction false} RunKeepsInv(s: State, steps: seq<Step>)
    requires Inv(s) && ValidRun(s, steps)
    ensures Inv(Run(s, steps))
    decreases |steps|
  {
    if steps != [] {
      StepKeepsInv(s, steps[0]);
      RunKeepsInv(Next(s, steps[0]), steps[1..]);
    }
  }

  /** Once every fetch has settled and every timer has fired, only fetches rejected with null or undefined are still in the map. */
  lemma QuiescentMap(s: State, steps: seq<Step>)
    requires Inv(s) && ValidRun(s, steps)
    requires forall f :: 0 <= f < |Run(s, steps).fetches| ==> Run(s, steps).fetches[f].phase in {Cleaned, Leaked}
    ensures var s' := Run(s, steps);
            && (forall key :: key in s'.pending ==> LeakedEntry(s', key))
            && (s'.pending == map[] <==> forall key :: !LeakedEntry(s', key))
  {
    RunKeepsInv(s, steps);
    var s' := Run(s, steps);
    assert s'.pending == map[] <==> forall key :: key !in s'.pending;
    forall key | key in s'.pending ensures LeakedEntry(s', key) {
      assert s'.fetches[s'.pending[key].fetch].phase in {Cleaned, Leaked};
    }
  }

  /**
   A caller gets a fetch for its own key: one that started less than the limit ago, exactly when there
   is a reusable entry, and otherwise one that starts now.
   */
  lemma CallersShareRecentFetches(s: State, key: string)
    requires Inv(s)
    ensures var (s', promise) := Deduplicate(s, key, true);
            && promise.Some? && NewestForKey(s', promise.value) && s'.fetches[promise.value].key == key
            && (Reusable(s, key) <==> s' == s)
            && (Reusable(s, key) ==> promise.value < |s.fetches| && s.now - s.fetches[promise.value].startedAt < s.maxPendingTime)
            && (!Reusable(s, key) ==> promise.value == |s.fetches| && s'.fetches[promise.value].startedAt == s.now)
            && Reusable(s', key) == (Reusable(s, key) || s.maxPendingTime > 0)
  {
  }

  /** Where there is no reusable entry and the fetch function throws, its caller gets nothing, only an outdated entry of the key goes, and the next caller tries again. */
  lemma FailedStartLeavesNothing(s: State, key: string)
    requires Inv(s)
    ensures var (s', promise) := Deduplicate(s, key, false);
            && (promise.Some? <==> key in s.pending && s.now < s.fetches[s.pending[key].fetch].startedAt + s.maxPendingTime)
            && (promise.Some? ==> s' == s && promise == Some(s.pending[key].fetch))
            && (promise.None? ==> s'.fetches == s.fetches && s'.now == s.now && s'.maxPendingTime == s.maxPendingTime && !Reusable(s', key) &&
                                  forall k :: k in s'.pending <==> k in s.pending && k != key)
            && forall k :: k in s'.pending ==> s'.pending[k] == s.pending[k]
  {
  }

  /**
   A fetch that resolves, or rejects with an error, leaves the cache as it is and is cleaned up by its
   timer, which takes the entry of its key and no other; one that rejects with null or undefined never is.
   */
  lemma WhenAFetchIsCleaned(s: State, f: nat, outcome: Outcome)
    requires Enabled(s, SettleStep(f, outcome))
    ensures var s' := Next(s, SettleStep(f, outcome));
            && s'.pending == s.pending && s'.now == s.now
            && (Enabled(s', Timer(f)) <==> outcome == Resolves || outcome == RejectsWithError)
            && (Enabled(s', Timer(f)) ==>
                  var s'' := Next(s', Timer(f));
                  && (forall key :: key in s''.pending <==> key in s.pending && key != s.fetches[f].key)
                  && (forall key :: key in s''.pending ==> s''.pending[key] == s.pending[key])
                  && s''.now == s.now && s''.fetches[f].phase == Cleaned)
  {
  }

  /** Fetches are never forgotten; each is still under way until it settles, and settles and is cleaned up at most once. */
  lemma FetchesAdvance(s: State, step: Step, f: nat)
    requires Enabled(s, step) && f < |s.fetches|
    ensures var before, after := s.fetches[f], Next(s, step).fetches[f];
            && |s.fetches| <= |Next(s, step).fetches|
            && after.key == before.key && after.startedAt == before.startedAt
            && (before.phase == Unsettled ==> (after.phase == Unsettled <==> forall outcome :: step != SettleStep(f, outcome)))
            && (before.phase == TimerPending ==> after.phase == if step == Timer(f) then Cleaned else TimerPending)
            && (before.phase == Cleaned || before.phase == Leaked ==> after.phase == before.phase)
  {
  }

  // --- One fetch at a time --------------------------------------------------------------------

  predicate InUse(f: Fetch) { f.phase in {Unsettled, TimerPending} }

  /** The entry of this key names this fetch. */
  predicate Entered(s: State, f: nat)
    requires f < |s.fetches|
  {
    s.fetches[f].key in s.pending && s.pending[s.fetches[f].key].fetch == f
  }

  predicate EntryInUse(s: State, key: string) {
    key in s.pending && s.pending[key].fetch < |s.fetches| && InUse(s.fetches[s.pending[key].fetch])
  }

  /** A fetch in use can be found in the cache. */
  predicate Cached(s: State) { forall f :: 0 <= f < |s.fetches| && InUse(s.fetches[f]) ==> Entered(s, f) }

  /** A call that finds an expired entry of a fetch still in use, or a clear that hits one in use. */
  predicate Drops(s: State, step: Step) {
    match step
    case Call(key, _) => EntryInUse(s, key) && !Reusable(s, key)
    case ClearAll => exists key :: key in s.pending && EntryInUse(s, key)
    case ClearOne(key) => EntryInUse(s, key)
    case _ => false
  }

  lemma NoDropKeepsCached(s: State, step: Step)
    requires Inv(s) && Cached(s) && Enabled(s, step) && !Drops(s, step)
    ensures Cached(Next(s, step))
  {
    var s' := Next(s, step);
    forall f | 0 <= f < |s'.fetches| && InUse(s'.fetches[f]) ensures Entered(s', f) {
      if f < |s.fetches| {
        assert Entered(s, f) && EntryInUse(s, s.fetches[f].key);
      }
    }
  }

  lemma DropLosesFetch(s: State, step: Step, key: string)
    requires Inv(s) && Enabled(s, step) && EntryInUse(s, key)
    requires step == ClearAll || step == ClearOne(key) || (step.Call? && step.key == key && !Reusable(s, key))
    ensures !Cached(Next(s, step))
  {
    var s', f := Next(s, step), s.pending[key].fetch;
    assert s'.fetches[f] == s.fetches[f] && s.fetches[f].key == key;
    assert !Entered(s', f);
  }

  /** Fetches in use drop out of the cache exactly by such a step. */
  lemma WhenFetchesDropOut(s: State, step: Step)
    requires Inv(s) && Cached(s) && Enabled(s, step)
    ensures Cached(Next(s, step)) <==> !Drops(s, step)
  {
    if !Drops(s, step) {
      NoDropKeepsCached(s, step);
    } else if step == ClearAll {
      var key :| key in s.pending && EntryInUse(s, key);
      DropLosesFetch(s, step, key);
    } else {
      DropLosesFetch(s, step, step.key);
    }
  }

  predicate NothingDropped(s: State, steps: seq<Step>)
    requires ValidRun(s, steps)
    decreases |steps|
  {
    steps == [] || (!Drops(s, steps[0]) && NothingDropped(Next(s, steps[0]), steps[1..]))
  }

  /** In every run without such a step no key ever has two fetches in use. */
  lemma {:induction false} OneFetchPerKey(s: State, steps: seq<Step>)
    requires Inv(s) && Cached(s) && ValidRun(s, steps) && NothingDropped(s, steps)
    ensures var s' := Run(s, steps);
            Cached(s') &&
            forall f, g :: 0 <= f < g < |s'.fetches| && InUse(s'.fetches[f]) && InUse(s'.fetches[g]) ==> s'.fetches[f].key != s'.fetches[g].key
    decreases |steps|
  {
    if steps == [] {
      forall f, g | 0 <= f < g < |s.fetches| && InUse(s.fetches[f]) && InUse(s.fetches[g]) ensures s.fetches[f].key != s.fetches[g].key {
        assert Entered(s, f) && Entered(s, g);
      }
    } else {
      StepKeepsInv(s, steps[0]);
      NoDropKeepsCached(s, steps[0]);
      OneFetchPerKey(Next(s, steps[0]), steps[1..]);
      assert Run(s, steps) == Run(Next(s, steps[0]), steps[1..]);
    }
  }

  /** In particular if every fetch is over and cleaned up before it is as old as the limit, and nothing is cleared. */
  lemma TimelyDropsNothing(s: State, step: Step)
    requires Inv(s) && forall f :: 0 <= f < |s.fetches| && InUse(s.fetches[f]) ==> s.now - s.fetches[f].startedAt < s.maxPendingTime
    requires !step.ClearAll? && !step.ClearOne?
    ensures !Drops(s, step)
  {
  }

  // --- One young fetch at a time --------------------------------------------------------------

  /** In use and younger than the limit. */
  predicate Young(s: State, f: nat) {
    f < |s.fetches| && InUse(s.fetches[f]) && s.now - s.fetches[f].startedAt < s.maxPendingTime
  }

  predicate YoungEntry(s: State, key: string) { key in s.pending && Young(s, s.pending[key].fetch) }

  predicate YoungCached(s: State) { forall f :: 0 <= f < |s.fetches| && Young(s, f) ==> Entered(s, f) }

  /**
   A timer that fires on the young entry of a newer fetch, a clear that hits a young entry, or a longer
   limit under which a fetch that is not in the cache is young again.
   */
  predicate Uncaches(s: State, step: Step)
    requires Enabled(s, step)
  {
    match step
    case Timer(f) => YoungEntry(s, s.fetches[f].key) && s.pending[s.fetches[f].key].fetch != f
    case ClearAll => exists key :: key in s.pending && YoungEntry(s, key)
    case ClearOne(key) => YoungEntry(s, key)
    case SetMax(limit) => exists f :: 0 <= f < |s.fetches| && Young(s.(maxPendingTime := limit), f) && !Entered(s, f)
    case _ => false
  }

  lemma KeepsYoungCached(s: State, step: Step)
    requires Inv(s) && YoungCached(s) && Enabled(s, step) && !Uncaches(s, step)
    ensures YoungCached(Next(s, step))
  {
    var s' := Next(s, step);
    forall f | 0 <= f < |s'.fetches| && Young(s', f) ensures Entered(s', f) {
      if f < |s.fetches| && !step.SetMax? {
        assert Young(s, f) && Entered(s, f) && YoungEntry(s, s.fetches[f].key);
      }
    }
  }

  lemma UncachingLosesFetch(s: State, step: Step, key: string)
    requires Inv(s) && Enabled(s, step) && YoungEntry(s, key)
    requires step == ClearAll || step == ClearOne(key) ||
             (step.Timer? && s.fetches[step.f].key == key && s.pending[key].fetch != step.f)
    ensures !YoungCached(Next(s, step))
  {
    var s', f := Next(s, step), s.pending[key].fetch;
    assert s'.fetches[f] == s.fetches[f] && s.fetches[f].key == key && Young(s', f);
    assert !Entered(s', f);
  }

  /** A young fetch falls out of the cache, so that the next call for its key starts another beside it, exactly by such a step. */
  lemma WhenYoungFetchesFallOut(s: State, step: Step)
    requires Inv(s) && YoungCached(s) && Enabled(s, step)
    ensures YoungCached(Next(s, step)) <==> !Uncaches(s, step)
  {
    if !Uncaches(s, step) {
      KeepsYoungCached(s, step);
    } else {
      match step
      case ClearAll =>
        var key :| key in s.pending && YoungEntry(s, key);
        UncachingLosesFetch(s, step, key);
      case ClearOne(key) => UncachingLosesFetch(s, step, key);
      case Timer(f) => UncachingLosesFetch(s, step, s.fetches[f].key);
      case SetMax(limit) =>
        var f :| 0 <= f < |s.fetches| && Young(s.(maxPendingTime := limit), f) && !Entered(s, f);
        assert !Entered(Next(s, step), f);
      case _ =>
    }
  }

  /** What a caller risks then: a call starts a second young fetch exactly if one of its key is young and not in the cache. */
  lemma WhenCallsDuplicate(s: State, key: string)
    requires Inv(s) && s.maxPendingTime > 0
    ensures var s' := Next(s, Call(key, true));
            (exists f :: 0 <= f < |s.fetches| && Young(s', f) && s.fetches[f].key == key && |s'.fetches| > |s.fetches|) <==>
            (!Reusable(s, key) && exists f :: 0 <= f < |s.fetches| && Young(s, f) && s.fetches[f].key == key)
  {
    var s' := Next(s, Call(key, true));
    assert forall f :: 0 <= f < |s.fetches| ==> s'.fetches[f] == s.fetches[f];
    assert forall f :: 0 <= f < |s.fetches| ==> (Young(s', f) <==> Young(s, f));
  }

  predicate NothingUncached(s: State, steps: seq<Step>)
    requires ValidRun(s, steps)
    decreases |steps|
  {
    steps == [] || (!Uncaches(s, steps[0]) && NothingUncached(Next(s, steps[0]), steps[1..]))
  }

  /** In every run without such a step no key ever has two young fetches in use, however late fetches end. */
  lemma {:induction false} OneYoungFetchPerKey(s: State, steps: seq<Step>)
    requires Inv(s) && YoungCached(s) && ValidRun(s, steps) && NothingUncached(s, steps)
    ensures var s' := Run(s, steps);
            YoungCached(s') && forall f, g :: 0 <= f < g < |s'.fetches| && Young(s', f) && Young(s', g) ==> s'.fetches[f].key != s'.fetches[g].key
    decreases |steps|
  {
    if steps == [] {
      forall f, g | 0 <= f < g < |s.fetches| && Young(s, f) && Young(s, g) ensures s.fetches[f].key != s.fetches[g].key {
        assert Entered(s, f) && Entered(s, g);
      }
    } else {
      StepKeepsInv(s, steps[0]);
      KeepsYoungCached(s, steps[0]);
      OneYoungFetchPerKey(Next(s, steps[0]), steps[1..]);
      assert Run(s, steps) == Run(Next(s, steps[0]), steps[1..]);
    }
  }

  // --- Entries that stay ----------------------------------------------------------------------

  predicate LeakedEntry(s: State, key: string) {
    key in s.pending && s.pending[key].fetch < |s.fetches| && s.fetches[s.pending[key].fetch].phase == Leaked
  }

  /** Only a clear, a call after the limit, or the timer of another fetch of the key takes such an entry away. */
  predicate Removes(s: State, step: Step, key: string)
    requires Enabled(s, step)
  {
    match step
    case ClearAll => true
    case ClearOne(k) => k == key
    case Call(k, _) => k == key && !Reusable(s, key)
    case Timer(f) => s.fetches[f].key == key
    case _ => false
  }

  lemma WhenLeakedEntriesStay(s: State, step: Step, key: string)
    requires Inv(s) && Enabled(s, step) && LeakedEntry(s, key)
    ensures LeakedEntry(Next(s, step), key) && Next(s, step).pending[key] == s.pending[key] <==> !Removes(s, step, key)
  {
    var s' := Next(s, step);
    if !Removes(s, step, key) {
      assert key in s'.pending && s'.pending[key] == s.pending[key];
      assert s'.fetches[s.pending[key].fetch] == s.fetches[s.pending[key].fetch];
    } else if step.Call? && step.starts {
      assert s'.pending[key].fetch == |s.fetches|;
    }
  }

  predicate NothingRemoved(s: State, steps: seq<Step>, key: string)
    requires ValidRun(s, steps)
    decreases |steps|
  {
    steps == [] || (!Removes(s, steps[0], key) && NothingRemoved(Next(s, steps[0]), steps[1..], key))
  }

  /** However long the run and however many timers fire: without such a step the entry is never cleaned up. */
  lemma {:induction false} LeakedEntriesStay(s: State, steps: seq<Step>, key: string)
    requires Inv(s) && LeakedEntry(s, key) && ValidRun(s, steps) && NothingRemoved(s, steps, key)
    ensures LeakedEntry(Run(s, steps), key) && Run(s, steps).pending[key] == s.pending[key]
    decreases |steps|
  {
    if steps != [] {
      WhenLeakedEntriesStay(s, steps[0], key);
      StepKeepsInv(s, steps[0]);
      LeakedEntriesStay(Next(s, steps[0]), steps[1..], key);
    }
  }

  /** One call whose fetch is rejected with undefined: nothing is unsettled, no timer is pending, and the map is not empty. */
  lemma LeakedEntryRemains(key: string, max: int)
    ensures var s0 := State(map[], [], 0, max);
            var s1 := Next(s0, Call(key, true));
            && Enabled(s1, SettleStep(0, RejectsWithNullish))
            && var s2 := Next(s1, SettleStep(0, RejectsWithNullish));
            && s2.fetches == [Fetch(key, 0, Leaked)] && s2.pending == map[key := Entry(0, 0)] && LeakedEntry(s2, key)
  {
  }

  // --- Stray timers ---------------------------------------------------------------------------

  /** A timer drops a fetch other than its own from the cache exactly when a newer fetch of the key has taken the entry. */
  lemma StrayTimer(s: State, f: nat)
    requires Inv(s) && Enabled(s, Timer(f))
    ensures (exists key :: key in s.pending && key !in FireTimer(s, f).pending && s.pending[key].fetch != f) <==>
            s.fetches[f].key in s.pending && s.pending[s.fetches[f].key].fetch > f
  {
  }

  /** Such a timer lets two fetches for one key run at the same moment, both younger than the limit. */
  lemma StrayTimerDuplicates(key: string, max: nat)
    requires max > 0
    ensures var s1 := Next(State(map[], [], 0, max), Call(key, true));
            var s2 := Next(s1, Tick(max));
            var s3 := Next(s2, Call(key, true));
            && Enabled(s3, SettleStep(0, Resolves))
            && var s4 := Next(s3, SettleStep(0, Resolves));
            && Enabled(s4, Timer(0))
            && var s5 := Next(s4, Timer(0));
            var s6 := Next(s5, Call(key, true));
            s6.fetches == [Fetch(key, 0, Cleaned), Fetch(key, max, Unsettled), Fetch(key, max, Unsettled)] && s6.now == max
  {
  }
}
