/**
 * GalleryViewModel: the gallery's paging state machine. One ordered pin list
 * and its flags; `loadInitial`, `refresh` and `loadMoreIfNeeded` decide
 * whether to start a fetch, and each fetch's completion folds its page back
 * into the list.
 *
 * A coroutine is a pending slot holding the fetch it waits for. The page job
 * (`currentJob`) is one slot; the untracked refresh coroutine is another.
 * Cancelling a job empties its slot, so its result is never applied.
 * `viewModelScope` starts coroutines on the main thread immediately, so a
 * fetch's arguments are fixed when the operation is called.
 */
module Gallery {
  import opened Optional
  import opened Models
  import Repository

  const PAGE_SIZE: int := 20
  const LOAD_MORE_THRESHOLD: int := 5

  /** The arguments of one `fetchPins` call, and whether its page replaces the list. */
  datatype Fetch = Fetch(offset: int, limit: int, replace: bool)

  datatype JobKind = InitialLoad | LoadMore

  /** An active page job: which operation started it and the fetch it waits for. */
  datatype PageJob = PageJob(kind: JobKind, fetch: Fetch)

  datatype GalleryState = GalleryState(
    pins: seq<PinryPin>,
    hasMore: bool,
    loadingInitial: bool,
    refreshing: bool,
    errorMessage: Option<string>,
    currentJob: Option<PageJob>,
    refreshJob: Option<Fetch>)

  /** What a new view model holds: no pins, more to load, nothing running. */
  function InitialState(): (s: GalleryState)
    ensures s.pins == [] && s.hasMore && !s.loadingInitial && !s.refreshing
    ensures s.errorMessage.None? && s.currentJob.None? && s.refreshJob.None?
    ensures Valid(s)
  {
    GalleryState([], true, false, false, None, None, None)
  }

  /**
   * The flags agree with the running jobs: `refreshing` exactly while the
   * refresh coroutine runs, `loadingInitial` exactly while an initial load
   * runs, and each job waits for the fetch its operation issues.
   */
  ghost predicate Valid(s: GalleryState) {
    (s.refreshing <==> s.refreshJob.Some?)
    && (s.loadingInitial <==> s.currentJob.Some? && s.currentJob.value.kind == InitialLoad)
    && (s.refreshJob.Some? ==>
          s.refreshJob.value.offset == 0 && s.refreshJob.value.replace && s.refreshJob.value.limit >= PAGE_SIZE)
    && (s.currentJob.Some? ==>
          var job := s.currentJob.value;
          job.fetch.limit == PAGE_SIZE
          && (job.kind == InitialLoad <==> job.fetch.replace)
          && (job.kind == InitialLoad ==> job.fetch.offset == 0)
          && (job.kind == LoadMore ==> job.fetch.offset > 0))
  }

  /** `loadInitial(force)`: the new state and the fetch it starts, if any. */
  function LoadInitialStep(s: GalleryState, force: bool): (r: (GalleryState, Option<Fetch>))
    ensures !force && (|s.pins| > 0 || s.currentJob.Some?) ==> r == (s, None)
    ensures force || (|s.pins| == 0 && s.currentJob.None?) ==>
      var f := Fetch(0, PAGE_SIZE, true);
      r.1 == Some(f)
      && r.0 == s.(loadingInitial := true, errorMessage := None, currentJob := Some(PageJob(InitialLoad, f)))
    ensures Valid(s) ==> Valid(r.0)
  {
    if !force && (|s.pins| > 0 || s.currentJob.Some?) then
      (s, None)
    else
      var f := Fetch(0, PAGE_SIZE, true);
      (s.(loadingInitial := true, errorMessage := None, currentJob := Some(PageJob(InitialLoad, f))), Some(f))
  }

  /** `refresh()`: the new state and the fetch it starts, if any. The page job is not touched. */
  function RefreshStep(s: GalleryState): (r: (GalleryState, Option<Fetch>))
    ensures s.refreshing ==> r == (s, None)
    ensures !s.refreshing ==>
      var f := Fetch(0, if |s.pins| < PAGE_SIZE then PAGE_SIZE else |s.pins|, true);
      r.1 == Some(f) && r.0 == s.(refreshing := true, refreshJob := Some(f))
    ensures r.1.Some? ==> r.1.value.limit >= PAGE_SIZE && r.1.value.limit >= |s.pins|
    ensures r.0.currentJob == s.currentJob && r.0.pins == s.pins && r.0.hasMore == s.hasMore
    ensures Valid(s) ==> Valid(r.0)
  {
    if s.refreshing then
      (s, None)
    else
      var currentCount := if |s.pins| < PAGE_SIZE then PAGE_SIZE else |s.pins|;
      var f := Fetch(0, currentCount, true);
      (s.(refreshing := true, refreshJob := Some(f)), Some(f))
  }

  /** The guard of `loadMoreIfNeeded(position)`. */
  predicate ShouldLoadMore(s: GalleryState, position: int)
    ensures !s.hasMore || s.currentJob.Some? || s.pins == [] ==> !ShouldLoadMore(s, position)
    ensures position < |s.pins| - LOAD_MORE_THRESHOLD ==> !ShouldLoadMore(s, position)
    ensures s.hasMore && s.currentJob.None? && s.pins != [] && position >= |s.pins| - LOAD_MORE_THRESHOLD ==>
      ShouldLoadMore(s, position)
  {
    s.hasMore && s.currentJob.None? && |s.pins| != 0 && position >= |s.pins| - LOAD_MORE_THRESHOLD
  }

  /** `loadMoreIfNeeded(position)`: the next page starts right after the pins already held. */
  function LoadMoreStep(s: GalleryState, position: int): (r: (GalleryState, Option<Fetch>))
    ensures !ShouldLoadMore(s, position) ==> r == (s, None)
    ensures ShouldLoadMore(s, position) ==>
      var f := Fetch(|s.pins|, PAGE_SIZE, false);
      r.1 == Some(f) && r.0 == s.(currentJob := Some(PageJob(LoadMore, f)))
    ensures r.1.Some? ==> !r.1.value.replace && r.1.value.offset == |s.pins|
    ensures Valid(s) ==> Valid(r.0)
  {
    if !s.hasMore || s.currentJob.Some? then
      (s, None)
    else
      var total := |s.pins|;
      if total == 0 || position < total - LOAD_MORE_THRESHOLD then
        (s, None)
      else
        var f := Fetch(total, PAGE_SIZE, false);
        (s.(currentJob := Some(PageJob(LoadMore, f))), Some(f))
  }

  /**
   * `handleResult(result, replace)`: a success replaces the list or extends
   * it and takes the page's `hasMore`; a failure keeps the message, stops
   * paging, and empties the list only when it was to be replaced. The job
   * slots and the two loading flags are not this step's business.
   */
  function ApplyResult(s: GalleryState, result: Repository.PinFetchResult, replace: bool): (r: GalleryState)
    ensures result.success ==>
      r.pins == (if replace then [] else s.pins) + result.pins && r.hasMore == result.hasMore && r.errorMessage.None?
    ensures result.success && !replace ==> |r.pins| == |s.pins| + |result.pins| && r.pins[..|s.pins|] == s.pins
    ensures !result.success ==>
      r.errorMessage == result.error && !r.hasMore && r.pins == (if replace then [] else s.pins)
    ensures r.loadingInitial == s.loadingInitial && r.refreshing == s.refreshing
    ensures r.currentJob == s.currentJob && r.refreshJob == s.refreshJob
  {
    if result.success then
      var base := if replace then [] else s.pins;
      s.(hasMore := result.hasMore, errorMessage := None, pins := base + result.pins)
    else
      var failed := s.(errorMessage := result.error, hasMore := false);
      if replace then failed.(pins := []) else failed
  }

  /** The page job finishes: its result is applied, and an initial load also ends `loadingInitial`. */
  function CompletePageJobStep(s: GalleryState, result: Repository.PinFetchResult): (r: GalleryState)
    requires s.currentJob.Some?
    ensures r.currentJob.None? && r.refreshJob == s.refreshJob && r.refreshing == s.refreshing
    ensures s.currentJob.value.kind == InitialLoad ==> !r.loadingInitial
    ensures s.currentJob.value.kind == LoadMore ==> r.loadingInitial == s.loadingInitial
    ensures r.(loadingInitial := s.loadingInitial, currentJob := s.currentJob)
         == ApplyResult(s, result, s.currentJob.value.fetch.replace)
    ensures Valid(s) ==> Valid(r)
  {
    var job := s.currentJob.value;
    var applied := ApplyResult(s.(currentJob := None), result, job.fetch.replace);
    if job.kind == InitialLoad then applied.(loadingInitial := false) else applied
  }

  /** The refresh coroutine finishes: its page replaces the list and `refreshing` ends. */
  function CompleteRefreshStep(s: GalleryState, result: Repository.PinFetchResult): (r: GalleryState)
    requires s.refreshJob.Some?
    ensures !r.refreshing && r.refreshJob.None? && r.currentJob == s.currentJob
    ensures r.(refreshing := s.refreshing, refreshJob := s.refreshJob) == ApplyResult(s, result, true)
    ensures Valid(s) ==> Valid(r)
  {
    ApplyResult(s, result, true).(refreshing := false, refreshJob := None)
  }

  /** Something that happens to the view model: a call from the screen, or a job finishing. */
  datatype Event =
    | CallLoadInitial(force: bool)
    | CallRefresh
    | CallLoadMore(position: int)
    | PageJobDone(result: Repository.PinFetchResult)
    | RefreshDone(result: Repository.PinFetchResult)

  /** One event's effect. A job cannot finish without having been started, so such an event changes nothing. */
  function Step(s: GalleryState, e: Event): (r: (GalleryState, Option<Fetch>))
    ensures Valid(s) ==> Valid(r.0)
    ensures r.1.Some? ==> e.CallLoadInitial? || e.CallRefresh? || e.CallLoadMore?
  {
    match e
    case CallLoadInitial(force) => LoadInitialStep(s, force)
    case CallRefresh => RefreshStep(s)
    case CallLoadMore(position) => LoadMoreStep(s, position)
    case PageJobDone(result) => if s.currentJob.Some? then (CompletePageJobStep(s, result), None) else (s, None)
    case RefreshDone(result) => if s.refreshJob.Some? then (CompleteRefreshStep(s, result), None) else (s, None)
  }

  function FetchList(f: Option<Fetch>): seq<Fetch> {
    if f.Some? then [f.value] else []
  }

  /** A run of events from `s`: the final state and every fetch started, in order. */
  function Run(s: GalleryState, events: seq<Event>): (r: (GalleryState, seq<Fetch>))
    ensures |r.1| <= |events|
    ensures events == [] ==> r == (s, [])
    decreases |events|
  {
    if events == [] then (s, [])
    else
      var (s1, f) := Step(s, events[0]);
      var (s2, fs) := Run(s1, events[1..]);
      (s2, FetchList(f) + fs)
  }

  /** The validity of the flags survives every run. */
  lemma {:induction false} RunPreservesValid(s: GalleryState, events: seq<Event>)
    requires Valid(s)
    ensures Valid(Run(s, events).0)
    decreases |events|
  {
    if events != [] {
      RunPreservesValid(Step(s, events[0]).0, events[1..]);
    }
  }

  /** A finished job whose page says there is more: the only way paging resumes. */
  predicate RestoresPaging(e: Event) {
    (e.PageJobDone? || e.RefreshDone?) && e.result.success && e.result.hasMore
  }

  /**
   * Once paging has stopped (after a failure, or after the last page), no
   * run without a successful completion that reports more pages starts a
   * next-page fetch: every fetch it starts replaces the list.
   */
  lemma {:induction false} ExhaustedStaysExhausted(s: GalleryState, events: seq<Event>)
    requires !s.hasMore
    requires forall i :: 0 <= i < |events| ==> !RestoresPaging(events[i])
    ensures !Run(s, events).0.hasMore
    ensures forall f :: f in Run(s, events).1 ==> f.replace
    decreases |events|
  {
    if events != [] {
      var (s1, f) := Step(s, events[0]);
      assert !s1.hasMore;
      assert f.Some? ==> f.value.replace;
      assert forall i :: 0 <= i < |events[1..]| ==> !RestoresPaging(events[1..][i]) by {
        forall i | 0 <= i < |events[1..]|
          ensures !RestoresPaging(events[1..][i])
        {
          assert events[1..][i] == events[i + 1];
        }
      }
      ExhaustedStaysExhausted(s1, events[1..]);
    }
  }

  /** A failed result, whatever else happens to the jobs, stops paging. */
  lemma FailureStopsPaging(s: GalleryState, result: Repository.PinFetchResult, position: int)
    requires s.currentJob.Some? && !result.success
    ensures LoadMoreStep(CompletePageJobStep(s, result), position).1.None?
  {
  }

  /** A refresh does not hold up paging: the next-page decision is the same before and after it. */
  lemma RefreshDoesNotBlockPaging(s: GalleryState, position: int)
    ensures LoadMoreStep(RefreshStep(s).0, position).1 == LoadMoreStep(s, position).1
  {
  }

  /**
   * A second unforced `loadInitial()` right after the first changes nothing
   * and starts nothing, so the pair starts at most one fetch.
   */
  lemma {:induction false} SecondLoadInitialIsNoOp(s: GalleryState)
    ensures Run(s, [CallLoadInitial(false), CallLoadInitial(false)]) == Run(s, [CallLoadInitial(false)])
    ensures |Run(s, [CallLoadInitial(false), CallLoadInitial(false)]).1| <= 1
  {
    var (s1, f1) := LoadInitialStep(s, false);
    assert s1.currentJob.Some? || |s1.pins| > 0;
    assert LoadInitialStep(s1, false) == (s1, None);
    assert [CallLoadInitial(false), CallLoadInitial(false)][1..] == [CallLoadInitial(false)];
    assert Run(s1, [CallLoadInitial(false)]) == (s1, FetchList(None) + []);
  }

  /** Pins with ids that occur at most once. */
  predicate DistinctIds(pins: seq<PinryPin>) {
    forall i, j :: 0 <= i < j < |pins| ==> pins[i].id != pins[j].id
  }

  /** Appending a page whose ids are new keeps the list free of repeated ids. */
  lemma AppendKeepsDistinctIds(s: GalleryState, result: Repository.PinFetchResult)
    requires DistinctIds(s.pins) && DistinctIds(result.pins)
    requires forall p, q :: p in s.pins && q in result.pins ==> p.id != q.id
    ensures DistinctIds(ApplyResult(s, result, false).pins)
  {
    var r := ApplyResult(s, result, false).pins;
    if result.success {
      forall i, j | 0 <= i < j < |r|
        ensures r[i].id != r[j].id
      {
        if j >= |s.pins| && i < |s.pins| {
          assert r[i] in s.pins && r[j] == result.pins[j - |s.pins|];
        } else if i >= |s.pins| {
          assert r[i] == result.pins[i - |s.pins|] && r[j] == result.pins[j - |s.pins|];
        }
      }
    }
  }

  function SuccessPage(pins: seq<PinryPin>, hasMore: bool): Repository.PinFetchResult {
    Repository.PinFetchResult(true, pins, hasMore, 45, None)
  }

  /**
   * Forty-five pins in three pages: the initial load and two next-page
   * fetches, triggered from the last visible position, issue offsets 0, 20
   * and 40; the list ends up as the three pages in order and paging stops.
   */
  lemma {:induction false} ThreePageScenario(p1: seq<PinryPin>, p2: seq<PinryPin>, p3: seq<PinryPin>)
    requires |p1| == 20 && |p2| == 20 && |p3| == 5
    ensures
      var events := [CallLoadInitial(false), PageJobDone(SuccessPage(p1, true)),
                     CallLoadMore(19), PageJobDone(SuccessPage(p2, true)),
                     CallLoadMore(39), PageJobDone(SuccessPage(p3, false))];
      var (s, fetches) := Run(InitialState(), events);
      s.pins == p1 + p2 + p3 && |s.pins| == 45 && !s.hasMore && !s.loadingInitial && s.currentJob.None?
      && fetches == [Fetch(0, 20, true), Fetch(20, 20, false), Fetch(40, 20, false)]
  {
    var events := [CallLoadInitial(false), PageJobDone(SuccessPage(p1, true)),
                   CallLoadMore(19), PageJobDone(SuccessPage(p2, true)),
                   CallLoadMore(39), PageJobDone(SuccessPage(p3, false))];
    var s0 := InitialState();
    var (s1, f1) := Step(s0, events[0]);
    var (s2, f2) := Step(s1, events[1]);
    var (s3, f3) := Step(s2, events[2]);
    var (s4, f4) := Step(s3, events[3]);
    var (s5, f5) := Step(s4, events[4]);
    var (s6, f6) := Step(s5, events[5]);
    assert s2.pins == p1;
    assert s4.pins == p1 + p2;
    assert s6.pins == p1 + p2 + p3;
    forall k | 0 <= k < 6
      ensures events[k..][0] == events[k] && events[k..][1..] == events[k + 1..]
    {
    }
    assert Run(s6, events[6..]) == (s6, []);
    RunStep(s5, events[5..]);
    RunStep(s4, events[4..]);
    RunStep(s3, events[3..]);
    RunStep(s2, events[2..]);
    RunStep(s1, events[1..]);
    RunStep(s0, events);
    assert events[0..] == events;
  }

  /** A run is its first event's step followed by the run of the rest. */
  lemma RunStep(s: GalleryState, events: seq<Event>)
    requires events != []
    ensures Run(s, events).0 == Run(Step(s, events[0]).0, events[1..]).0
    ensures Run(s, events).1 == FetchList(Step(s, events[0]).1) + Run(Step(s, events[0]).0, events[1..]).1
  {
  }

  class GalleryViewModel {
    var pins: seq<PinryPin>
    var hasMore: bool
    var loadingInitial: bool
    var refreshing: bool
    var errorMessage: Option<string>
    var currentJob: Option<PageJob>
    var refreshJob: Option<Fetch>
    /** Every `fetchPins` call made so far, in order. */
    var issued: seq<Fetch>

    function State(): GalleryState
      reads this
    {
      GalleryState(pins, hasMore, loadingInitial, refreshing, errorMessage, currentJob, refreshJob)
    }

    constructor ()
      ensures State() == InitialState() && issued == []
    {
      pins := [];
      hasMore := true;
      loadingInitial := false;
      refreshing := false;
      errorMessage := None;
      currentJob := None;
      refreshJob := None;
      issued := [];
    }

    method LoadInitial(force: bool)
      modifies this
      ensures State() == LoadInitialStep(old(State()), force).0
      ensures issued == old(issued) + FetchList(LoadInitialStep(old(State()), force).1)
    {
      if !force && (|pins| > 0 || currentJob.Some?) {
        return;
      }
      loadingInitial := true;
      errorMessage := None;
      currentJob := None;
      var f := Fetch(0, PAGE_SIZE, true);
      issued := issued + [f];
      currentJob := Some(PageJob(InitialLoad, f));
    }

    method Refresh()
      modifies this
      ensures State() == RefreshStep(old(State())).0
      ensures issued == old(issued) + FetchList(RefreshStep(old(State())).1)
    {
      if refreshing {
        return;
      }
      refreshing := true;
      var currentCount := if |pins| < PAGE_SIZE then PAGE_SIZE else |pins|;
      var f := Fetch(0, currentCount, true);
      issued := issued + [f];
      refreshJob := Some(f);
    }

    method LoadMoreIfNeeded(position: int)
      modifies this
      ensures State() == LoadMoreStep(old(State()), position).0
      ensures issued == old(issued) + FetchList(LoadMoreStep(old(State()), position).1)
    {
      if !hasMore || currentJob.Some? {
        return;
      }
      var total := |pins|;
      if total == 0 || position < total - LOAD_MORE_THRESHOLD {
        return;
      }
      var f := Fetch(total, PAGE_SIZE, false);
      issued := issued + [f];
      currentJob := Some(PageJob(LoadMore, f));
    }

    method HandleResult(result: Repository.PinFetchResult, replace: bool)
      modifies this
      ensures State() == ApplyResult(old(State()), result, replace) && issued == old(issued)
    {
      if result.success {
        hasMore := result.hasMore;
        errorMessage := None;
        var base := if replace then [] else pins;
        pins := base + result.pins;
      } else {
        errorMessage := result.error;
        if replace {
          pins := [];
        }
        hasMore := false;
      }
    }

    /** The page job's fetch returned `result`. */
    method CompletePageJob(result: Repository.PinFetchResult)
      requires currentJob.Some?
      modifies this
      ensures State() == CompletePageJobStep(old(State()), result) && issued == old(issued)
    {
      var job := currentJob.value;
      currentJob := None;
      HandleResult(result, job.fetch.replace);
      if job.kind == InitialLoad {
        loadingInitial := false;
      }
    }

    /** The refresh coroutine's fetch returned `result`. */
    method CompleteRefresh(result: Repository.PinFetchResult)
      requires refreshJob.Some?
      modifies this
      ensures State() == CompleteRefreshStep(old(State()), result) && issued == old(issued)
    {
      HandleResult(result, true);
      refreshing := false;
      refreshJob := None;
    }
  }
}
