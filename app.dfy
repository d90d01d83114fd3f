/** The query-run state machine of the main component. The two awaited client
    calls of `handleSearch` are flattened into events: a run is identified by
    the number of its abort controller, `aborted` holds the controllers whose
    signal has fired, and `pending` holds the suspended `handleSearch` calls
    together with the await they are suspended at. */
module App {
  import opened Wrappers
  import opened Strings
  import opened SearchTypes
  import KeyStore

  /** A thrown value as the `catch` block sees it: its `name` property (absent
      when it has none), whether it is an `Error` instance, and its message. */
  datatype Thrown = Thrown(name: Option<string>, isError: bool, message: string)

  const GenericMessage := "An error occurred"

  /** `err?.name === 'AbortError'`. */
  predicate IsAbort(t: Thrown) {
    t.name == Some("AbortError")
  }

  /** What the `catch` block writes into `error`: nothing for an abort, the
      message of an `Error`, and a fixed text for any other thrown value. */
  function ErrorText(t: Thrown): (r: Option<string>)
    ensures r.None? <==> IsAbort(t)
    ensures r.Some? ==> r.value == (if t.isError then t.message else GenericMessage)
  {
    if IsAbort(t) then None
    else if t.isError then Some(t.message)
    else Some(GenericMessage)
  }

  /** Where a suspended `handleSearch` call waits, with the request it issued. */
  datatype Stage =
    | AwaitingSearch(query: string, source: SearchSource)
    | AwaitingSynthesis(query: string, results: seq<SearchResult>, source: SearchSource)

  /** The component's state. `current` is `controllerRef.current`. */
  datatype AppState = AppState(
    query: string,
    source: SearchSource,
    results: seq<SearchResult>,
    aiResponse: string,
    loading: bool,
    error: string,
    current: Option<nat>,
    aborted: set<nat>,
    pending: map<nat, Stage>,
    nextRun: nat)

  /** The state on first render. */
  const Initial := AppState("", Search, [], "", false, "", None, {}, map[], 0)

  /** User actions and the settling of awaited client calls. */
  datatype Event =
    | QueryChange(text: string)
    | SourceChange(newSource: SearchSource)
    | StartSearch
    | SearchDone(run: nat, found: seq<SearchResult>)
    | SearchFail(run: nat, thrown: Thrown)
    | SynthDone(run: nat, response: string)
    | SynthFail(run: nat, thrown: Thrown)

  predicate IsRunEvent(e: Event) {
    e.SearchDone? || e.SearchFail? || e.SynthDone? || e.SynthFail?
  }

  /** `controllerRef.current?.abort()`. */
  function AbortCurrent(s: AppState): set<nat> {
    if s.current.Some? then s.aborted + {s.current.value} else s.aborted
  }

  /** The `catch` block. */
  function AfterCatch(s: AppState, t: Thrown): (r: AppState)
    ensures r == s.(error := r.error)
    ensures IsAbort(t) ==> r == s
    ensures !IsAbort(t) ==> r.error == (if t.isError then t.message else GenericMessage)
  {
    match ErrorText(t)
    case None => s
    case Some(m) => s.(error := m)
  }

  /** The `finally` block, and the end of the suspended call. */
  function AfterFinally(s: AppState, run: nat): (r: AppState)
    ensures r == s.(pending := r.pending, loading := r.loading)
    ensures run !in r.pending && r.pending.Keys == s.pending.Keys - {run}
    ensures r.pending == s.pending - {run}
    ensures !r.loading <==> run !in s.aborted || !s.loading
  {
    s.(pending := s.pending - {run}, loading := if run in s.aborted then s.loading else false)
  }

  predicate AwaitsSearch(s: AppState, run: nat) {
    run in s.pending && s.pending[run].AwaitingSearch?
  }

  predicate AwaitsSynthesis(s: AppState, run: nat) {
    run in s.pending && s.pending[run].AwaitingSynthesis?
  }

  /** `handleSourceChange(src)`. */
  function SourceChanged(s: AppState, src: SearchSource): (r: AppState)
    ensures r.current == None && r.source == src && r.loading == s.loading && r.pending == s.pending
    ensures Shown(r) == Display([], "", "", s.loading)
    ensures s.current.Some? ==> s.current.value in r.aborted
    ensures Inv(s) ==> Inv(r) && forall q :: q in r.pending ==> q in r.aborted
  {
    s.(aborted := AbortCurrent(s), current := None, source := src,
       results := [], aiResponse := "", error := "")
  }

  /** `handleSearch()` up to its first await, on a non-blank query. */
  function Started(s: AppState): (r: AppState)
    ensures r.current == Some(s.nextRun) && s.nextRun in r.pending
    ensures Shown(r) == Display([], "", "", true)
    ensures s.current.Some? ==> s.current.value in r.aborted
    ensures Inv(s) ==> Inv(r) && s.nextRun !in s.pending && s.nextRun !in r.aborted
    ensures Inv(s) ==> forall q :: q in r.pending && q != s.nextRun ==> q in r.aborted
  {
    s.(aborted := AbortCurrent(s), current := Some(s.nextRun), nextRun := s.nextRun + 1,
       loading := true, error := "", aiResponse := "", results := [],
       pending := s.pending[s.nextRun := AwaitingSearch(s.query, s.source)])
  }

  /** The search of `run` resolved: store the results and issue the synthesis. */
  function SearchResolved(s: AppState, run: nat, found: seq<SearchResult>): (r: AppState)
    requires AwaitsSearch(s, run)
    ensures r.results == found && AwaitsSynthesis(r, run)
    ensures r.pending[run].results == r.results
    ensures r.pending[run].query == s.pending[run].query && r.pending[run].source == s.pending[run].source
    ensures r.pending.Keys == s.pending.Keys
    ensures r == s.(results := found, pending := r.pending)
  {
    var st := s.pending[run];
    s.(results := found, pending := s.pending[run := AwaitingSynthesis(st.query, found, st.source)])
  }

  /** The run event can be delivered: its call is suspended at the matching await. */
  predicate Deliverable(s: AppState, e: Event) {
    match e
    case SearchDone(run, _) => AwaitsSearch(s, run)
    case SearchFail(run, _) => AwaitsSearch(s, run)
    case SynthDone(run, _) => AwaitsSynthesis(s, run)
    case SynthFail(run, _) => AwaitsSynthesis(s, run)
    case _ => false
  }

  /** The effect of one event. An event for a call that is not suspended at the
      matching await cannot be delivered and changes nothing. */
  function Step(s: AppState, e: Event): (r: AppState)
    ensures IsRunEvent(e) ==> r.current == s.current && r.aborted == s.aborted
    ensures IsRunEvent(e) ==> r.query == s.query && r.source == s.source && r.nextRun == s.nextRun
    ensures IsRunEvent(e) && !Deliverable(s, e) ==> r == s
    ensures e.QueryChange? ==> r == s.(query := e.text)
  {
    match e
    case QueryChange(text) => s.(query := text)
    case SourceChange(src) => SourceChanged(s, src)
    case StartSearch => if Trim(s.query) == "" then s else Started(s)
    case SearchDone(run, found) =>
      if AwaitsSearch(s, run) then SearchResolved(s, run, found) else s
    case SearchFail(run, t) =>
      if AwaitsSearch(s, run) then AfterFinally(AfterCatch(s, t), run) else s
    case SynthDone(run, response) =>
      if AwaitsSynthesis(s, run) then AfterFinally(s.(aiResponse := response), run) else s
    case SynthFail(run, t) =>
      if AwaitsSynthesis(s, run) then AfterFinally(AfterCatch(s, t), run) else s
  }

  /** The invariant of the controller bookkeeping: run numbers are below the
      counter, the current controller is not aborted, and every suspended call
      other than the current one has an aborted controller. */
  ghost predicate Inv(s: AppState) {
    && (forall r :: r in s.pending ==> r < s.nextRun)
    && (forall r :: r in s.aborted ==> r < s.nextRun)
    && (s.current.Some? ==> s.current.value < s.nextRun && s.current.value !in s.aborted)
    && (forall r :: r in s.pending && s.current != Some(r) ==> r in s.aborted)
  }

  /** Every event keeps the invariant, and an aborted controller stays aborted. */
  lemma StepKeepsInv(s: AppState, e: Event)
    requires Inv(s)
    ensures Inv(Step(s, e))
    ensures s.aborted <= Step(s, e).aborted
  {
  }

  /** A search on a blank query changes nothing: no abort, no reset, no run. */
  lemma BlankQueryIsNoOp(s: AppState)
    requires AllWhite(s.query)
    ensures Step(s, StartSearch) == s
  {
    TrimEmptyIffBlank(s.query);
  }

  /** A search on a non-blank query aborts the previous controller, makes a fresh
      one current, sets `loading`, clears the display, and issues the search for
      the current query and source. */
  lemma StartSearchEffect(s: AppState)
    requires Inv(s) && !AllWhite(s.query)
    ensures var t := Step(s, StartSearch);
      && t.current == Some(s.nextRun)
      && s.nextRun !in s.pending && s.nextRun !in s.aborted
      && t.aborted == AbortCurrent(s)
      && t.loading && t.error == "" && t.aiResponse == "" && t.results == []
      && t.pending == s.pending[s.nextRun := AwaitingSearch(s.query, s.source)]
  {
    TrimEmptyIffBlank(s.query);
  }

  /** `loading` is cleared when a run settles exactly if that run's controller was
      not aborted; an aborted run leaves it as it was. */
  lemma SettleClearsLoadingIffNotAborted(s: AppState, e: Event)
    requires Deliverable(s, e) && !e.SearchDone?
    ensures !Step(s, e).loading <==> e.run !in s.aborted || !s.loading
    ensures e.run !in Step(s, e).pending
  {
  }

  // ---- what is displayed

  /** The displayed parts of the state. */
  datatype Display = Display(results: seq<SearchResult>, aiResponse: string, error: string, loading: bool)

  function Shown(s: AppState): Display {
    Display(s.results, s.aiResponse, s.error, s.loading)
  }

  /** Which blocks of the page are rendered. */
  datatype Screen = Screen(errorBanner: bool, spinner: bool, answer: bool, resultList: bool, placeholder: bool)

  /** The render conditions: the result list and the empty-state placeholder are
      never both shown; the spinner shows exactly while loading, and then neither
      is shown, nor the answer; the error banner shows exactly when there is an
      error text; and with no error and not loading exactly one of list and
      placeholder is shown. */
  function View(s: AppState): (v: Screen)
    ensures !(v.resultList && v.placeholder)
    ensures v.spinner ==> !v.resultList && !v.placeholder && !v.answer
    ensures !v.spinner && !v.errorBanner ==> v.resultList != v.placeholder
    ensures v.resultList ==> |s.results| > 0
    ensures v.answer ==> s.aiResponse != ""
    ensures v.spinner <==> s.loading
    ensures v.errorBanner <==> s.error != ""
    ensures s.loading ==> !v.resultList && !v.placeholder && !v.answer
    ensures !s.loading ==> (v.answer <==> s.aiResponse != "") && (v.resultList <==> |s.results| > 0)
    ensures !s.loading && s.error == "" ==> v.resultList != v.placeholder
    ensures v.placeholder ==> !v.errorBanner && |s.results| == 0
  {
    Screen(
      errorBanner := s.error != "",
      spinner := s.loading,
      answer := s.aiResponse != "" && !s.loading,
      resultList := |s.results| > 0 && !s.loading,
      placeholder := !s.loading && |s.results| == 0 && s.error == "")
  }

  /** A missing-key error as the `catch` block sees it: `new Error(message)`. */
  function KeyErrorThrown(k: KeyStore.KeyError): Thrown {
    Thrown(Some("Error"), true, k.Message())
  }

  /** Which client call throws a missing-key error is decided outside the model, so
      both are covered: a search or a synthesis of the current run that rejects
      with it ends the run showing the error's message beside whatever results
      and answer are stored: after a synthesis rejection these are the run's
      search results. */
  lemma MissingKeyIsShown(s: AppState, e: Event, k: KeyStore.KeyError)
    requires Inv(s) && Deliverable(s, e) && (e.SearchFail? || e.SynthFail?)
    requires e.thrown == KeyErrorThrown(k) && s.current == Some(e.run)
    ensures Shown(Step(s, e)) == Display(s.results, s.aiResponse, k.Message(), false)
    ensures var v := View(Step(s, e));
      v.errorBanner && !v.spinner && (v.resultList <==> |s.results| > 0)
  {
  }

  // ---- last run wins

  /** Every event of the trace, in order. */
  function Run(s: AppState, evs: seq<Event>): AppState
    decreases |evs|
  {
    if evs == [] then s else Run(Step(s, evs[0]), evs[1..])
  }

  /** The clients' contract with the abort signal: once a run's controller is
      aborted, its pending call settles only by rejecting with an AbortError. */
  predicate AbortDelivered(s: AppState, e: Event) {
    IsRunEvent(e) && e.run in s.aborted ==> (e.SearchFail? || e.SynthFail?) && IsAbort(e.thrown)
  }

  /** The clients keep that contract all along the trace. */
  predicate Environment(s: AppState, evs: seq<Event>)
    decreases |evs|
  {
    evs == [] || (AbortDelivered(s, evs[0]) && Environment(Step(s, evs[0]), evs[1..]))
  }

  predicate NoUserEvents(evs: seq<Event>) {
    forall i :: 0 <= i < |evs| ==> IsRunEvent(evs[i])
  }

  /** The events of the trace that belong to the current run. */
  function OfRun(evs: seq<Event>, current: Option<nat>): seq<Event> {
    if evs == [] then []
    else (if IsRunEvent(evs[0]) && current == Some(evs[0].run) then [evs[0]] else []) + OfRun(evs[1..], current)
  }

  /** A superseded run's settling, with the abort delivered, leaves the display
      and the invariant as they are. */
  lemma StaleEventInvisible(s: AppState, e: Event)
    requires Inv(s) && IsRunEvent(e) && s.current != Some(e.run) && AbortDelivered(s, e)
    ensures Shown(Step(s, e)) == Shown(s)
    ensures Step(s, e).current == s.current
  {
  }

  /** Two states that show the same, agree on the current run, and the first of
      which is consistent. */
  ghost predicate Agree(s1: AppState, s2: AppState) {
    && Inv(s1)
    && Shown(s1) == Shown(s2)
    && s1.current == s2.current
    && (s1.current.Some? ==>
          var r := s1.current.value;
          && r !in s2.aborted
          && (r in s1.pending <==> r in s2.pending)
          && (r in s1.pending ==> s1.pending[r] == s2.pending[r]))
  }

  /** An event of the current run takes agreeing states to agreeing states. */
  lemma AgreeStepLive(s1: AppState, s2: AppState, e: Event)
    requires Agree(s1, s2) && IsRunEvent(e) && s1.current == Some(e.run)
    ensures Agree(Step(s1, e), Step(s2, e))
  {
    StepKeepsInv(s1, e);
  }

  /** An event of a superseded run, with the abort delivered, keeps agreement. */
  lemma AgreeStepStale(s1: AppState, s2: AppState, e: Event)
    requires Agree(s1, s2) && IsRunEvent(e) && s1.current != Some(e.run) && AbortDelivered(s1, e)
    ensures Agree(Step(s1, e), s2)
  {
    StepKeepsInv(s1, e);
    StaleEventInvisible(s1, e);
  }

  lemma {:induction false} AgreeRun(s1: AppState, s2: AppState, evs: seq<Event>)
    requires Agree(s1, s2) && NoUserEvents(evs) && Environment(s1, evs)
    ensures Shown(Run(s1, evs)) == Shown(Run(s2, OfRun(evs, s1.current)))
    decreases |evs|
  {
    if evs != [] {
      var e := evs[0];
      var rest := OfRun(evs[1..], s1.current);
      assert NoUserEvents(evs[1..]);
      if s1.current == Some(e.run) {
        assert OfRun(evs, s1.current) == [e] + rest;
        assert ([e] + rest)[1..] == rest;
        AgreeStepLive(s1, s2, e);
        AgreeRun(Step(s1, e), Step(s2, e), evs[1..]);
      } else {
        assert OfRun(evs, s1.current) == rest;
        AgreeStepStale(s1, s2, e);
        AgreeRun(Step(s1, e), s2, evs[1..]);
      }
    }
  }

  /** Last run wins: while the user does nothing, and provided the clients reject
      with an AbortError once their signal is aborted, the display ends up as if
      only the current run's calls had settled; superseded runs are invisible. */
  lemma LastRunWins(s: AppState, evs: seq<Event>)
    requires Inv(s) && NoUserEvents(evs) && Environment(s, evs)
    ensures Shown(Run(s, evs)) == Shown(Run(s, OfRun(evs, s.current)))
  {
    AgreeRun(s, s, evs);
  }

  /** After a source change no run is current, so, under the same proviso, no
      settling call changes the display; in particular a spinner that was on
      stays on, since the aborted run's `finally` skips `setLoading(false)`. */
  lemma SourceChangeFreezesDisplay(s: AppState, src: SearchSource, evs: seq<Event>)
    requires Inv(s) && NoUserEvents(evs) && Environment(Step(s, SourceChange(src)), evs)
    ensures Shown(Run(Step(s, SourceChange(src)), evs)) == Display([], "", "", s.loading)
  {
    var t := Step(s, SourceChange(src));
    StepKeepsInv(s, SourceChange(src));
    LastRunWins(t, evs);
    assert OfRun(evs, None) == [] by { NoRunOfNone(evs); }
  }

  lemma {:induction false} NoRunOfNone(evs: seq<Event>)
    ensures OfRun(evs, None) == []
  {
    if evs != [] { NoRunOfNone(evs[1..]); }
  }

  /** Without that proviso the code shows stale data: a superseded run whose
      search still resolves writes its results over the display. */
  lemma StaleSearchResultIsShown(s: AppState, run: nat, found: seq<SearchResult>)
    requires AwaitsSearch(s, run) && run in s.aborted
    ensures Step(s, SearchDone(run, found)).results == found
    ensures !AbortDelivered(s, SearchDone(run, found))
  {
  }

  /** A run that succeeds end to end: the synthesis request carries exactly the
      search results, and the final state shows those results with the answer,
      no error and no spinner. */
  lemma CompletedRun(s: AppState, found: seq<SearchResult>, response: string)
    requires Inv(s) && !AllWhite(s.query)
    ensures var r := s.nextRun;
      var s1 := Step(s, StartSearch);
      var s2 := Step(s1, SearchDone(r, found));
      var s3 := Step(s2, SynthDone(r, response));
      && r in s2.pending && s2.pending[r] == AwaitingSynthesis(s.query, found, s.source)
      && s2.results == found
      && Shown(s3) == Display(found, response, "", false)
      && s3.current == Some(r) && r !in s3.pending
  {
    TrimEmptyIffBlank(s.query);
    var r := s.nextRun;
    var s1 := Step(s, StartSearch);
    assert s1 == Started(s);
    assert r !in s1.aborted && s1.pending[r] == AwaitingSearch(s.query, s.source);
    var s2 := Step(s1, SearchDone(r, found));
    assert s2 == SearchResolved(s1, r, found);
    var s3 := Step(s2, SynthDone(r, response));
    assert s3 == AfterFinally(s2.(aiResponse := response), r);
  }

  // ---- the component

  /** The component's state fields and its handlers. Each handler, and each
      resumption of a suspended `handleSearch` call, is one method. */
  class Component {
    var query: string
    var source: SearchSource
    var results: seq<SearchResult>
    var aiResponse: string
    var loading: bool
    var error: string
    var current: Option<nat>
    var aborted: set<nat>
    var pending: map<nat, Stage>
    var nextRun: nat

    function Model(): AppState
      reads this
    {
      AppState(query, source, results, aiResponse, loading, error, current, aborted, pending, nextRun)
    }

    ghost predicate Valid()
      reads this
    {
      Inv(Model())
    }

    constructor ()
      ensures Model() == Initial && Valid()
    {
      query, source, results, aiResponse, loading, error := "", Search, [], "", false, "";
      current, aborted, pending, nextRun := None, {}, map[], 0;
    }

    /** `setQuery(text)`. */
    method SetQuery(text: string)
      requires Valid()
      modifies this
      ensures Valid() && Model() == Step(old(Model()), QueryChange(text))
      ensures query == text
    {
      query := text;
    }

    /** `controllerRef.current?.abort()`. This is only a step inside a handler:
        on its own it breaks `Valid()`, since the current controller becomes
        aborted; the handler then replaces or drops it. */
    method AbortCurrentController()
      modifies this
      ensures aborted == AbortCurrent(old(Model()))
      ensures Model() == old(Model()).(aborted := aborted)
    {
      if current.Some? {
        aborted := aborted + {current.value};
      }
    }

    /** `handleSourceChange(newSource)`: abort the current controller, drop it,
        select the new source and clear results, answer and error. `loading`
        is not touched. */
    method HandleSourceChange(newSource: SearchSource)
      requires Valid()
      modifies this
      ensures Valid() && Model() == Step(old(Model()), SourceChange(newSource))
      ensures old(current).Some? ==> old(current).value in aborted
      ensures current == None && source == newSource
      ensures results == [] && aiResponse == "" && error == ""
      ensures loading == old(loading) && pending == old(pending)
    {
      AbortCurrentController();
      current := None;
      source := newSource;
      results := [];
      aiResponse := "";
      error := "";
    }

    /** `handleSearch()` up to its first await. Returns the new run, or `None`
        when the query is blank, in which case nothing changes. */
    method HandleSearch() returns (run: Option<nat>)
      requires Valid()
      modifies this
      ensures Valid() && Model() == Step(old(Model()), StartSearch)
      ensures run.None? <==> AllWhite(old(query))
      ensures run.None? ==> Model() == old(Model())
      ensures run.Some? ==>
        && run.value !in old(pending) && run.value !in aborted
        && current == run
        && (old(current).Some? ==> old(current).value in aborted)
        && loading && error == "" && aiResponse == "" && results == []
        && pending == old(pending)[run.value := AwaitingSearch(query, source)]
    {
      TrimEmptyIffBlank(query);
      if Trim(query) == "" {
        return None;
      }
      ghost var before := Model();
      StartSearchEffect(before);
      StepKeepsInv(before, StartSearch);
      run := BeginRun();
    }

    /** The synchronous part of `handleSearch()` on a non-blank query: abort the
        previous controller, install a fresh one, reset the display and issue
        the search. */
    method BeginRun() returns (run: Option<nat>)
      requires Valid()
      modifies this
      ensures Valid()
      ensures Model() == Started(old(Model())) && run == current
    {
      AbortCurrentController();
      var controller := nextRun;
      nextRun, current := nextRun + 1, Some(controller);
      loading, error, aiResponse, results := true, "", "", [];
      pending := pending[controller := AwaitingSearch(query, source)];
      run := Some(controller);
    }

    /** The `finally` block: clear `loading` unless this run was aborted; the
        call then ends. */
    method Finally(run: nat)
      requires Valid()
      modifies this
      ensures Valid()
      ensures Model() == AfterFinally(old(Model()), run)
    {
      if run !in aborted {
        loading := false;
      }
      pending := pending - {run};
    }

    /** The `catch` block. */
    method Catch(thrown: Thrown)
      requires Valid()
      modifies this
      ensures Valid()
      ensures Model() == AfterCatch(old(Model()), thrown)
    {
      if IsAbort(thrown) {
        return;
      }
      error := if thrown.isError then thrown.message else GenericMessage;
    }

    /** The search of `run` resolved: store its results, then issue the
        synthesis request, which is returned and carries exactly those results. */
    method OnSearchDone(run: nat, found: seq<SearchResult>) returns (request: Stage)
      requires Valid() && AwaitsSearch(Model(), run)
      modifies this
      ensures Valid() && Model() == Step(old(Model()), SearchDone(run, found))
      ensures results == found
      ensures request == AwaitingSynthesis(old(pending)[run].query, found, old(pending)[run].source)
      ensures pending == old(pending)[run := request]
    {
      results := found;
      var issued := pending[run];
      request := AwaitingSynthesis(issued.query, found, issued.source);
      pending := pending[run := request];
    }

    /** The search of `run` rejected: the search is never followed by synthesis. */
    method OnSearchFail(run: nat, thrown: Thrown)
      requires Valid() && AwaitsSearch(Model(), run)
      modifies this
      ensures Valid() && Model() == Step(old(Model()), SearchFail(run, thrown))
      ensures error == (if IsAbort(thrown) then old(error) else ErrorText(thrown).value)
      ensures results == old(results) && aiResponse == old(aiResponse)
      ensures loading == (old(loading) && run in aborted)
      ensures run !in pending
    {
      Catch(thrown);
      Finally(run);
    }

    /** The synthesis of `run` resolved: store the answer. */
    method OnSynthesisDone(run: nat, response: string)
      requires Valid() && AwaitsSynthesis(Model(), run)
      modifies this
      ensures Valid() && Model() == Step(old(Model()), SynthDone(run, response))
      ensures aiResponse == response && results == old(results) && error == old(error)
      ensures loading == (old(loading) && run in aborted)
      ensures run !in pending
    {
      aiResponse := response;
      Finally(run);
    }

    /** The synthesis of `run` rejected: the stored search results remain. */
    method OnSynthesisFail(run: nat, thrown: Thrown)
      requires Valid() && AwaitsSynthesis(Model(), run)
      modifies this
      ensures Valid() && Model() == Step(old(Model()), SynthFail(run, thrown))
      ensures error == (if IsAbort(thrown) then old(error) else ErrorText(thrown).value)
      ensures results == old(results) && aiResponse == old(aiResponse)
      ensures loading == (old(loading) && run in aborted)
      ensures run !in pending
    {
      Catch(thrown);
      Finally(run);
    }
  }
}
