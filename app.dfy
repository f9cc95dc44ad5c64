/** The dashboard's state: the feed, the auto-refresh countdown and the
    analysis modal. `View` and `Step` give the meaning of every user or timer
    event as a function; the `Dashboard` class holds the same state in fields
    that its methods update, each proved to follow `Step`. */
module App {
  import opened Wrappers
  import opened Types
  import GeminiService

  /** Seconds between automatic reloads. */
  const AutoRefreshInterval: int := 60

  /** The countdown value after one second of a running timer: a reload
      restarts it at the full interval, otherwise it drops by one. */
  function NextTimeLeft(t: int): (r: int)
    ensures 1 <= t <= AutoRefreshInterval ==> 1 <= r <= AutoRefreshInterval
    ensures t <= AutoRefreshInterval ==> (t <= 1 <==> r == AutoRefreshInterval)
    ensures t > 1 ==> r == t - 1
  {
    if t <= 1 then AutoRefreshInterval else t - 1
  }

  datatype View = View(
    news: seq<NewsItem>,
    loadingNews: bool,
    autoRefresh: bool,
    timeLeft: int,
    modalOpen: bool,
    selectedNews: Option<NewsItem>,
    analysisResult: Option<AnalysisResult>,
    analyzing: bool)

  /** The one-second interval is installed only while auto-refresh is on and
      no load is in flight. */
  predicate TimerRunning(v: View) {
    v.autoRefresh && !v.loadingNews
  }

  predicate CountdownInRange(v: View) {
    1 <= v.timeLeft <= AutoRefreshInterval
  }

  datatype Event =
    | Tick                                   // one second elapses
    | LoadStarted                            // loadNews is entered
    | LoadSettled(fetched: Option<seq<NewsItem>>)   // None: the fetch threw
    | AnalysisStarted(item: NewsItem)        // handleAnalyze is entered
    | AnalysisSettled(outcome: Result<AnalysisResult, GeminiService.ServiceError>)
    | AutoRefreshToggled
    | ModalClosed

  /** The state after mounting, before the first load starts. */
  const Initial: View := View([], false, false, AutoRefreshInterval, false, None, None, false)

  /** The state after one event. */
  function Step(v: View, e: Event): (r: View)
    ensures CountdownInRange(v) ==> CountdownInRange(r)
    ensures r.autoRefresh && !v.autoRefresh ==> e.AutoRefreshToggled?
    ensures r.news != v.news ==> e.LoadSettled?
  {
    match e
    case Tick =>
      if !TimerRunning(v) then v
      else v.(timeLeft := NextTimeLeft(v.timeLeft), loadingNews := v.timeLeft <= 1)
    case LoadStarted =>
      v.(loadingNews := true)
    case LoadSettled(fetched) =>
      if fetched.Some? then v.(news := fetched.value, timeLeft := AutoRefreshInterval, loadingNews := false)
      else v.(loadingNews := false)
    case AnalysisStarted(item) =>
      v.(selectedNews := Some(item), analysisResult := None, modalOpen := true,
         analyzing := true, autoRefresh := false)
    case AnalysisSettled(outcome) =>
      if outcome.Success? then v.(analysisResult := Some(outcome.value), analyzing := false)
      else v.(analyzing := false)
    case AutoRefreshToggled =>
      v.(autoRefresh := !v.autoRefresh)
    case ModalClosed =>
      v.(modalOpen := false)
  }

  /** The state after a sequence of events. */
  function Run(v: View, events: seq<Event>): View
    decreases |events|
  {
    if events == [] then v else Run(Step(v, events[0]), events[1..])
  }

  lemma RunCons(v: View, e: Event, events: seq<Event>)
    ensures Run(v, [e] + events) == Run(Step(v, e), events)
  {
    assert ([e] + events)[0] == e && ([e] + events)[1..] == events;
  }

  predicate NoToggle(events: seq<Event>) {
    forall i :: 0 <= i < |events| ==> !events[i].AutoRefreshToggled?
  }

  /** From any countdown value in 1..60, every sequence of events keeps it there. */
  lemma {:induction false} RunKeepsCountdownInRange(v: View, events: seq<Event>)
    requires CountdownInRange(v)
    ensures CountdownInRange(Run(v, events))
    decreases |events|
  {
    if events != [] {
      RunKeepsCountdownInRange(Step(v, events[0]), events[1..]);
    }
  }

  /** Only the toggle turns auto-refresh on. */
  lemma {:induction false} AutoRefreshOnlyByToggle(v: View, events: seq<Event>)
    requires NoToggle(events)
    ensures Run(v, events).autoRefresh ==> v.autoRefresh
    decreases |events|
  {
    if events != [] {
      AutoRefreshOnlyByToggle(Step(v, events[0]), events[1..]);
    }
  }

  /** Starting an analysis pauses auto-refresh, and whatever follows (the
      analysis succeeding or failing, loads, ticks, the modal closing) leaves
      it paused until the user toggles it. */
  lemma AnalysisPausesUntilToggle(v: View, item: NewsItem, events: seq<Event>)
    requires NoToggle(events)
    ensures !Run(v, [AnalysisStarted(item)] + events).autoRefresh
  {
    RunCons(v, AnalysisStarted(item), events);
    AutoRefreshOnlyByToggle(Step(v, AnalysisStarted(item)), events);
  }

  /** While a load is in flight, seconds pass without touching the state. */
  lemma {:induction false} LoadSuspendsCountdown(v: View, events: seq<Event>)
    requires v.loadingNews
    requires forall i :: 0 <= i < |events| ==> events[i].Tick?
    ensures Run(v, events) == v
    decreases |events|
  {
    if events != [] {
      LoadSuspendsCountdown(Step(v, events[0]), events[1..]);
    }
  }

  /** The number of reloads over `n` seconds of a running timer that starts at `t`. */
  function Reloads(t: int, n: nat): nat
    decreases n
  {
    if n == 0 then 0 else (if t <= 1 then 1 else 0) + Reloads(NextTimeLeft(t), n - 1)
  }

  /** The first reload comes after `t` seconds, then one every 60. */
  lemma {:induction false} ReloadCount(t: int, n: nat)
    requires 1 <= t <= AutoRefreshInterval
    ensures Reloads(t, n) == if n < t then 0 else 1 + (n - t) / AutoRefreshInterval
    decreases n
  {
    if n > 0 {
      ReloadCount(NextTimeLeft(t), n - 1);
    }
  }

  /** From a full countdown, exactly one reload fires every 60 seconds. */
  lemma OneReloadPerInterval(k: nat)
    ensures Reloads(AutoRefreshInterval, AutoRefreshInterval * k) == k
  {
    ReloadCount(AutoRefreshInterval, AutoRefreshInterval * k);
  }

  /** The dashboard component's state, field by field. */
  class Dashboard {
    var news: seq<NewsItem>
    var loadingNews: bool
    var autoRefresh: bool
    var timeLeft: int
    var modalOpen: bool
    var selectedNews: Option<NewsItem>
    var analysisResult: Option<AnalysisResult>
    var analyzing: bool

    function State(): View
      reads this
    {
      View(news, loadingNews, autoRefresh, timeLeft, modalOpen, selectedNews, analysisResult, analyzing)
    }

    ghost predicate Valid()
      reads this
    {
      CountdownInRange(State())
    }

    constructor ()
      ensures Valid() && State() == Initial
    {
      news := [];
      loadingNews := false;
      autoRefresh := false;
      timeLeft := AutoRefreshInterval;
      modalOpen := false;
      selectedNews := None;
      analysisResult := None;
      analyzing := false;
    }

    /** One second. While the interval is installed, the countdown drops by
        one, or at 1 or below starts a reload and restarts at 60. */
    method Tick() returns (reload: bool)
      requires Valid()
      modifies this
      ensures Valid()
      ensures State() == Step(old(State()), Event.Tick)
      ensures reload <==> old(TimerRunning(State())) && old(timeLeft) <= 1
      ensures reload ==> loadingNews && timeLeft == AutoRefreshInterval
      ensures old(TimerRunning(State())) && !reload ==> timeLeft == old(timeLeft) - 1
      ensures !old(TimerRunning(State())) ==> State() == old(State())
    {
      reload := false;
      if autoRefresh && !loadingNews {
        if timeLeft <= 1 {
          BeginLoad();
          timeLeft := AutoRefreshInterval;
          reload := true;
        } else {
          timeLeft := timeLeft - 1;
        }
      }
    }

    /** The synchronous start of `loadNews`. */
    method BeginLoad()
      requires Valid()
      modifies this
      ensures Valid()
      ensures State() == Step(old(State()), LoadStarted)
      ensures loadingNews
    {
      loadingNews := true;
    }

    /** The end of `loadNews`: a fetched list replaces the feed and restarts
        the countdown; a thrown error changes neither. */
    method FinishLoad(fetched: Option<seq<NewsItem>>)
      requires Valid()
      modifies this
      ensures Valid()
      ensures State() == Step(old(State()), LoadSettled(fetched))
      ensures !loadingNews
      ensures fetched.Some? ==> news == fetched.value && timeLeft == AutoRefreshInterval
      ensures fetched.None? ==> news == old(news) && timeLeft == old(timeLeft)
    {
      if fetched.Some? {
        news := fetched.value;
        timeLeft := AutoRefreshInterval;
      }
      loadingNews := false;
    }

    /** `loadNews` from start to end. */
    method LoadNews(fetched: Option<seq<NewsItem>>)
      requires Valid()
      modifies this
      ensures Valid()
      ensures State() == Run(old(State()), [LoadStarted, LoadSettled(fetched)])
      ensures !loadingNews
      ensures fetched.Some? ==> news == fetched.value && timeLeft == AutoRefreshInterval
      ensures fetched.None? ==> news == old(news) && timeLeft == old(timeLeft)
      ensures autoRefresh == old(autoRefresh)
    {
      BeginLoad();
      FinishLoad(fetched);
      RunCons(old(State()), LoadStarted, [LoadSettled(fetched)]);
      RunCons(Step(old(State()), LoadStarted), LoadSettled(fetched), []);
    }

    /** The synchronous start of `handleAnalyze`: open the modal on the item
        with no result yet, and pause auto-refresh. */
    method BeginAnalyze(item: NewsItem)
      requires Valid()
      modifies this
      ensures Valid()
      ensures State() == Step(old(State()), AnalysisStarted(item))
      ensures selectedNews == Some(item) && analysisResult == None
      ensures modalOpen && analyzing && !autoRefresh
    {
      selectedNews := Some(item);
      analysisResult := None;
      modalOpen := true;
      analyzing := true;
      var wasAutoRefreshing := autoRefresh;
      if wasAutoRefreshing {
        autoRefresh := false;
      }
    }

    /** The end of `handleAnalyze`: record a result, and stop analysing. */
    method FinishAnalyze(outcome: Result<AnalysisResult, GeminiService.ServiceError>)
      requires Valid()
      modifies this
      ensures Valid()
      ensures State() == Step(old(State()), AnalysisSettled(outcome))
      ensures !analyzing && autoRefresh == old(autoRefresh)
      ensures analysisResult == if outcome.Success? then Some(outcome.value) else old(analysisResult)
    {
      if outcome.Success? {
        analysisResult := Some(outcome.value);
      }
      analyzing := false;
    }

    /** `handleAnalyze` from start to end: the result on success, none on
        failure, and auto-refresh left paused either way. */
    method HandleAnalyze(item: NewsItem, outcome: Result<AnalysisResult, GeminiService.ServiceError>)
      requires Valid()
      modifies this
      ensures Valid()
      ensures State() == Run(old(State()), [AnalysisStarted(item), AnalysisSettled(outcome)])
      ensures selectedNews == Some(item) && modalOpen && !analyzing && !autoRefresh
      ensures analysisResult == if outcome.Success? then Some(outcome.value) else None
      ensures news == old(news) && timeLeft == old(timeLeft) && loadingNews == old(loadingNews)
    {
      BeginAnalyze(item);
      FinishAnalyze(outcome);
      RunCons(old(State()), AnalysisStarted(item), [AnalysisSettled(outcome)]);
      RunCons(Step(old(State()), AnalysisStarted(item)), AnalysisSettled(outcome), []);
    }

    /** The auto-refresh button: the only place auto-refresh is turned on. */
    method ToggleAutoRefresh()
      requires Valid()
      modifies this
      ensures Valid()
      ensures State() == Step(old(State()), AutoRefreshToggled)
      ensures autoRefresh == !old(autoRefresh)
    {
      autoRefresh := !autoRefresh;
    }

    /** Closing the modal changes nothing but `modalOpen`. */
    method CloseModal()
      requires Valid()
      modifies this
      ensures Valid()
      ensures State() == old(State()).(modalOpen := false)
      ensures State() == Step(old(State()), ModalClosed)
    {
      modalOpen := false;
    }
  }
}
