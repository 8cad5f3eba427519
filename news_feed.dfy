/**
  The news-feed fetch controller. Its observable state is a set of React
  state cells and two timer refs; `FeedState` is that state as a value, the
  functions below say what each handler and each timer callback does to it,
  and `Feed` is the component itself, one field per cell, whose methods are
  proved to perform exactly those transitions.

  Time is an explicit clock (`now`, in milliseconds). `setTimeout` becomes a
  pending timer that records its due time; the runtime fires it by calling
  the matching Fire method once the clock has reached that time, and the
  clock may not run past a pending timer. An HTTP request and its reply are
  one step: the reply is an input of the fetch.
 */
module NewsFeed {
  import opened Api
  import opened NewsRequest
  import opened NewsPagination

  /** COOLDOWN_PERIOD: five minutes, in milliseconds. */
  const CooldownPeriod := 5 * 60 * 1000

  /** The settle delay of debouncedFetch. */
  const DebounceDelay := 1000

  /** The arguments of fetchNews: search text, category and source. */
  datatype Args = Args(query: string, category: string, source: string)

  /**
    What a render's fetchNews closure reads of the state when it builds its
    request: the endpoint and the date range of that render.
   */
  datatype Snapshot = Snapshot(endpoint: Endpoint, dateFrom: string, dateTo: string)

  /**
    A call of fetchNews waiting in `fetchTimeoutRef`, due at `due`; the
    callback runs the fetchNews of the render that scheduled it, so it
    carries that render's snapshot.
   */
  datatype PendingFetch = PendingFetch(due: int, args: Args, scheduledIn: Snapshot)

  /** The one GET a fetch issues. */
  datatype Request = Request(url: string, params: Params)

  /** The two date inputs, told apart by their `name`. */
  datatype DateField = From | To

  /** The component's state; `cooldownTimer` holds the due time of the timer in `cooldownTimeoutRef`. */
  datatype FeedState = FeedState(
    now: int,
    articles: seq<Article>,
    search: string,
    endpoint: Endpoint,
    dateFrom: string,
    dateTo: string,
    error: Option<string>,
    isInCooldown: bool,
    isRateLimited: bool,
    isInitialLoad: bool,
    currentPage: int,
    fetchTimer: Option<PendingFetch>,
    cooldownTimer: Option<int>)

  /** The state when the component mounts at time `now`. */
  function Initial(now: int): FeedState
  {
    FeedState(now, [], "", TopHeadlines, "", "", None, false, false, true, 1, None, None)
  }

  /** The cooldown gate is armed exactly while its timer is pending, and no timer is due in the past or beyond its delay. */
  predicate TimersInv(s: FeedState)
  {
    && (s.isInCooldown <==> s.cooldownTimer.Some?)
    && (s.cooldownTimer.Some? ==> s.now <= s.cooldownTimer.value <= s.now + CooldownPeriod)
    && (s.fetchTimer.Some? ==> s.now <= s.fetchTimer.value.due <= s.now + DebounceDelay)
  }

  /** The current page is a page of the articles (page 1 when there are none). */
  predicate PageInRange(s: FeedState)
  {
    1 <= s.currentPage <= Max(1, TotalPages(|s.articles|))
  }

  /** The timers are consistent, the page is in range, and no debounced fetch is pending while a gate is closed. */
  predicate Inv(s: FeedState)
  {
    TimersInv(s) && PageInRange(s) && (Gated(s) ==> s.fetchTimer.None?)
  }

  /** The snapshot a fetchNews closure created in the render of state `s` reads. */
  function SnapshotOf(s: FeedState): Snapshot
  {
    Snapshot(s.endpoint, s.dateFrom, s.dateTo)
  }

  /** Either gate suppresses fetching. */
  predicate Gated(s: FeedState)
  {
    s.isRateLimited || s.isInCooldown
  }

  // ---------------------------------------------------------------------
  // Transitions
  // ---------------------------------------------------------------------

  /** startCooldown: set the flag and replace any pending cooldown timer by a fresh one. */
  function ArmCooldown(s: FeedState): FeedState
  {
    s.(isInCooldown := true, cooldownTimer := Some(s.now + CooldownPeriod))
  }

  /** handleRateLimit. */
  function TripRateLimit(s: FeedState): FeedState
  {
    s.(isRateLimited := true, error := Some(RateLimitMessage))
  }

  /** The request a fetchNews closure with snapshot `view` issues. */
  function RequestFor(view: Snapshot, apiKey: string, args: Args): Request
  {
    Request(EndpointUrl(view.endpoint),
            BuildParams(apiKey, view.endpoint, args.query, args.category, args.source, view.dateFrom, view.dateTo))
  }

  /** A new state, and the request issued on the way to it, if any. */
  datatype Step = Step(state: FeedState, request: Option<Request>)

  /** The catch block: no articles, the failure's message, and the gate the failure closes. */
  function Fail(s: FeedState, failure: Failure): (t: FeedState)
    ensures t.articles == [] && t.error == Some(ErrorMessage(failure))
    ensures StartsCooldown(failure) ==>
      t.isInCooldown && t.cooldownTimer == Some(s.now + CooldownPeriod) && t.isRateLimited == s.isRateLimited
    ensures !StartsCooldown(failure) ==>
      t.isRateLimited && t.isInCooldown == s.isInCooldown && t.cooldownTimer == s.cooldownTimer
    ensures t.(articles := s.articles, error := s.error, isInCooldown := s.isInCooldown,
               isRateLimited := s.isRateLimited, cooldownTimer := s.cooldownTimer) == s
  {
    var cleared := s.(articles := [], error := Some(ErrorMessage(failure)));
    if StartsCooldown(failure) then ArmCooldown(cleared) else TripRateLimit(cleared)
  }

  /** What the reply does to the state once the request has been issued. */
  function Resolve(s: FeedState, reply: Reply): (t: FeedState)
    ensures reply.Body? && reply.articles.Some? ==> t.articles == reply.articles.value && !t.isInitialLoad
    ensures reply.Body? && reply.articles.None? ==> t.articles == [] && t.isInitialLoad == s.isInitialLoad
    ensures !reply.Body? ==> t.articles == [] && t.error == Some(ErrorMessage(Classify(reply)))
    ensures Gated(t) <==> Gated(s) || !reply.Body?
  {
    if !reply.Body? then Fail(s, Classify(reply))
    else if reply.articles.Some? then s.(articles := reply.articles.value, isInitialLoad := false)
    else s.(articles := [])
  }

  /**
    fetchNews, run by the closure of a render whose endpoint and dates were
    `view`: nothing at all while a gate is closed; otherwise clear the error,
    go to page 1, request, resolve.
   */
  function Fetch(s: FeedState, view: Snapshot, apiKey: string, args: Args, reply: Reply): (r: Step)
    ensures r.request.Some? <==> !Gated(s)
    ensures Gated(s) ==> r.state == s
    ensures r.request.Some? ==> r.request.value.url == EndpointUrl(view.endpoint)
    ensures !Gated(s) ==> r.state.currentPage == 1 && r.state.fetchTimer == s.fetchTimer
    ensures !Gated(s) ==> r.state.endpoint == s.endpoint && r.state.dateFrom == s.dateFrom && r.state.dateTo == s.dateTo
    ensures !Gated(s) && reply.Body? ==> r.state.error == None && !Gated(r.state)
  {
    if Gated(s) then Step(s, None)
    else Step(Resolve(s.(error := None, currentPage := 1), reply), Some(RequestFor(view, apiKey, args)))
  }

  /** debouncedFetch: while no gate is closed, the new call, with this render's snapshot, replaces any pending one. */
  function Debounce(s: FeedState, args: Args): (t: FeedState)
    ensures Gated(s) ==> t == s
    ensures !Gated(s) ==> t.fetchTimer == Some(PendingFetch(s.now + DebounceDelay, args, SnapshotOf(s)))
    ensures t.(fetchTimer := s.fetchTimer) == s
  {
    if Gated(s) then s else s.(fetchTimer := Some(PendingFetch(s.now + DebounceDelay, args, SnapshotOf(s))))
  }

  /** handleSearch. */
  function TypeSearch(s: FeedState, value: string, category: string, source: string): (t: FeedState)
    ensures t.search == value
    ensures t.fetchTimer == if Gated(s) then s.fetchTimer else Some(PendingFetch(s.now + DebounceDelay, Args(value, category, source), SnapshotOf(s)))
    ensures t.(search := s.search, fetchTimer := s.fetchTimer) == s
  {
    Debounce(s.(search := value), Args(value, category, source))
  }

  /** handleCategory and handleSource, which do the same thing. */
  function SelectFilter(s: FeedState, category: string, source: string): (t: FeedState)
    ensures t.fetchTimer == if Gated(s) then s.fetchTimer else Some(PendingFetch(s.now + DebounceDelay, Args(s.search, category, source), SnapshotOf(s)))
    ensures t.(fetchTimer := s.fetchTimer) == s
  {
    Debounce(s, Args(s.search, category, source))
  }

  /** handleEndpointChange. */
  function ChangeEndpoint(s: FeedState, endpoint: Endpoint): (t: FeedState)
    ensures t.endpoint == endpoint && t.(endpoint := s.endpoint) == s
  {
    s.(endpoint := endpoint)
  }

  /** handleDateChange. */
  function ChangeDate(s: FeedState, field: DateField, value: string): (t: FeedState)
    ensures field == DateField.From ==> t.dateFrom == value && t.dateTo == s.dateTo
    ensures field == DateField.To ==> t.dateTo == value && t.dateFrom == s.dateFrom
    ensures t.(dateFrom := s.dateFrom, dateTo := s.dateTo) == s
  {
    match field
    case From => s.(dateFrom := value)
    case To => s.(dateTo := value)
  }

  /** handleReset: lifts the rate limit and clears the error, the articles and the page; nothing else changes. */
  function Reset(s: FeedState): (t: FeedState)
    ensures Gated(t) <==> s.isInCooldown
    ensures !t.isRateLimited && PageInRange(t) && t.articles == [] && t.error == None
    ensures t.(isRateLimited := s.isRateLimited, error := s.error, articles := s.articles, currentPage := s.currentPage) == s
  {
    s.(isRateLimited := false, error := None, articles := [], currentPage := 1)
  }

  /** handlePageChange: no clamping. */
  function ChangePage(s: FeedState, page: int): (t: FeedState)
    ensures t.currentPage == page && t.(currentPage := s.currentPage) == s
  {
    s.(currentPage := page)
  }

  /** The clock may advance to `t` only if no pending timer falls due before `t`. */
  predicate NoTimerPassed(s: FeedState, t: int)
  {
    && (s.fetchTimer.Some? ==> t <= s.fetchTimer.value.due)
    && (s.cooldownTimer.Some? ==> t <= s.cooldownTimer.value)
  }

  function Elapse(s: FeedState, dt: nat): FeedState
    requires NoTimerPassed(s, s.now + dt)
  {
    s.(now := s.now + dt)
  }

  predicate FetchTimerDue(s: FeedState)
  {
    s.fetchTimer.Some? && s.fetchTimer.value.due == s.now
  }

  /**
    The debounce timer fires: it is used up, and the fetchNews of the
    scheduling render runs with its arguments, so the request uses that
    render's endpoint and dates, not the current ones.
   */
  function AfterFetchTimer(s: FeedState, apiKey: string, reply: Reply): (r: Step)
    requires FetchTimerDue(s)
    ensures r.state.fetchTimer.None?
    ensures r.request.Some? <==> !Gated(s)
    ensures r.request.Some? ==> r.request.value == RequestFor(s.fetchTimer.value.scheduledIn, apiKey, s.fetchTimer.value.args)
  {
    Fetch(s.(fetchTimer := None), s.fetchTimer.value.scheduledIn, apiKey, s.fetchTimer.value.args, reply)
  }

  predicate CooldownTimerDue(s: FeedState)
  {
    s.cooldownTimer == Some(s.now)
  }

  /** The cooldown timer fires: the gate opens and the error is cleared; nothing else changes. */
  function AfterCooldownTimer(s: FeedState): (t: FeedState)
    requires CooldownTimerDue(s)
    ensures !t.isInCooldown && t.cooldownTimer.None? && t.error == None
    ensures Gated(t) <==> s.isRateLimited
    ensures t.(isInCooldown := s.isInCooldown, error := s.error, cooldownTimer := s.cooldownTimer) == s
  {
    s.(isInCooldown := false, error := None, cooldownTimer := None)
  }

  // ---------------------------------------------------------------------
  // Everything that can happen to a mounted feed
  // ---------------------------------------------------------------------

  datatype Event =
    | SearchTyped(value: string, category: string, source: string)
    | FilterSelected(category: string, source: string)
    | EndpointSelected(endpoint: Endpoint)
    | DateEntered(field: DateField, value: string)
    | ResetClicked
    | PreviousClicked
    | NextClicked
    | PageClicked(page: nat)
    | Tick(dt: nat)
    | FetchTimerFires(reply: Reply)
    | CooldownTimerFires

  /**
    Whether the event can happen: the Reset button is drawn only under a
    rate-limit error, the pager only when there are articles, Previous and
    Next only while not disabled, a page number only where it is drawn as a
    button; a timer fires only once due, and the clock cannot pass one.
   */
  predicate Enabled(s: FeedState, e: Event)
  {
    var total := TotalPages(|s.articles|);
    match e
    case ResetClicked => s.error.Some? && s.isRateLimited
    case PreviousClicked => |s.articles| > 0 && !PreviousDisabled(s.currentPage)
    case NextClicked => |s.articles| > 0 && !NextDisabled(s.currentPage, total)
    case PageClicked(n) => |s.articles| > 0 && 1 <= n <= total && Slot(n, total, s.currentPage) == Some(PageButton(n))
    case Tick(dt) => NoTimerPassed(s, s.now + dt)
    case FetchTimerFires(_) => FetchTimerDue(s)
    case CooldownTimerFires => CooldownTimerDue(s)
    case _ => true
  }

  function StepOf(s: FeedState, apiKey: string, e: Event): Step
    requires Enabled(s, e)
  {
    match e
    case SearchTyped(value, category, source) => Step(TypeSearch(s, value, category, source), None)
    case FilterSelected(category, source) => Step(SelectFilter(s, category, source), None)
    case EndpointSelected(endpoint) => Step(ChangeEndpoint(s, endpoint), None)
    case DateEntered(field, value) => Step(ChangeDate(s, field, value), None)
    case ResetClicked => Step(Reset(s), None)
    case PreviousClicked => Step(ChangePage(s, s.currentPage - 1), None)
    case NextClicked => Step(ChangePage(s, s.currentPage + 1), None)
    case PageClicked(n) => Step(ChangePage(s, n), None)
    case Tick(dt) => Step(Elapse(s, dt), None)
    case FetchTimerFires(reply) => AfterFetchTimer(s, apiKey, reply)
    case CooldownTimerFires => Step(AfterCooldownTimer(s), None)
  }

  /** The final state of a run and every request issued during it, in order. */
  datatype Trace = Trace(state: FeedState, requests: seq<Request>)

  function Issued(r: Option<Request>): seq<Request>
  {
    if r.Some? then [r.value] else []
  }

  predicate Runnable(s: FeedState, apiKey: string, es: seq<Event>)
    decreases |es|
  {
    es == [] || (Enabled(s, es[0]) && Runnable(StepOf(s, apiKey, es[0]).state, apiKey, es[1..]))
  }

  function Run(s: FeedState, apiKey: string, es: seq<Event>): Trace
    requires Runnable(s, apiKey, es)
    decreases |es|
  {
    if es == [] then Trace(s, [])
    else
      var step := StepOf(s, apiKey, es[0]);
      var rest := Run(step.state, apiKey, es[1..]);
      Trace(rest.state, Issued(step.request) + rest.requests)
  }

  // ---------------------------------------------------------------------
  // Properties
  // ---------------------------------------------------------------------

  /** With both gates open, a fetch issues exactly its request, then clears the error, goes to page 1 and resolves the reply. */
  lemma FetchWhenOpen(s: FeedState, view: Snapshot, apiKey: string, args: Args, reply: Reply)
    requires !Gated(s)
    ensures Fetch(s, view, apiKey, args, reply).request == Some(RequestFor(view, apiKey, args))
    ensures Fetch(s, view, apiKey, args, reply).state == Resolve(s.(error := None, currentPage := 1), reply)
  {
  }

  /** A fetch with a gate closed changes nothing and requests nothing. */
  lemma FetchWhenGated(s: FeedState, view: Snapshot, apiKey: string, args: Args, reply: Reply)
    requires Gated(s)
    ensures Fetch(s, view, apiKey, args, reply) == Step(s, None)
  {
  }

  /** A reply leaves the page, the clock, the inputs and the pending fetch alone. */
  lemma ResolveKeeps(s: FeedState, reply: Reply)
    ensures var t := Resolve(s, reply);
      && t.currentPage == s.currentPage && t.now == s.now && t.fetchTimer == s.fetchTimer
      && t.search == s.search && t.endpoint == s.endpoint && t.dateFrom == s.dateFrom && t.dateTo == s.dateTo
  {
  }

  /** A 2xx reply: its articles (none when the body has no list), and no gate changes. */
  lemma ResolveSuccess(s: FeedState, reply: Reply)
    requires reply.Body?
    ensures var t := Resolve(s, reply);
      && (reply.articles.Some? ==> t.articles == reply.articles.value && !t.isInitialLoad)
      && (reply.articles.None? ==> t.articles == [] && t.isInitialLoad == s.isInitialLoad)
      && t.error == s.error && t.isRateLimited == s.isRateLimited
      && t.isInCooldown == s.isInCooldown && t.cooldownTimer == s.cooldownTimer
  {
  }

  /**
    A failure: no articles and its message; a 429 trips the rate limit and
    leaves the cooldown alone, any other failure restarts the cooldown timer
    for a full period and leaves the rate limit alone.
   */
  lemma ResolveFailure(s: FeedState, reply: Reply)
    requires !reply.Body?
    ensures var t := Resolve(s, reply);
      && t.articles == [] && t.error == Some(ErrorMessage(Classify(reply)))
      && t.isInitialLoad == s.isInitialLoad
      && (reply == ErrorStatus(429) ==>
            t.isRateLimited && t.isInCooldown == s.isInCooldown && t.cooldownTimer == s.cooldownTimer)
      && (reply != ErrorStatus(429) ==>
            t.isRateLimited == s.isRateLimited && t.isInCooldown && t.cooldownTimer == Some(s.now + CooldownPeriod))
  {
  }

  /** No event issues a request while a gate is closed. */
  lemma GatedIssuesNothing(s: FeedState, apiKey: string, e: Event)
    requires Gated(s) && Enabled(s, e)
    ensures StepOf(s, apiKey, e).request.None?
  {
  }

  /** Every event keeps the timers consistent and the current page in range. */
  lemma StepPreservesInv(s: FeedState, apiKey: string, e: Event)
    requires Inv(s) && Enabled(s, e)
    ensures Inv(StepOf(s, apiKey, e).state)
  {
    match e
    case FetchTimerFires(reply) =>
      var t := s.(fetchTimer := None);
      if !Gated(t) {
        FetchWhenOpen(t, s.fetchTimer.value.scheduledIn, apiKey, s.fetchTimer.value.args, reply);
        var u := t.(error := None, currentPage := 1);
        ResolveKeeps(u, reply);
        if reply.Body? {
          ResolveSuccess(u, reply);
        } else {
          ResolveFailure(u, reply);
        }
      }
    case _ =>
  }

  lemma {:induction false} RunPreservesInv(s: FeedState, apiKey: string, es: seq<Event>)
    requires Inv(s) && Runnable(s, apiKey, es)
    ensures Inv(Run(s, apiKey, es).state)
    decreases |es|
  {
    if es != [] {
      StepPreservesInv(s, apiKey, es[0]);
      RunPreservesInv(StepOf(s, apiKey, es[0]).state, apiKey, es[1..]);
    }
  }

  /** The clock never goes back. */
  lemma {:induction false} RunNowMonotone(s: FeedState, apiKey: string, es: seq<Event>)
    requires Runnable(s, apiKey, es)
    ensures Run(s, apiKey, es).state.now >= s.now
    decreases |es|
  {
    if es != [] {
      RunNowMonotone(StepOf(s, apiKey, es[0]).state, apiKey, es[1..]);
    }
  }

  /** The rate limit is sticky: until Reset is clicked it stays tripped and nothing is requested. */
  lemma {:induction false} RateLimitHoldsUntilReset(s: FeedState, apiKey: string, es: seq<Event>)
    requires s.isRateLimited && Runnable(s, apiKey, es)
    requires forall i :: 0 <= i < |es| ==> !es[i].ResetClicked?
    ensures Run(s, apiKey, es).state.isRateLimited
    ensures Run(s, apiKey, es).requests == []
    decreases |es|
  {
    if es != [] {
      var step := StepOf(s, apiKey, es[0]);
      assert step.state.isRateLimited && step.request.None?;
      RateLimitHoldsUntilReset(step.state, apiKey, es[1..]);
    }
  }

  /**
    Once armed with due time `due`, the cooldown stays closed, with the same
    timer, and nothing is requested, over any run that ends before `due`;
    Reset does not lift it.
   */
  lemma {:induction false} CooldownHoldsUntilDue(s: FeedState, apiKey: string, es: seq<Event>, due: int)
    requires s.isInCooldown && s.cooldownTimer == Some(due) && Runnable(s, apiKey, es)
    requires Run(s, apiKey, es).state.now < due
    ensures Run(s, apiKey, es).state.isInCooldown
    ensures Run(s, apiKey, es).state.cooldownTimer == Some(due)
    ensures Run(s, apiKey, es).requests == []
    decreases |es|
  {
    if es != [] {
      var step := StepOf(s, apiKey, es[0]);
      RunNowMonotone(step.state, apiKey, es[1..]);
      if es[0].CooldownTimerFires? {
        assert false;
      }
      assert step.state.isInCooldown && step.state.cooldownTimer == Some(due) && step.request.None?;
      CooldownHoldsUntilDue(step.state, apiKey, es[1..], due);
    }
  }

  /** When the cooldown timer fires, the gate opens and the error disappears. */
  lemma CooldownExpiryOpens(s: FeedState)
    requires Inv(s) && CooldownTimerDue(s) && !s.isRateLimited
    ensures var t := AfterCooldownTimer(s); !Gated(t) && t.error == None && Inv(t)
  {
  }

  /**
    A 401 at time T locks the feed for exactly the cooldown period: a
    keystroke at T + period - 1 schedules nothing, while after the timer
    fires at T + period a keystroke at T + period + 1 is scheduled.
   */
  lemma InvalidKeyLocksForCooldownPeriod(s: FeedState, apiKey: string, args: Args, later: Args)
    requires Inv(s) && !Gated(s) && s.fetchTimer.None?
    ensures var locked := Fetch(s, SnapshotOf(s), apiKey, args, ErrorStatus(401)).state;
      && locked.cooldownTimer == Some(s.now + CooldownPeriod)
      && NoTimerPassed(locked, locked.now + CooldownPeriod)
      && (var justBefore := Elapse(locked, CooldownPeriod - 1);
          Debounce(justBefore, later) == justBefore)
      && (var due := Elapse(locked, CooldownPeriod);
          && CooldownTimerDue(due)
          && var justAfter := Elapse(AfterCooldownTimer(due), 1);
             Debounce(justAfter, later).fetchTimer == Some(PendingFetch(s.now + CooldownPeriod + 1 + DebounceDelay, later, SnapshotOf(s))))
  {
  }

  /** Handler events that only record input: they neither schedule nor issue a fetch. */
  lemma EndpointAndDateScheduleNothing(s: FeedState, apiKey: string, e: Event)
    requires e.EndpointSelected? || e.DateEntered?
    ensures StepOf(s, apiKey, e).request.None?
    ensures StepOf(s, apiKey, e).state.fetchTimer == s.fetchTimer
    ensures StepOf(s, apiKey, e).state.now == s.now
  {
  }

  /**
    The debounced request is built in the render that scheduled it: an
    endpoint or date change made while the timer is pending does not reach
    the request the timer sends.
   */
  lemma FiredFetchUsesSchedulingRender(s: FeedState, apiKey: string, args: Args, e: Event, reply: Reply)
    requires Inv(s) && !Gated(s) && (e.EndpointSelected? || e.DateEntered?)
    ensures var changed := StepOf(Debounce(s, args), apiKey, e).state;
      && NoTimerPassed(changed, changed.now + DebounceDelay)
      && var due := Elapse(changed, DebounceDelay);
         && FetchTimerDue(due)
         && AfterFetchTimer(due, apiKey, reply).request == Some(RequestFor(SnapshotOf(s), apiKey, args))
  {
  }

  /**
    A pending debounce fires with both gates open, as they were in the
    render that scheduled it: the gate check the timer's fetchNews makes
    gives the same answer on the current state as on that render's.
   */
  lemma FiredFetchNeverGated(s: FeedState, apiKey: string, reply: Reply)
    requires Inv(s) && FetchTimerDue(s)
    ensures !Gated(s)
    ensures AfterFetchTimer(s, apiKey, reply).request == Some(RequestFor(s.fetchTimer.value.scheduledIn, apiKey, s.fetchTimer.value.args))
  {
  }

  /** handleReset lifts the rate limit but leaves the cooldown as it was. */
  lemma ResetKeepsCooldown(s: FeedState)
    ensures var t := Reset(s);
      && !t.isRateLimited && t.error == None && t.articles == [] && t.currentPage == 1
      && t.isInCooldown == s.isInCooldown && t.cooldownTimer == s.cooldownTimer
  {
  }

  /** The arguments of the last keystroke of a run, if any. */
  function LastTyped(es: seq<Event>): Option<Args>
    decreases |es|
  {
    if es == [] then None
    else
      var later := LastTyped(es[1..]);
      if later.Some? then later
      else if es[0].SearchTyped? then Some(Args(es[0].value, es[0].category, es[0].source))
      else None
  }

  /** A run of clock ticks only moves the clock. */
  lemma {:induction false} TicksOnlyMoveClock(s: FeedState, apiKey: string, es: seq<Event>)
    requires Runnable(s, apiKey, es)
    requires forall i :: 0 <= i < |es| ==> es[i].Tick?
    ensures Run(s, apiKey, es).state == s.(now := Run(s, apiKey, es).state.now)
    ensures Run(s, apiKey, es).requests == []
    decreases |es|
  {
    if es != [] {
      TicksOnlyMoveClock(StepOf(s, apiKey, es[0]).state, apiKey, es[1..]);
    }
  }

  /**
    A burst of keystrokes with both gates open leaves exactly one pending
    fetch, carrying the last keystroke's arguments, and requests nothing.
   */
  lemma {:induction false} BurstKeepsLastKeystroke(s: FeedState, apiKey: string, es: seq<Event>)
    requires !Gated(s) && Runnable(s, apiKey, es)
    requires forall i :: 0 <= i < |es| ==> es[i].SearchTyped? || es[i].Tick?
    requires LastTyped(es).Some?
    ensures var t := Run(s, apiKey, es).state;
      var last := LastTyped(es).value;
      && t.fetchTimer.Some? && t.fetchTimer.value.args == last && t.fetchTimer.value.scheduledIn == SnapshotOf(s)
      && t.search == last.query
      && t.endpoint == s.endpoint && t.dateFrom == s.dateFrom && t.dateTo == s.dateTo
      && !Gated(t)
    ensures Run(s, apiKey, es).requests == []
    decreases |es|
  {
    var step := StepOf(s, apiKey, es[0]);
    if LastTyped(es[1..]).Some? {
      BurstKeepsLastKeystroke(step.state, apiKey, es[1..]);
    } else {
      forall i | 0 <= i < |es[1..]| ensures es[1..][i].Tick? {
        assert es[1..][i] == es[i + 1];
        if es[i + 1].SearchTyped? {
          LastTypedFound(es[1..], i);
        }
      }
      TicksOnlyMoveClock(step.state, apiKey, es[1..]);
    }
  }

  lemma {:induction false} LastTypedFound(es: seq<Event>, i: nat)
    requires i < |es| && es[i].SearchTyped?
    ensures LastTyped(es).Some?
    decreases |es|
  {
    if i > 0 {
      LastTypedFound(es[1..], i - 1);
    }
  }

  /** Running `es` and then one more event. */
  lemma {:induction false} RunSnoc(s: FeedState, apiKey: string, es: seq<Event>, e: Event)
    requires Runnable(s, apiKey, es + [e])
    ensures Runnable(s, apiKey, es)
    ensures Enabled(Run(s, apiKey, es).state, e)
    ensures var mid := Run(s, apiKey, es);
      var last := StepOf(mid.state, apiKey, e);
      Run(s, apiKey, es + [e]) == Trace(last.state, mid.requests + Issued(last.request))
    decreases |es|
  {
    if es == [] {
      assert [e][1..] == [];
    } else {
      assert (es + [e])[0] == es[0];
      assert (es + [e])[1..] == es[1..] + [e];
      RunSnoc(StepOf(s, apiKey, es[0]).state, apiKey, es[1..], e);
    }
  }

  /**
    Debouncing collapses a burst: when the pending timer finally fires, the
    only request of the whole run is the one for the last keystroke.
   */
  lemma BurstFetchesLastKeystroke(s: FeedState, apiKey: string, es: seq<Event>, reply: Reply)
    requires !Gated(s) && Runnable(s, apiKey, es + [FetchTimerFires(reply)])
    requires forall i :: 0 <= i < |es| ==> es[i].SearchTyped? || es[i].Tick?
    requires LastTyped(es).Some?
    ensures var last := LastTyped(es).value;
      Run(s, apiKey, es + [FetchTimerFires(reply)]).requests ==
        [Request(EndpointUrl(s.endpoint),
                 BuildParams(apiKey, s.endpoint, last.query, last.category, last.source, s.dateFrom, s.dateTo))]
  {
    RunSnoc(s, apiKey, es, FetchTimerFires(reply));
    BurstKeepsLastKeystroke(s, apiKey, es);
    var mid := Run(s, apiKey, es).state;
    assert AfterFetchTimer(mid, apiKey, reply).request == Some(RequestFor(SnapshotOf(s), apiKey, LastTyped(es).value));
  }

  // ---------------------------------------------------------------------
  // The component
  // ---------------------------------------------------------------------

  class Feed {
    /** VITE_API_KEY. */
    const apiKey: string
    var mounted: bool
    var now: int
    var articles: seq<Article>
    var search: string
    var endpoint: Endpoint
    var dateFrom: string
    var dateTo: string
    var error: Option<string>
    var isInCooldown: bool
    var isRateLimited: bool
    var isInitialLoad: bool
    var currentPage: int
    /** fetchTimeoutRef. */
    var fetchTimer: Option<PendingFetch>
    /** cooldownTimeoutRef, as the due time of its timer. */
    var cooldownTimer: Option<int>

    ghost function State(): FeedState
      reads this
    {
      FeedState(now, articles, search, endpoint, dateFrom, dateTo, error, isInCooldown,
                isRateLimited, isInitialLoad, currentPage, fetchTimer, cooldownTimer)
    }

    /** While mounted the timers are consistent; after unmounting none is pending. */
    ghost predicate Valid()
      reads this
    {
      if mounted then TimersInv(State()) else fetchTimer.None? && cooldownTimer.None?
    }

    constructor (apiKey: string, now: int)
      ensures Valid() && mounted && this.apiKey == apiKey
      ensures State() == Initial(now)
    {
      this.apiKey := apiKey;
      mounted := true;
      this.now := now;
      articles := [];
      search := "";
      endpoint := TopHeadlines;
      dateFrom, dateTo := "", "";
      error := None;
      isInCooldown := false;
      isRateLimited := false;
      isInitialLoad := true;
      currentPage := 1;
      fetchTimer := None;
      cooldownTimer := None;
    }

    method StartCooldown()
      requires Valid() && mounted
      modifies this
      ensures Valid() && mounted
      ensures State() == ArmCooldown(old(State()))
    {
      isInCooldown := true;
      if cooldownTimer.Some? {
        cooldownTimer := None;  // clearTimeout
      }
      cooldownTimer := Some(now + CooldownPeriod);
    }

    method HandleRateLimit()
      requires Valid() && mounted
      modifies this
      ensures Valid() && mounted
      ensures State() == TripRateLimit(old(State()))
    {
      isRateLimited := true;
      error := Some(RateLimitMessage);
    }

    /** The endpoint and dates of the current render. */
    function CurrentSnapshot(): (view: Snapshot)
      reads this
      ensures view == SnapshotOf(State())
    {
      Snapshot(endpoint, dateFrom, dateTo)
    }

    /**
      fetchNews as created in a render whose endpoint and dates were `view`,
      with the reply the request received; returns the request issued, if any.
     */
    method FetchNews(view: Snapshot, query: string, category: string, source: string, reply: Reply)
      returns (request: Option<Request>)
      requires Valid() && mounted
      modifies this
      ensures Valid() && mounted
      ensures var step := Fetch(old(State()), view, apiKey, Args(query, category, source), reply);
        State() == step.state && request == step.request
    {
      if isRateLimited || isInCooldown {
        return None;
      }
      error := None;
      currentPage := 1;
      var params := BuildParams(apiKey, view.endpoint, query, category, source, view.dateFrom, view.dateTo);
      request := Some(Request(EndpointUrl(view.endpoint), params));
      ApplyReply(reply);
    }

    /** The `try` body after the request and its `catch` block. */
    method ApplyReply(reply: Reply)
      requires Valid() && mounted
      modifies this
      ensures Valid() && mounted
      ensures State() == Resolve(old(State()), reply)
    {
      if reply.Body? {
        if reply.articles.Some? {
          articles := reply.articles.value;
          isInitialLoad := false;
        } else {
          articles := [];
        }
      } else {
        ApplyFailure(reply);
      }
    }

    /** The `catch` block. */
    method ApplyFailure(reply: Reply)
      requires Valid() && mounted && !reply.Body?
      modifies this
      ensures Valid() && mounted
      ensures State() == Fail(old(State()), Classify(reply))
    {
      articles := [];
      if reply.ErrorStatus? {
        if reply.status == 429 {
          HandleRateLimit();
          return;
        }
        if reply.status == 401 {
          ReportFailure(InvalidKeyMessage);
        } else {
          ReportFailure(HttpFailureMessage);
        }
      } else if reply.NoResponse? {
        ReportFailure(NetworkFailureMessage);
      } else {
        ReportFailure(UnexpectedFailureMessage);
      }
    }

    /** A non-rate-limit failure: show its message and start the cooldown. */
    method ReportFailure(message: string)
      requires Valid() && mounted
      modifies this
      ensures Valid() && mounted
      ensures State() == ArmCooldown(old(State()).(error := Some(message)))
    {
      error := Some(message);
      StartCooldown();
    }

    method DebouncedFetch(query: string, category: string, source: string)
      requires Valid() && mounted
      modifies this
      ensures Valid() && mounted
      ensures State() == Debounce(old(State()), Args(query, category, source))
    {
      if isRateLimited || isInCooldown {
        return;
      }
      if fetchTimer.Some? {
        fetchTimer := None;  // clearTimeout
      }
      fetchTimer := Some(PendingFetch(now + DebounceDelay, Args(query, category, source), CurrentSnapshot()));
    }

    /** handleSearch: `category` and `source` are the current values of the two selects. */
    method HandleSearch(value: string, category: string, source: string)
      requires Valid() && mounted
      modifies this
      ensures Valid() && mounted
      ensures State() == TypeSearch(old(State()), value, category, source)
    {
      search := value;
      DebouncedFetch(value, category, source);
    }

    /** handleCategory and handleSource. */
    method HandleSelect(category: string, source: string)
      requires Valid() && mounted
      modifies this
      ensures Valid() && mounted
      ensures State() == SelectFilter(old(State()), category, source)
    {
      DebouncedFetch(search, category, source);
    }

    method HandleEndpointChange(value: Endpoint)
      requires Valid() && mounted
      modifies this
      ensures Valid() && mounted
      ensures State() == ChangeEndpoint(old(State()), value)
    {
      endpoint := value;
    }

    method HandleDateChange(field: DateField, value: string)
      requires Valid() && mounted
      modifies this
      ensures Valid() && mounted
      ensures State() == ChangeDate(old(State()), field, value)
    {
      match field
      case From => dateFrom := value;
      case To => dateTo := value;
    }

    method HandleReset()
      requires Valid() && mounted
      modifies this
      ensures Valid() && mounted
      ensures State() == Reset(old(State()))
    {
      isRateLimited := false;
      error := None;
      articles := [];
      currentPage := 1;
    }

    method HandlePageChange(page: int)
      requires Valid() && mounted
      modifies this
      ensures Valid() && mounted
      ensures State() == ChangePage(old(State()), page)
    {
      currentPage := page;
    }

    /** The clock advances by `dt`, which may not carry it past a pending timer. */
    method Tick(dt: nat)
      requires Valid() && mounted && NoTimerPassed(State(), now + dt)
      modifies this
      ensures Valid() && mounted
      ensures State() == Elapse(old(State()), dt)
    {
      now := now + dt;
    }

    /** The debounce timer's callback. */
    method FireFetchTimer(reply: Reply) returns (request: Option<Request>)
      requires Valid() && mounted && FetchTimerDue(State())
      modifies this
      ensures Valid() && mounted
      ensures var step := AfterFetchTimer(old(State()), apiKey, reply);
        State() == step.state && request == step.request
    {
      var pending := fetchTimer.value;
      fetchTimer := None;
      request := FetchNews(pending.scheduledIn, pending.args.query, pending.args.category, pending.args.source, reply);
    }

    /** The cooldown timer's callback. */
    method FireCooldownTimer()
      requires Valid() && mounted && CooldownTimerDue(State())
      modifies this
      ensures Valid() && mounted
      ensures State() == AfterCooldownTimer(old(State()))
    {
      cooldownTimer := None;
      isInCooldown := false;
      error := None;
    }

    /** The unmount cleanup: every pending timer is cancelled, so none can fire afterwards. */
    method Unmount()
      requires Valid() && mounted
      modifies this
      ensures Valid() && !mounted
      ensures State() == old(State()).(fetchTimer := None, cooldownTimer := None)
    {
      fetchTimer := None;
      cooldownTimer := None;
      mounted := false;
    }
  }

  /**
    The component driven by two keystrokes half a second apart: when the
    debounce timer fires, only the second one is requested.
   */
  method TypingBurstScenario(apiKey: string) returns (sent: Option<Request>)
    ensures sent == Some(Request(EndpointUrl(TopHeadlines), BuildParams(apiKey, TopHeadlines, "mars", "", "", "", "")))
  {
    var feed := new Feed(apiKey, 0);
    feed.HandleSearch("m", "", "");
    feed.Tick(500);
    feed.HandleSearch("mars", "", "");
    feed.Tick(DebounceDelay);
    sent := feed.FireFetchTimer(Body(None));
  }

  /**
    A keystroke on top headlines, then a switch to everything half a second
    later: the timer still requests top headlines for the keystroke, with
    the country and without the sort order.
   */
  method EndpointSwitchScenario(apiKey: string) returns (sent: Option<Request>)
    ensures sent == Some(Request(EndpointUrl(TopHeadlines), BuildParams(apiKey, TopHeadlines, "mars", "", "", "", "")))
    ensures sent.value.params == TopHeadlinesParams(apiKey, "mars", "")
  {
    var feed := new Feed(apiKey, 0);
    feed.HandleSearch("mars", "", "");
    feed.Tick(500);
    feed.HandleEndpointChange(Everything);
    feed.Tick(DebounceDelay - 500);
    sent := feed.FireFetchTimer(Body(None));
  }

  /**
    The component after a 401: still locked one millisecond before the five
    minutes are up, and taking a keystroke again once the cooldown timer has
    fired.
   */
  method InvalidKeyScenario(apiKey: string) returns (blockedBeforeExpiry: bool, scheduledAfterExpiry: bool)
    ensures blockedBeforeExpiry && scheduledAfterExpiry
  {
    var feed := new Feed(apiKey, 0);
    var view := feed.CurrentSnapshot();
    var _ := feed.FetchNews(view, "", "", "", ErrorStatus(401));
    feed.Tick(CooldownPeriod - 1);
    feed.HandleSearch("moon", "", "");
    blockedBeforeExpiry := feed.fetchTimer.None? && feed.isInCooldown;
    feed.Tick(1);
    feed.FireCooldownTimer();
    feed.Tick(1);
    feed.HandleSearch("moon", "", "");
    scheduledAfterExpiry := feed.fetchTimer == Some(PendingFetch(CooldownPeriod + 1 + DebounceDelay, Args("moon", "", ""), view));
  }
}
