/**
 * The submit logic shared by the sign-up and sign-in screens, as a state
 * machine over the component state both screens keep.
 *
 * A submit handler sets isLoading, clears errorMessage, runs the screen's
 * validator and either shows the first failing check's message (and stops
 * loading) or schedules a timer. When the timer fires it stops loading and
 * replaces the route with the home tabs. The submit button is disabled while
 * isLoading holds.
 *
 * The screen's validator enters here only as its verdict: None when every
 * check passes, Some(message) for the first check that fails.
 */
module AuthForm {
  import opened Wrappers

  /** The route a successful submit navigates to. */
  const HomeRoute := "/(tabs)"

  /**
   * The state of an auth screen between events: its two state variables,
   * the number of scheduled timers that have not fired yet, and the routes
   * navigated to so far, oldest first.
   */
  datatype FormState = FormState(isLoading: bool, errorMessage: string, pendingTimers: nat, routes: seq<string>)

  /** A freshly mounted screen. */
  const Initial := FormState(false, "", 0, [])

  /** The submit button accepts presses only while nothing is loading. */
  predicate SubmitEnabled(s: FormState): (enabled: bool)
    ensures Consistent(s) ==> (enabled <==> s.pendingTimers == 0)
  {
    !s.isLoading
  }

  /**
   * What every reachable state satisfies: at most one timer is pending, and
   * exactly while loading; no error is shown while loading; every navigation
   * went to the home tabs.
   */
  predicate Consistent(s: FormState)
  {
    s.pendingTimers <= 1 &&
    (s.isLoading <==> s.pendingTimers == 1) &&
    (s.isLoading ==> s.errorMessage == "") &&
    forall i :: 0 <= i < |s.routes| ==> s.routes[i] == HomeRoute
  }

  /** The error line is shown exactly when there is a message, and shows that message. */
  function ShownError(s: FormState): (shown: Option<string>)
    ensures shown.Some? <==> s.errorMessage != ""
    ensures shown.Some? ==> shown.value == s.errorMessage
  {
    if s.errorMessage != "" then Some(s.errorMessage) else None
  }

  /**
   * The state after a submit handler has run to its end, given the
   * validator's verdict. A failing verdict leaves its message on screen and
   * stops loading; a passing one leaves no error, keeps loading and adds one
   * pending timer. The handler itself never navigates.
   */
  function Submit(s: FormState, verdict: Option<string>): (t: FormState)
    requires SubmitEnabled(s)
    ensures t.routes == s.routes
    ensures verdict.Some? ==>
      !t.isLoading && t.errorMessage == verdict.value && t.pendingTimers == s.pendingTimers
    ensures verdict.None? ==>
      t.isLoading && t.errorMessage == "" && t.pendingTimers == s.pendingTimers + 1
  {
    // setIsLoading(true) and setErrorMessage('') come first, whatever the verdict
    var started := s.(isLoading := true, errorMessage := "");
    match verdict
    case Some(message) => started.(errorMessage := message, isLoading := false)
    case None => started.(pendingTimers := started.pendingTimers + 1)
  }

  /**
   * The state after a pending timer fires: loading stops, one navigation to
   * the home tabs is appended, and the message on screen is unchanged.
   */
  function TimerFired(s: FormState): (t: FormState)
    requires s.pendingTimers > 0
    ensures !t.isLoading && t.errorMessage == s.errorMessage
    ensures t.pendingTimers == s.pendingTimers - 1
    ensures t.routes == s.routes + [HomeRoute]
  {
    s.(isLoading := false, pendingTimers := s.pendingTimers - 1, routes := s.routes + [HomeRoute])
  }

  /** What can happen to a screen: a press of its submit button, or a timer firing. */
  datatype Event = Press(verdict: Option<string>) | Tick

  /**
   * One event. A press while the button is disabled reaches no handler, and
   * a tick with no pending timer does not happen; both leave the state as it is.
   */
  function Step(s: FormState, e: Event): (t: FormState)
    ensures e.Press? && !SubmitEnabled(s) ==> t == s
    ensures e.Press? ==> t.routes == s.routes
    ensures e.Tick? && s.pendingTimers > 0 ==> t.routes == s.routes + [HomeRoute]
    ensures e.Tick? && s.pendingTimers == 0 ==> t == s
    ensures t.pendingTimers <= s.pendingTimers + 1
  {
    match e
    case Press(verdict) => if SubmitEnabled(s) then Submit(s, verdict) else s
    case Tick => if s.pendingTimers > 0 then TimerFired(s) else s
  }

  /** The state after the events of es, in order, starting from s. */
  function Run(s: FormState, es: seq<Event>): FormState
    decreases |es|
  {
    if es == [] then s else Step(Run(s, es[..|es| - 1]), es[|es| - 1])
  }

  /**
   * How many presses in es carry a passing verdict and reach the handler,
   * that is, arrive while the button is enabled.
   */
  function HandledPasses(s: FormState, es: seq<Event>): nat
    decreases |es|
  {
    if es == [] then 0
    else
      var front := es[..|es| - 1];
      HandledPasses(s, front) +
        if es[|es| - 1] == Press(None) && SubmitEnabled(Run(s, front)) then 1 else 0
  }

  /** A positive count is witnessed by a passing press delivered to an enabled button. */
  lemma {:induction false} HandledPassWitness(s: FormState, es: seq<Event>)
    requires HandledPasses(s, es) > 0
    ensures exists i :: 0 <= i < |es| && es[i] == Press(None) && SubmitEnabled(Run(s, es[..i]))
    decreases |es|
  {
    var front := es[..|es| - 1];
    if es[|es| - 1] == Press(None) && SubmitEnabled(Run(s, front)) {
      assert es[..|es| - 1] == front;
    } else {
      HandledPassWitness(s, front);
      var i :| 0 <= i < |front| && front[i] == Press(None) && SubmitEnabled(Run(s, front[..i]));
      assert front[..i] == es[..i];
      assert es[i] == Press(None);
    }
  }

  /** One event keeps a consistent state consistent. */
  lemma StepConsistent(s: FormState, e: Event)
    requires Consistent(s)
    ensures Consistent(Step(s, e))
  {
  }

  /** Every state reachable from a consistent one is consistent. */
  lemma {:induction false} RunConsistent(s: FormState, es: seq<Event>)
    requires Consistent(s)
    ensures Consistent(Run(s, es))
    decreases |es|
  {
    if es != [] {
      RunConsistent(s, es[..|es| - 1]);
      StepConsistent(Run(s, es[..|es| - 1]), es[|es| - 1]);
    }
  }

  /**
   * Every navigation and every pending timer is owed to its own passing
   * press: together they grow by exactly the number of passing presses that
   * reached the handler.
   */
  lemma {:induction false} NavigationsOwedToPasses(s: FormState, es: seq<Event>)
    ensures |Run(s, es).routes| + Run(s, es).pendingTimers ==
            |s.routes| + s.pendingTimers + HandledPasses(s, es)
    decreases |es|
  {
    if es != [] {
      NavigationsOwedToPasses(s, es[..|es| - 1]);
    }
  }

  /** A screen navigates only if some passing press reached its enabled button. */
  lemma NavigationNeedsPassingPress(es: seq<Event>)
    requires |Run(Initial, es).routes| > 0
    ensures exists i :: 0 <= i < |es| && es[i] == Press(None) && SubmitEnabled(Run(Initial, es[..i]))
  {
    NavigationsOwedToPasses(Initial, es);
    HandledPassWitness(Initial, es);
  }

  /**
   * Pressing with a passing verdict on an idle screen and then letting the
   * timer fire navigates exactly once, to the home tabs, and ends idle with
   * no error.
   */
  lemma PassThenTick(s: FormState)
    requires Consistent(s) && SubmitEnabled(s)
    ensures var t := Run(s, [Press(None), Tick]);
      t.routes == s.routes + [HomeRoute] && !t.isLoading && t.errorMessage == "" &&
      t.pendingTimers == 0
  {
  }
}
