/**
 * The sign-in screen: two text fields, a single presence check, and the
 * submit handler that drives the screen's state through the shared auth
 * state machine.
 */
module SignIn {
  import opened Wrappers
  import opened AuthForm

  /** The two text inputs of the form, as typed. */
  datatype Fields = Fields(email: string, password: string)

  const BothRequired := "Please enter both email and password."

  /**
   * The message of the failing check, or None. The only check is that
   * neither field is empty: there is no length, format or match check.
   */
  function Validate(f: Fields): (err: Option<string>)
    ensures err.None? <==> f.email != "" && f.password != ""
    ensures err.Some? ==> err.value == BothRequired
  {
    if f.email == "" || f.password == "" then Some(BothRequired) else None
  }

  /** What the user can do on the screen: press the button, or wait for the timer. */
  datatype Action = SubmitForm(fields: Fields) | TimerDone

  /** The auth state machine's view of an action. */
  function ToEvent(a: Action): (e: Event)
    ensures e == Press(None) <==> a.SubmitForm? && a.fields.email != "" && a.fields.password != ""
  {
    match a
    case SubmitForm(f) => Press(Validate(f))
    case TimerDone => Tick
  }

  /** The auth state machine's view of a sequence of actions. */
  function Events(acts: seq<Action>): seq<Event>
  {
    seq(|acts|, i requires 0 <= i < |acts| => ToEvent(acts[i]))
  }

  /** The state of a freshly mounted sign-in screen after the actions of acts. */
  function RunScreen(acts: seq<Action>): (s: FormState)
    ensures Consistent(s)
  {
    RunConsistent(Initial, Events(acts));
    Run(Initial, Events(acts))
  }

  /**
   * The screen navigates only if some submitted form had both fields filled
   * and was submitted while the button was enabled.
   */
  lemma NavigatesOnlyAfterFilledForm(acts: seq<Action>)
    requires |RunScreen(acts).routes| > 0
    ensures exists i ::
              0 <= i < |acts| && acts[i].SubmitForm? &&
              acts[i].fields.email != "" && acts[i].fields.password != "" &&
              SubmitEnabled(RunScreen(acts[..i]))
  {
    var es := Events(acts);
    NavigationNeedsPassingPress(es);
    var i :| 0 <= i < |es| && es[i] == Press(None) && SubmitEnabled(Run(Initial, es[..i]));
    assert ToEvent(acts[i]) == Press(None);
    assert es[..i] == Events(acts[..i]);
  }

  /**
   * Signing in with both fields filled and then letting the timer fire
   * takes the screen from idle through loading to exactly one navigation.
   */
  lemma FilledSignInNavigatesOnce(f: Fields)
    requires f.email != "" && f.password != ""
    ensures var s := RunScreen([SubmitForm(f)]);
      s.isLoading && s.errorMessage == "" && s.pendingTimers == 1 && s.routes == []
    ensures var s := RunScreen([SubmitForm(f), TimerDone]);
      s.routes == [HomeRoute] && !s.isLoading && s.errorMessage == "" && s.pendingTimers == 0
  {
    assert Events([SubmitForm(f)]) == [Press(None)];
    assert Events([SubmitForm(f), TimerDone]) == [Press(None), Tick];
    assert [Press(None), Tick][..1] == [Press(None)];
    PassThenTick(Initial);
  }

  /** The sign-in screen component, with the state its submit handler writes. */
  class Screen {
    var isLoading: bool
    var errorMessage: string
    /** Timers scheduled by the handler that have not fired yet. */
    ghost var pendingTimers: nat
    /** Every route replaced by the screen, oldest first. */
    ghost var routes: seq<string>

    ghost function State(): FormState
      reads this
    {
      FormState(isLoading, errorMessage, pendingTimers, routes)
    }

    ghost predicate Valid()
      reads this
    {
      Consistent(State())
    }

    constructor ()
      ensures Valid() && State() == Initial
    {
      isLoading, errorMessage := false, "";
      pendingTimers, routes := 0, [];
    }

    /** The button reads "Signing In..." exactly while loading, "Sign In" otherwise. */
    function ButtonLabel(): (text: string)
      reads this
      ensures text == "Signing In..." <==> isLoading
      ensures text == "Sign In" <==> !isLoading
    {
      if isLoading then "Signing In..." else "Sign In"
    }

    /**
     * The submit handler, reachable only through the enabled button. It
     * starts loading and clears the message; an empty field stops it with
     * its message shown, otherwise it schedules the timer.
     */
    method HandleSignIn(f: Fields)
      requires Valid() && !isLoading
      modifies this
      ensures Valid()
      ensures State() == Submit(old(State()), Validate(f))
      ensures f.email == "" || f.password == "" ==> !isLoading && errorMessage == BothRequired
      ensures f.email != "" && f.password != "" ==> isLoading && errorMessage == "" && pendingTimers == 1
      ensures routes == old(routes)
    {
      isLoading := true;
      errorMessage := "";

      if f.email == "" || f.password == "" {
        errorMessage := BothRequired;
        isLoading := false;
        return;
      }

      pendingTimers := pendingTimers + 1;
    }

    /** The scheduled callback: stop loading and go to the home tabs. */
    method OnTimer()
      requires Valid() && isLoading
      modifies this
      ensures Valid()
      ensures State() == TimerFired(old(State()))
      ensures !isLoading && pendingTimers == 0 && routes == old(routes) + [HomeRoute]
    {
      isLoading := false;
      pendingTimers := pendingTimers - 1;
      routes := routes + [HomeRoute];
    }
  }
}
