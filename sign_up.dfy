/**
 * The sign-up screen: four text fields, an ordered validator whose first
 * failing check supplies the error message, and the submit handler that
 * drives the screen's state through the shared auth state machine.
 */
module SignUp {
  import opened Wrappers
  import opened AuthForm

  /** The four text inputs of the form, as typed. */
  datatype Fields = Fields(username: string, email: string, password: string, confirmPassword: string)

  const FillAllFields := "Please fill in all fields."
  const PasswordsDiffer := "Passwords do not match."
  const PasswordTooShort := "Password should be at least 6 characters long."

  /** The shortest password the form accepts. */
  const MinPasswordLength := 6

  /** No input is left empty; whitespace counts as content. */
  predicate AllFilled(f: Fields)
  {
    f.username != "" && f.email != "" && f.password != "" && f.confirmPassword != ""
  }

  /** What a form must satisfy to be submitted. */
  predicate Acceptable(f: Fields)
  {
    AllFilled(f) && f.password == f.confirmPassword && |f.password| >= MinPasswordLength
  }

  /**
   * The message of the first check the form fails, or None. Presence is
   * checked first, then the match of the two passwords, then the length,
   * so a mismatch is reported even for a password that is also too short.
   */
  function Validate(f: Fields): (err: Option<string>)
    ensures err.None? <==> Acceptable(f)
    ensures !AllFilled(f) ==> err == Some(FillAllFields)
    ensures AllFilled(f) && f.password != f.confirmPassword ==> err == Some(PasswordsDiffer)
    ensures AllFilled(f) && f.password == f.confirmPassword && |f.password| < MinPasswordLength ==>
      err == Some(PasswordTooShort)
    ensures err.Some? ==> err.value in {FillAllFields, PasswordsDiffer, PasswordTooShort}
  {
    if f.username == "" || f.email == "" || f.password == "" || f.confirmPassword == "" then
      Some(FillAllFields)
    else if f.password != f.confirmPassword then
      Some(PasswordsDiffer)
    else if |f.password| < MinPasswordLength then
      Some(PasswordTooShort)
    else
      None
  }

  /** What the user can do on the screen: press the button, or wait for the timer. */
  datatype Action = SubmitForm(fields: Fields) | TimerDone

  /** The auth state machine's view of an action. */
  function ToEvent(a: Action): (e: Event)
    ensures e == Press(None) <==> a.SubmitForm? && Acceptable(a.fields)
  {
    match a
    case SubmitForm(f) => Press(Validate(f))
    case TimerDone => Tick
  }

  /** The auth state machine's view of a sequence of actions. */
  function Events(acts: seq<Action>): seq<Event>
  {
    seq(|acts|, i requires 0 <= i < |acts| => ToEvent(acts[i]))
  }

  /** The state of a freshly mounted sign-up screen after the actions of acts. */
  function RunScreen(acts: seq<Action>): (s: FormState)
    ensures Consistent(s)
  {
    RunConsistent(Initial, Events(acts));
    Run(Initial, Events(acts))
  }

  /**
   * The screen navigates only if some submitted form had all four fields
   * filled, matching passwords and a password of at least six characters,
   * and was submitted while the button was enabled.
   */
  lemma NavigatesOnlyAfterAcceptableForm(acts: seq<Action>)
    requires |RunScreen(acts).routes| > 0
    ensures exists i ::
              0 <= i < |acts| && acts[i].SubmitForm? && Acceptable(acts[i].fields) &&
              SubmitEnabled(RunScreen(acts[..i]))
  {
    var es := Events(acts);
    NavigationNeedsPassingPress(es);
    var i :| 0 <= i < |es| && es[i] == Press(None) && SubmitEnabled(Run(Initial, es[..i]));
    assert ToEvent(acts[i]) == Press(None);
    assert es[..i] == Events(acts[..i]);
  }

  /**
   * Submitting an acceptable form and then letting the timer fire takes the
   * screen from idle through loading to exactly one navigation.
   */
  lemma AcceptableSignUpNavigatesOnce(f: Fields)
    requires Acceptable(f)
    ensures var s := RunScreen([SubmitForm(f)]);
      s.isLoading && s.errorMessage == "" && s.pendingTimers == 1 && s.routes == []
    ensures var s := RunScreen([SubmitForm(f), TimerDone]);
      s.routes == [HomeRoute] && !s.isLoading && s.errorMessage == "" && s.pendingTimers == 0
  {
    assert Events([SubmitForm(f)]) == [Press(None)];
    assert Events([SubmitForm(f), TimerDone]) == [Press(None), Tick];
    assert [Press(None), Tick][..1] == [Press(None)];
    PassThenTick(Initial);
  }

  /** Equal but short passwords get the length error; a mismatch outranks it. */
  lemma ValidateExamples()
    ensures Validate(Fields("ace", "ace@example.com", "abc", "abc")) == Some(PasswordTooShort)
    ensures Validate(Fields("ace", "ace@example.com", "abcdef", "xyz123")) == Some(PasswordsDiffer)
    ensures Validate(Fields("ace", "ace@example.com", "ab", "abc")) == Some(PasswordsDiffer)
    ensures Validate(Fields("", "ace@example.com", "abc", "xyz")) == Some(FillAllFields)
  {
  }

  /** The sign-up screen component, with the state its submit handler writes. */
  class Screen {
    var isLoading: bool
    var errorMessage: string
    /** Timers scheduled by the handler that have not fired yet. */
    ghost var pendingTimers: nat
    /** Every route replaced by the screen, oldest first. */
    ghost var routes: seq<string>

    ghost function State(): FormState
      reads this
    {
      FormState(isLoading, errorMessage, pendingTimers, routes)
    }

    ghost predicate Valid()
      reads this
    {
      Consistent(State())
    }

    constructor ()
      ensures Valid() && State() == Initial
    {
      isLoading, errorMessage := false, "";
      pendingTimers, routes := 0, [];
    }

    /** The button reads "Creating Account..." exactly while loading. */
    function ButtonLabel(): (text: string)
      reads this
      ensures text == "Creating Account..." <==> isLoading
      ensures text == "Create Account" <==> !isLoading
    {
      if isLoading then "Creating Account..." else "Create Account"
    }

    /**
     * The submit handler, reachable only through the enabled button. It
     * starts loading and clears the message, then stops at the first failing
     * check with its message shown; if none fails it schedules the timer.
     */
    method HandleSignUp(f: Fields)
      requires Valid() && !isLoading
      modifies this
      ensures Valid()
      ensures State() == Submit(old(State()), Validate(f))
      ensures !Acceptable(f) ==> !isLoading && errorMessage == Validate(f).value
      ensures Acceptable(f) ==> isLoading && errorMessage == "" && pendingTimers == 1
      ensures routes == old(routes)
    {
      isLoading := true;
      errorMessage := "";

      if f.username == "" || f.email == "" || f.password == "" || f.confirmPassword == "" {
        errorMessage := FillAllFields;
        isLoading := false;
        return;
      }

      if f.password != f.confirmPassword {
        errorMessage := PasswordsDiffer;
        isLoading := false;
        return;
      }

      if |f.password| < MinPasswordLength {
        errorMessage := PasswordTooShort;
        isLoading := false;
        return;
      }

      pendingTimers := pendingTimers + 1;
    }

    /** The scheduled callback: stop loading and go to the home tabs. */
    method OnTimer()
      requires Valid() && isLoading
      modifies this
      ensures Valid()
      ensures State() == TimerFired(old(State()))
      ensures !isLoading && pendingTimers == 0 && routes == old(routes) + [HomeRoute]
    {
      isLoading := false;
      pendingTimers := pendingTimers - 1;
      routes := routes + [HomeRoute];
    }
  }
}
