/** The boot menu's login flow. Every callback the UI thread runs is one
    atomic step on the screen: the shared login state, the stack of dialog
    layers (the top is the LAST element) and the unlocked keyfile. The
    number of verification threads whose result callback has not run yet
    is kept beside them, since a result step can only happen when such a
    thread has posted it. */
module Login {
  import opened Bytes

  /** `LoginState`: exactly four states. */
  datatype LoginState = WaitingForLogin | ValidatingLogin | LogInOkay | LogInFail

  /** `impl Default for LoginState`. */
  const DefaultLoginState: LoginState := WaitingForLogin

  /** The two ways of logging in. */
  datatype Factor = Password | YkPin

  /** The layers the login flow pushes. */
  datatype Dialog =
    | PasswordPrompt              // the dialog named "password_input"
    | PinPrompt                   // the dialog named "ykpin_input"
    | Verifying(factor: Factor)   // "Verifying password..." / "Verifying PIN code; ..."
    | FullMenu
    | PartialMenu
    | LoginError(factor: Factor)  // "Failed to unlock with ...", with an "OK" dismiss button

  datatype Screen = Screen(login: LoginState, layers: seq<Dialog>, keyfile: Option<seq<byte>>,
                           verifications: nat)

  /** The prompt dialog of each factor. */
  function PromptOf(f: Factor): Dialog
  {
    match f
    case Password => PasswordPrompt
    case YkPin => PinPrompt
  }

  predicate OnTop(layers: seq<Dialog>, d: Dialog)
  {
    layers != [] && layers[|layers| - 1] == d
  }

  /** `pop_layer`: removes the top layer; on an empty stack it does nothing. */
  function Pop(layers: seq<Dialog>): (r: seq<Dialog>)
    ensures layers == [] ==> r == []
    ensures layers != [] ==> r + [layers[|layers| - 1]] == layers
  {
    if layers == [] then [] else layers[..|layers| - 1]
  }

  /** The state `main` builds before running the UI: no keyfile, the default
      login state, and the password prompt as the first layer. */
  function Initial(): (s: Screen)
    ensures s.login == DefaultLoginState && s.keyfile == None && OnTop(s.layers, PasswordPrompt)
    ensures Valid(s)
  {
    Screen(DefaultLoginState, [PasswordPrompt], None, 0)
  }

  // ------------------------------------------------------------ the steps

  /** A prompt's submit callback: the state becomes `ValidatingLogin` before
      any verification starts, the top layer is replaced by a "verifying"
      dialog, and a verification thread is spawned. */
  function Submit(s: Screen, f: Factor): (r: Screen)
    ensures r.login == ValidatingLogin && r.keyfile == s.keyfile
    ensures OnTop(r.layers, Verifying(f)) && Pop(r.layers) == Pop(s.layers)
    ensures r.verifications == s.verifications + 1
  {
    s.(login := ValidatingLogin, layers := Pop(s.layers) + [Verifying(f)],
       verifications := s.verifications + 1)
  }

  /** The success callback, whatever the current state: the keyfile is kept,
      the state is `LogInOkay`, and the top layer is replaced by the full menu. */
  function Succeed(s: Screen, keyfile: seq<byte>): (r: Screen)
    requires s.verifications > 0
    ensures r.login == LogInOkay && r.keyfile == Some(keyfile)
    ensures OnTop(r.layers, FullMenu) && Pop(r.layers) == Pop(s.layers)
    ensures r.verifications == s.verifications - 1
  {
    s.(login := LogInOkay, keyfile := Some(keyfile), layers := Pop(s.layers) + [FullMenu],
       verifications := s.verifications - 1)
  }

  /** The failure callback, whatever the current state: the state is
      `LogInFail`, the top layer is replaced by the partial menu with an error
      dialog above it, and the keyfile is left alone. */
  function Fail(s: Screen, f: Factor): (r: Screen)
    requires s.verifications > 0
    ensures r.login == LogInFail && r.keyfile == s.keyfile
    ensures OnTop(r.layers, LoginError(f)) && Pop(r.layers) == Pop(s.layers) + [PartialMenu]
    ensures r.verifications == s.verifications - 1
  {
    s.(login := LogInFail, layers := Pop(s.layers) + [PartialMenu, LoginError(f)],
       verifications := s.verifications - 1)
  }

  /** The poller's swap callback towards factor `f` (the PIN prompt when the
      token is present, the password prompt when it is absent). It does
      nothing unless the state is `WaitingForLogin` and the prompt is absent
      from every layer; otherwise the top layer is replaced by the prompt. */
  function SwapTo(s: Screen, f: Factor): (r: Screen)
    ensures r.login == s.login && r.keyfile == s.keyfile && r.verifications == s.verifications
    ensures s.login != WaitingForLogin || PromptOf(f) in s.layers ==> r == s
    ensures s.login == WaitingForLogin ==> PromptOf(f) in r.layers
    ensures r != s ==> OnTop(r.layers, PromptOf(f)) && Pop(r.layers) == Pop(s.layers)
  {
    if s.login != WaitingForLogin || PromptOf(f) in s.layers then s
    else s.(layers := Pop(s.layers) + [PromptOf(f)])
  }

  /** "Try logging in again" in the partial menu: back to `WaitingForLogin`,
      with the top layer replaced by the password prompt. */
  function TryAgain(s: Screen): (r: Screen)
    ensures r.login == WaitingForLogin && r.keyfile == s.keyfile && r.verifications == s.verifications
    ensures OnTop(r.layers, PasswordPrompt) && Pop(r.layers) == Pop(s.layers)
  {
    s.(login := WaitingForLogin, layers := Pop(s.layers) + [PasswordPrompt])
  }

  /** The error dialog's "OK" button: it removes that dialog and nothing else. */
  function Dismiss(s: Screen): (r: Screen)
    ensures r.login == s.login && r.keyfile == s.keyfile && r.verifications == s.verifications
    ensures r.layers == Pop(s.layers)
  {
    s.(layers := Pop(s.layers))
  }

  // ------------------------------------------------------ the event system

  datatype Event =
    | SubmitPrompt(factor: Factor)
    | Succeeded(keyfile: seq<byte>)
    | Failed(factor: Factor)
    | Swap(factor: Factor)
    | TryAgainChosen
    | ErrorDismissed

  /** When an event can happen: a widget only receives input while its dialog
      is the top layer, and a result callback only exists once a verification
      thread has posted it. The poller may post a swap at any time. */
  predicate Enabled(s: Screen, e: Event)
  {
    match e
    case SubmitPrompt(f) => OnTop(s.layers, PromptOf(f))
    case Succeeded(_) => s.verifications > 0
    case Failed(_) => s.verifications > 0
    case Swap(_) => true
    case TryAgainChosen => OnTop(s.layers, PartialMenu)
    case ErrorDismissed => s.layers != [] && s.layers[|s.layers| - 1].LoginError?
  }

  function Step(s: Screen, e: Event): Screen
    requires Enabled(s, e)
  {
    match e
    case SubmitPrompt(f) => Submit(s, f)
    case Succeeded(k) => Succeed(s, k)
    case Failed(f) => Fail(s, f)
    case Swap(f) => SwapTo(s, f)
    case TryAgainChosen => TryAgain(s)
    case ErrorDismissed => Dismiss(s)
  }

  /** The screens the login flow can reach, state by state. */
  predicate Valid(s: Screen)
  {
    match s.login
    case WaitingForLogin =>
      s.verifications == 0 && s.keyfile == None
      && (s.layers == [PasswordPrompt] || s.layers == [PinPrompt])
    case ValidatingLogin =>
      s.verifications == 1 && s.keyfile == None && |s.layers| == 1 && s.layers[0].Verifying?
    case LogInOkay =>
      s.verifications == 0 && s.keyfile.Some? && s.layers == [FullMenu]
    case LogInFail =>
      s.verifications == 0 && s.keyfile == None
      && (s.layers == [PartialMenu] || (|s.layers| == 2 && s.layers[0] == PartialMenu && s.layers[1].LoginError?))
  }

  /** On a reachable screen, what lies below the top layer. */
  lemma BelowTop(s: Screen)
    requires Valid(s)
    ensures s.login != LogInFail ==> Pop(s.layers) == []
    ensures s.login == LogInFail ==> Pop(s.layers) == [] || Pop(s.layers) == [PartialMenu]
    ensures s.login == LogInFail && s.layers[|s.layers| - 1].LoginError? ==> Pop(s.layers) == [PartialMenu]
    ensures s.login == LogInFail && s.layers[|s.layers| - 1] == PartialMenu ==> Pop(s.layers) == []
  {
  }

  lemma SubmitValid(s: Screen, f: Factor)
    requires Valid(s) && OnTop(s.layers, PromptOf(f))
    ensures Valid(Submit(s, f))
  {
    BelowTop(s);
    assert Submit(s, f).layers == [Verifying(f)];
  }

  lemma ResultValid(s: Screen, e: Event)
    requires Valid(s) && (e.Succeeded? || e.Failed?) && s.verifications > 0
    ensures Valid(Step(s, e))
  {
    BelowTop(s);
    if e.Succeeded? {
      assert Step(s, e).layers == [FullMenu];
    } else {
      assert Step(s, e).layers == [PartialMenu, LoginError(e.factor)];
    }
  }

  lemma SwapValid(s: Screen, f: Factor)
    requires Valid(s)
    ensures Valid(SwapTo(s, f))
  {
    if s.login == WaitingForLogin && PromptOf(f) !in s.layers {
      BelowTop(s);
      assert SwapTo(s, f).layers == [PromptOf(f)];
    }
  }

  lemma MenuValid(s: Screen, e: Event)
    requires Valid(s) && (e.TryAgainChosen? || e.ErrorDismissed?) && Enabled(s, e)
    ensures Valid(Step(s, e))
  {
    BelowTop(s);
    if e.TryAgainChosen? {
      assert Step(s, e).layers == [PasswordPrompt];
    } else {
      assert Step(s, e).layers == [PartialMenu];
    }
  }

  /** Every enabled step keeps the screen reachable. */
  lemma StepPreservesValid(s: Screen, e: Event)
    requires Valid(s) && Enabled(s, e)
    ensures Valid(Step(s, e))
  {
    match e
    case SubmitPrompt(f) => SubmitValid(s, f);
    case Succeeded(_) => ResultValid(s, e);
    case Failed(_) => ResultValid(s, e);
    case Swap(f) => SwapValid(s, f);
    case TryAgainChosen => MenuValid(s, e);
    case ErrorDismissed => MenuValid(s, e);
  }

  /** Applying a sequence of events, each enabled when it comes. */
  predicate Admissible(s: Screen, events: seq<Event>)
    decreases |events|
  {
    events == [] || (Enabled(s, events[0]) && Admissible(Step(s, events[0]), events[1..]))
  }

  function Run(s: Screen, events: seq<Event>): Screen
    requires Admissible(s, events)
    decreases |events|
  {
    if events == [] then s else Run(Step(s, events[0]), events[1..])
  }

  /** Whatever the user and the poller do, the screen stays reachable; in
      particular the keyfile is present exactly when the login succeeded,
      and then the full menu is the only layer. */
  lemma {:induction false} RunPreservesValid(s: Screen, events: seq<Event>)
    requires Valid(s) && Admissible(s, events)
    ensures Valid(Run(s, events))
    ensures Run(s, events).keyfile.Some? <==> Run(s, events).login == LogInOkay
    decreases |events|
  {
    if events != [] {
      StepPreservesValid(s, events[0]);
      RunPreservesValid(Step(s, events[0]), events[1..]);
    }
  }

  /** The full menu (which offers booting with the keyfile) is only ever on
      screen when the keyfile is present. */
  lemma FullMenuHasKeyfile(events: seq<Event>)
    requires Admissible(Initial(), events)
    ensures FullMenu in Run(Initial(), events).layers ==> Run(Initial(), events).keyfile.Some?
  {
    RunPreservesValid(Initial(), events);
  }

  /** A swap callback applied twice changes nothing the second time. */
  lemma SwapIdempotent(s: Screen, f: Factor)
    ensures SwapTo(SwapTo(s, f), f) == SwapTo(s, f)
  {
  }

  /** Which login state can follow which in one step. */
  predicate LoginCanFollow(a: LoginState, b: LoginState)
  {
    a == b
    || (a == WaitingForLogin && b == ValidatingLogin)
    || (a == ValidatingLogin && (b == LogInOkay || b == LogInFail))
    || (a == LogInFail && b == WaitingForLogin)
  }

  /** On reachable screens, every step moves the login state along
      `LoginCanFollow`; so no single callback takes `WaitingForLogin` to
      `LogInOkay`. */
  lemma StepFollows(s: Screen, e: Event)
    requires Valid(s) && Enabled(s, e)
    ensures LoginCanFollow(s.login, Step(s, e).login)
    ensures s.login == WaitingForLogin ==> Step(s, e).login != LogInOkay
  {
  }
}
