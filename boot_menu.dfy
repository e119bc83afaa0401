/** The boot menu's mutable state: the `State` user data (keyfile and
    shared login state) and the UI's layer stack, updated in place by the
    callbacks. Each callback is specified by the step it performs on
    `Login.Screen`. */
module BootMenu {
  import opened Bytes
  import opened Login

  class Menu {
    var login: LoginState
    var layers: seq<Dialog>
    var keyfile: Option<seq<byte>>
    /** Verification threads spawned whose result callback has not run. */
    var verifications: nat

    function Current(): Screen
      reads this
    {
      Screen(login, layers, keyfile, verifications)
    }

    /** `main`: `keyfile: None`, the default login state, then
        `password_entry` pushes the first layer. */
    constructor ()
      ensures Current() == Initial()
    {
      login := DefaultLoginState;
      layers := [];
      keyfile := None;
      verifications := 0;
      new;
      AddLayer(PasswordPrompt);
    }

    /** `siv.pop_layer()`. */
    method PopLayer()
      modifies this
      ensures layers == Pop(old(layers))
      ensures login == old(login) && keyfile == old(keyfile) && verifications == old(verifications)
    {
      if layers != [] {
        layers := layers[..|layers| - 1];
      }
    }

    /** `siv.add_layer(…)`. */
    method AddLayer(d: Dialog)
      modifies this
      ensures layers == old(layers) + [d]
      ensures login == old(login) && keyfile == old(keyfile) && verifications == old(verifications)
    {
      layers := layers + [d];
    }

    /** The submit callback of the password prompt (`f == Password`) or of the
        PIN prompt (`f == YkPin`). */
    method OnSubmit(f: Factor)
      requires OnTop(layers, PromptOf(f))
      modifies this
      ensures Current() == Submit(old(Current()), f)
    {
      login := ValidatingLogin;
      PopLayer();
      AddLayer(Verifying(f));
      verifications := verifications + 1;
    }

    /** The callback a verification thread posts on `Ok(keyfile)`. */
    method OnSuccess(k: seq<byte>)
      requires verifications > 0
      modifies this
      ensures Current() == Succeed(old(Current()), k)
    {
      keyfile := Some(k);
      login := LogInOkay;
      PopLayer();
      AddLayer(FullMenu);
      verifications := verifications - 1;
    }

    /** The callback a verification thread posts on `Err(_)`. */
    method OnFailure(f: Factor)
      requires verifications > 0
      modifies this
      ensures Current() == Fail(old(Current()), f)
    {
      login := LogInFail;
      PopLayer();
      AddLayer(PartialMenu);
      AddLayer(LoginError(f));
      verifications := verifications - 1;
    }

    /** The poller's swap callback: towards the PIN prompt when the token is
        present (`f == YkPin`), towards the password prompt otherwise. */
    method OnSwap(f: Factor)
      modifies this
      ensures Current() == SwapTo(old(Current()), f)
    {
      if login != WaitingForLogin {
        return;
      }
      var present := PromptOf(f) in layers;
      if !present {
        PopLayer();
        AddLayer(PromptOf(f));
      }
    }

    /** "Try logging in again" in the partial menu. */
    method OnTryAgain()
      requires OnTop(layers, PartialMenu)
      modifies this
      ensures Current() == TryAgain(old(Current()))
    {
      login := WaitingForLogin;
      PopLayer();
      AddLayer(PasswordPrompt);
    }

    /** The error dialog's "OK" button. */
    method OnDismiss()
      requires layers != [] && layers[|layers| - 1].LoginError?
      modifies this
      ensures Current() == Dismiss(old(Current()))
    {
      PopLayer();
    }

    /** Runs the callback of one event; a reachable screen stays reachable. */
    method Handle(e: Event)
      requires Enabled(Current(), e)
      modifies this
      ensures Current() == Step(old(Current()), e)
      ensures Valid(old(Current())) ==> Valid(Current())
    {
      if Valid(Current()) {
        StepPreservesValid(Current(), e);
      }
      match e {
        case SubmitPrompt(f) => OnSubmit(f);
        case Succeeded(k) => OnSuccess(k);
        case Failed(f) => OnFailure(f);
        case Swap(f) => OnSwap(f);
        case TryAgainChosen => OnTryAgain();
        case ErrorDismissed => OnDismiss();
      }
    }
  }
}
