/** The background poller that swaps the prompts, and the PIN path's
    retries. The poller's lock reads are modelled by the sequence of login
    states they return, in order; the probe of the token and the sleep
    between iterations are left out. */
module PasswordInput {
  import opened Bytes
  import opened Login
  import opened Params
  import opened DiskEncryption

  /** Number of `WaitingForLogin` values among the observed states. */
  function CountWaiting(observed: seq<LoginState>): (n: nat)
    ensures n <= |observed|
  {
    if observed == [] then 0
    else CountWaiting(observed[..|observed| - 1]) + (if observed[|observed| - 1] == WaitingForLogin then 1 else 0)
  }

  /** Consecutive observed states are at most one UI callback apart
      (`Login.StepFollows` shows every callback moves along `LoginCanFollow`). */
  predicate OneCallbackApart(observed: seq<LoginState>)
  {
    forall i :: 0 <= i < |observed| - 1 ==> LoginCanFollow(observed[i], observed[i + 1])
  }

  /** `input_switcher_thread` as written, run over the values its lock reads
      return, in order. Each iteration reads the state once to skip anything but
      `WaitingForLogin`, then reads it again to break on `LogInOkay`, then
      probes for the token. It breaks only if the two reads of ONE
      iteration see `WaitingForLogin` and then `LogInOkay`, which needs two
      callbacks between them: when consecutive reads are at most one
      callback apart, it never breaks. */
  method PollerAsWritten(observed: seq<LoginState>) returns (broke: bool, probes: nat)
    ensures broke ==> exists i :: 0 <= i < |observed| - 1 && observed[i] == WaitingForLogin && observed[i + 1] == LogInOkay
    ensures OneCallbackApart(observed) ==> !broke
    ensures (broke, probes) == AsWrittenRun(observed)
  {
    broke := false;
    probes := 0;
    var i := 0;
    while i < |observed|
      invariant 0 <= i <= |observed|
      invariant AsWrittenRun(observed) == (AsWrittenRun(observed[i..]).0, probes + AsWrittenRun(observed[i..]).1)
    {
      assert observed[i..][1..] == observed[i + 1..];
      if observed[i] != WaitingForLogin {
        i := i + 1;
      } else if i + 1 == |observed| {
        i := i + 1;
      } else if observed[i + 1] == LogInOkay {
        assert OneCallbackApart(observed) ==> LoginCanFollow(observed[i], observed[i + 1]);
        broke := true;
        return;
      } else {
        assert observed[i..][2..] == observed[i + 2..];
        probes := probes + 1;
        i := i + 2;
      }
    }
  }

  /** The outcome of the as-written poller over the reads from the start of
      `observed`: whether it breaks, and how many probes it makes. One read
      for a state other than `WaitingForLogin`, two reads and one probe for
      each iteration that sees `WaitingForLogin` and does not break. */
  function AsWrittenRun(observed: seq<LoginState>): (r: (bool, nat))
    ensures 2 * r.1 <= |observed|
    ensures r.0 ==> exists i :: 0 <= i < |observed| - 1 && observed[i] == WaitingForLogin && observed[i + 1] == LogInOkay
  {
    if observed == [] then (false, 0)
    else if observed[0] != WaitingForLogin then
      var r := AsWrittenRun(observed[1..]);
      assert r.0 ==> exists i :: 1 <= i < |observed| - 1 && observed[i] == WaitingForLogin && observed[i + 1] == LogInOkay by {
        if r.0 {
          var j :| 0 <= j < |observed[1..]| - 1 && observed[1..][j] == WaitingForLogin && observed[1..][j + 1] == LogInOkay;
          assert observed[j + 1] == WaitingForLogin && observed[j + 2] == LogInOkay;
        }
      }
      r
    else if |observed| == 1 then (false, 0)
    else if observed[1] == LogInOkay then (true, 0)
    else
      var r := AsWrittenRun(observed[2..]);
      assert r.0 ==> exists i :: 2 <= i < |observed| - 1 && observed[i] == WaitingForLogin && observed[i + 1] == LogInOkay by {
        if r.0 {
          var j :| 0 <= j < |observed[2..]| - 1 && observed[2..][j] == WaitingForLogin && observed[2..][j + 1] == LogInOkay;
          assert observed[j + 2] == WaitingForLogin && observed[j + 3] == LogInOkay;
        }
      }
      (r.0, r.1 + 1)
  }

  /** Once the login has succeeded, the as-written poller still never
      breaks, but it no longer probes the token: every read hits the first
      `continue`. */
  lemma {:induction false} AsWrittenIdleAfterLogin(observed: seq<LoginState>)
    requires forall i :: 0 <= i < |observed| ==> observed[i] == LogInOkay
    ensures AsWrittenRun(observed) == (false, 0)
  {
    if observed != [] {
      AsWrittenIdleAfterLogin(observed[1..]);
    }
  }

  /** While the login stays on the waiting screen, the as-written poller
      never breaks and probes the token once for every two reads. */
  lemma {:induction false} AsWrittenProbesWhileWaiting(observed: seq<LoginState>)
    requires forall i :: 0 <= i < |observed| ==> observed[i] == WaitingForLogin
    ensures AsWrittenRun(observed) == (false, |observed| / 2)
  {
    if |observed| >= 2 {
      AsWrittenProbesWhileWaiting(observed[2..]);
    }
  }

  /** The evidently intended poller: it stops at the first read that sees
      `LogInOkay`, and probes once for every `WaitingForLogin` read before it. */
  method PollerFixed(observed: seq<LoginState>) returns (broke: bool, probes: nat)
    ensures broke <==> LogInOkay in observed
    ensures broke ==> exists i :: 0 <= i < |observed| && observed[i] == LogInOkay && LogInOkay !in observed[..i]
                                  && probes == CountWaiting(observed[..i])
    ensures !broke ==> probes == CountWaiting(observed)
  {
    broke := false;
    probes := 0;
    var i := 0;
    while i < |observed|
      invariant 0 <= i <= |observed|
      invariant LogInOkay !in observed[..i]
      invariant probes == CountWaiting(observed[..i])
    {
      if observed[i] == LogInOkay {
        broke := true;
        return;
      }
      assert observed[..i + 1][..i] == observed[..i];
      if observed[i] == WaitingForLogin {
        probes := probes + 1;
      }
      i := i + 1;
    }
    assert observed[..i] == observed;
  }

  /** From the waiting screen, `LogInOkay` is two callbacks away: a submit and
      its success. */
  lemma OkayTwoCallbacksFromWaiting(s: Screen, f: Factor, k: seq<byte>)
    requires Valid(s) && s.login == WaitingForLogin && OnTop(s.layers, PromptOf(f))
    ensures Admissible(s, [SubmitPrompt(f), Succeeded(k)])
    ensures Run(s, [SubmitPrompt(f), Succeeded(k)]).login == LogInOkay
  {
    var s1 := Step(s, SubmitPrompt(f));
    assert Admissible(s1, [Succeeded(k)]) by {
      assert Admissible(Step(s1, Succeeded(k)), []);
    }
    assert [SubmitPrompt(f), Succeeded(k)][1..] == [Succeeded(k)];
    assert Run(s1, [Succeeded(k)]) == Step(s1, Succeeded(k));
  }

  // ---------------------------------------------------------- PIN retries

  /** One attempt of `try_keyfile_from_pin`: the helper's behaviour during
      that attempt and the slot index drawn for it. */
  datatype PinAttempt = PinAttempt(run: Bytes32 -> ProcessOutput, pick: nat)

  predicate AttemptsDefined(p: EncryptionParams, pin: string, attempts: seq<PinAttempt>)
  {
    forall i :: 0 <= i < |attempts| ==> PinDefined(p, pin, attempts[i].run, attempts[i].pick)
  }

  function Attempt(p: EncryptionParams, pin: string, a: PinAttempt): Result<seq<byte>>
    requires PinDefined(p, pin, a.run, a.pick)
  {
    TryKeyfileFromPin(p, pin, a.run, a.pick)
  }

  /** The two `or_else` retries in the PIN submit callback: the result and
      the number of calls made. At most three calls, stopping at the first
      `Ok`; `Err` only when all three failed. */
  function PinWithRetries(p: EncryptionParams, pin: string, attempts: seq<PinAttempt>)
    : (r: (Result<seq<byte>>, nat))
    requires |attempts| == 3 && AttemptsDefined(p, pin, attempts)
    ensures 1 <= r.1 <= 3
    ensures r.0 == Attempt(p, pin, attempts[r.1 - 1])
    ensures r.1 >= 2 ==> Attempt(p, pin, attempts[0]).Err?
    ensures r.1 == 3 ==> Attempt(p, pin, attempts[1]).Err?
    ensures r.0.Err? ==> r.1 == 3
  {
    var first := Attempt(p, pin, attempts[0]);
    if first.Ok? then (first, 1)
    else
      var second := Attempt(p, pin, attempts[1]);
      if second.Ok? then (second, 2)
      else (Attempt(p, pin, attempts[2]), 3)
  }
}
