/**
 * The retry loop and the teardown sequence of pkg/wkspace/actions.go.
 *
 * Running a process is an oracle: `run(cmd, k)` is what the k-th attempt
 * (counted from 0) at running `cmd` yields, its error and the text its
 * output writer captured. The commands issued and the retry counts printed
 * are kept in ghost logs.
 */
module Wkspace {
  import opened Wrappers
  import Suppression

  /** A `checker`: does this captured output end the retry loop? */
  type Checker = string -> bool

  /** `alwaysErr`: accepts no output. */
  function AlwaysErr(s: string): bool
  {
    false
  }

  /**
   * The checker `ignoreNotFound` of DestroyHelm: accepts exactly the outputs
   * with "release" followed later on the same line by "not found".
   */
  function IgnoreNotFound(s: string): (accepted: bool)
    ensures accepted <==> Suppression.ReleaseNotFound(s)
  {
    Suppression.MatchesReleaseNotFoundCorrect(s);
    Suppression.MatchesReleaseNotFound(s)
  }

  datatype Command = Command(name: string, args: seq<string>)

  /** One attempt's outcome: the process error and the captured output. */
  datatype Attempt = Attempt(err: Option<Error>, output: string)

  type Runner = (Command, nat) -> Attempt

  /** The retry counter's first value: three attempts in all. */
  const Retries: nat := 2
  const MaxAttempts: nat := Retries + 1

  /** An attempt ends the loop when it succeeded or the checker accepts its output. */
  predicate Stops(accepts: Checker, a: Attempt)
  {
    a.err.None? || accepts(a.output)
  }

  /** The attempts made, the error returned and the retry counts printed. */
  datatype Execution = Execution(attempts: nat, err: Option<Error>, countdown: seq<int>)

  /**
   * The loop of `execSuppressed` from the iteration whose counter is `retry`
   * on: run, stop if the attempt stops the loop, otherwise print the counter
   * and go on while it is still positive.
   */
  function Retried(accepts: Checker, cmd: Command, run: Runner, retry: nat): (e: Execution)
    requires retry <= Retries
    ensures 1 <= e.attempts <= retry + 1
    ensures |e.countdown| <= e.attempts
    decreases retry
  {
    var a := run(cmd, Retries - retry);
    if Stops(accepts, a) then Execution(1, a.err, [])
    else if retry == 0 then Execution(1, a.err, [0])
    else
      var rest := Retried(accepts, cmd, run, retry - 1);
      Execution(1 + rest.attempts, rest.err, [retry] + rest.countdown)
  }

  /** One iteration of the loop from `retry` on, unfolded. */
  lemma RetriedStep(accepts: Checker, cmd: Command, run: Runner, retry: nat)
    requires retry <= Retries
    ensures var a := run(cmd, Retries - retry);
            var e := Retried(accepts, cmd, run, retry);
            && (Stops(accepts, a) ==> e == Execution(1, a.err, []))
            && (!Stops(accepts, a) && retry == 0 ==> e == Execution(1, a.err, [0]))
            && (!Stops(accepts, a) && retry > 0 ==>
                  var rest := Retried(accepts, cmd, run, retry - 1);
                  e == Execution(1 + rest.attempts, rest.err, [retry] + rest.countdown))
  {
  }

  /** The whole loop, as `execSuppressed` runs it. */
  function Exec(accepts: Checker, cmd: Command, run: Runner): Execution
  {
    Retried(accepts, cmd, run, Retries)
  }

  /** Counting down from `retry`: retry, retry - 1, ... (n values). */
  function Countdown(retry: int, n: nat): seq<int>
  {
    seq(n, i => retry - i)
  }

  /** The last attempt the loop makes from `retry` on. */
  function LastAttempt(accepts: Checker, cmd: Command, run: Runner, retry: nat): Attempt
    requires retry <= Retries
  {
    run(cmd, Retries - retry + Retried(accepts, cmd, run, retry).attempts - 1)
  }

  /**
   * What the loop does, from `retry` on: every attempt but the last failed
   * and was rejected; the last one stopped the loop unless the counter ran
   * out; its error is the result; one count was printed per attempt that did
   * not stop the loop, counting down from `retry`.
   */
  lemma {:induction false} RetriedMeaning(accepts: Checker, cmd: Command, run: Runner, retry: nat)
    requires retry <= Retries
    ensures var e := Retried(accepts, cmd, run, retry);
            var first := Retries - retry;
            var last := LastAttempt(accepts, cmd, run, retry);
            && (forall k :: first <= k < first + e.attempts - 1 ==> !Stops(accepts, run(cmd, k)))
            && (e.attempts <= retry ==> Stops(accepts, last))
            && e.err == last.err
            && e.countdown == Countdown(retry, if Stops(accepts, last) then e.attempts - 1 else e.attempts)
    decreases retry
  {
    var a := run(cmd, Retries - retry);
    if !Stops(accepts, a) && retry > 0 {
      RetriedMeaning(accepts, cmd, run, retry - 1);
      var e := Retried(accepts, cmd, run, retry);
      var rest := Retried(accepts, cmd, run, retry - 1);
      var last := LastAttempt(accepts, cmd, run, retry);
      assert last == LastAttempt(accepts, cmd, run, retry - 1);
      var n := if Stops(accepts, last) then rest.attempts - 1 else rest.attempts;
      assert [retry] + Countdown(retry - 1, n) == Countdown(retry, n + 1);
    }
  }

  /** An attempt that stops the loop after earlier ones that did not is the last; its error is returned. */
  lemma {:induction false} StopsAt(accepts: Checker, cmd: Command, run: Runner, k: nat)
    requires k < MaxAttempts
    requires forall j :: 0 <= j < k ==> !Stops(accepts, run(cmd, j))
    requires Stops(accepts, run(cmd, k))
    ensures Exec(accepts, cmd, run) == Execution(k + 1, run(cmd, k).err, Countdown(Retries, k))
  {
    var e := Exec(accepts, cmd, run);
    RetriedMeaning(accepts, cmd, run, Retries);
  }

  /** Success on the first attempt: one attempt, no error, nothing printed. */
  lemma FirstAttemptSucceeds(accepts: Checker, cmd: Command, run: Runner)
    requires run(cmd, 0).err.None?
    ensures Exec(accepts, cmd, run) == Execution(1, None, [])
  {
    StopsAt(accepts, cmd, run, 0);
  }

  /**
   * An accepted failure ends the loop at once but is still the error
   * returned: the checker only stops the retries.
   */
  lemma AcceptedFailureKeepsError(accepts: Checker, cmd: Command, run: Runner, k: nat)
    requires k < MaxAttempts
    requires forall j :: 0 <= j < k ==> !Stops(accepts, run(cmd, j))
    requires run(cmd, k).err.Some? && accepts(run(cmd, k).output)
    ensures Exec(accepts, cmd, run).attempts == k + 1
    ensures Exec(accepts, cmd, run).err == run(cmd, k).err != None
  {
    StopsAt(accepts, cmd, run, k);
  }

  /** Three failed, rejected attempts: the counts 2, 1, 0 are printed and the third error is returned. */
  lemma {:induction false} AllAttemptsRejected(accepts: Checker, cmd: Command, run: Runner)
    requires forall j :: 0 <= j < MaxAttempts ==> !Stops(accepts, run(cmd, j))
    ensures Exec(accepts, cmd, run) == Execution(3, run(cmd, 2).err, [2, 1, 0])
  {
    RetriedMeaning(accepts, cmd, run, Retries);
    var e := Exec(accepts, cmd, run);
    assert !Stops(accepts, run(cmd, e.attempts - 1));
    assert Countdown(Retries, 3) == [2, 1, 0];
  }

  /** The loop returns no error exactly when its last attempt succeeded. */
  lemma ExecSucceedsIffLastSucceeds(accepts: Checker, cmd: Command, run: Runner)
    ensures Exec(accepts, cmd, run).err.None? <==> LastAttempt(accepts, cmd, run, Retries).err.None?
  {
    RetriedMeaning(accepts, cmd, run, Retries);
  }

  /** With `alwaysErr` only a success ends the loop early: no error iff one of the three attempts succeeded. */
  lemma {:induction false} AlwaysErrSucceedsIff(cmd: Command, run: Runner)
    ensures Exec(AlwaysErr, cmd, run).err.None? <==> exists j :: 0 <= j < MaxAttempts && run(cmd, j).err.None?
  {
    RetriedMeaning(AlwaysErr, cmd, run, Retries);
    var e := Exec(AlwaysErr, cmd, run);
    if exists j :: 0 <= j < MaxAttempts && run(cmd, j).err.None? {
      var j :| 0 <= j < MaxAttempts && run(cmd, j).err.None?;
      if e.attempts - 1 < j {
        assert Stops(AlwaysErr, LastAttempt(AlwaysErr, cmd, run, Retries));
      }
    }
  }

  /**
   * The loop from the start: one to three attempts, every one before the
   * last failed and was rejected, fewer than three means the last one
   * stopped the loop, and the last one's error is returned.
   */
  lemma ExecMeaning(accepts: Checker, cmd: Command, run: Runner)
    ensures var e := Exec(accepts, cmd, run);
            && 1 <= e.attempts <= MaxAttempts
            && (forall k :: 0 <= k < e.attempts - 1 ==> !Stops(accepts, run(cmd, k)))
            && (e.attempts < MaxAttempts ==> Stops(accepts, run(cmd, e.attempts - 1)))
            && e.err == run(cmd, e.attempts - 1).err
  {
    RetriedMeaning(accepts, cmd, run, Retries);
  }

  /**
   * `execSuppressed`: at most three attempts at `cmd`, stopping at the first
   * one that succeeds or whose output `accepts` takes; the error of the last
   * attempt is returned and each attempt that does not stop the loop prints
   * the remaining retry count. The loop makes the attempts, returns the error
   * and prints the counts that `Exec` describes; `ExecMeaning` and the
   * lemmas above say what that execution is.
   */
  method ExecSuppressed(accepts: Checker, cmd: Command, run: Runner)
    returns (err: Option<Error>, ghost issued: seq<Command>, ghost countdown: seq<int>)
    ensures err == Exec(accepts, cmd, run).err
    ensures Execution(|issued|, err, countdown) == Exec(accepts, cmd, run)
    ensures forall k :: 0 <= k < |issued| ==> issued[k] == cmd
  {
    ghost var spec := Exec(accepts, cmd, run);
    ghost var rest := spec;
    err, issued, countdown := None, [], [];
    var retry: int := Retries;
    while retry >= 0
      invariant -1 <= retry <= Retries
      invariant |issued| == Retries - retry
      invariant forall k :: 0 <= k < |issued| ==> issued[k] == cmd
      invariant retry >= 0 ==> rest == Retried(accepts, cmd, run, retry)
      invariant retry >= 0 ==> spec == Execution(|issued| + rest.attempts, rest.err, countdown + rest.countdown)
      invariant retry < 0 ==> spec == Execution(|issued|, err, countdown)
      decreases retry + 1
    {
      var a := run(cmd, Retries - retry);
      RetriedStep(accepts, cmd, run, retry);
      issued := issued + [cmd];
      err := a.err;
      if err.None? || accepts(a.output) {
        break;
      }
      if retry > 0 {
        rest := Retried(accepts, cmd, run, retry - 1);
        assert countdown + ([retry] + rest.countdown) == (countdown + [retry]) + rest.countdown;
      }
      countdown := countdown + [retry];
      retry := retry - 1;
    }
  }

  /** The workspace as teardown sees it: the repository's name and the namespace the configuration gives it. */
  datatype Workspace = Workspace(repository: string, namespace: string)

  /** The observable steps of a teardown, in the order they happen. */
  datatype Event =
    | RefreshKubeConfig
    | Run(cmd: Command)
    | ScheduleFinalizer(namespace: string)
    | Chdir(path: string)
    | RemoveFile(path: string)

  /**
   * The answers of everything outside the model: the process runner, the
   * absolute path of `<repository>/terraform` and the repository root that
   * git reports. The source discards the results of KubeConfig, os.Chdir and
   * os.Remove, so those calls appear only as events.
   */
  datatype Host = Host(
    run: Runner,
    terraformDir: Result<string>,
    repoRoot: Result<string>)

  /** What one teardown step returned and did. */
  datatype Step = Step(err: Option<Error>, events: seq<Event>)

  /** n attempts at `cmd`. */
  function Runs(cmd: Command, n: nat): (r: seq<Event>)
    ensures |r| == n && forall e :: e in r ==> e == Run(cmd)
  {
    seq(n, _ => Run(cmd))
  }

  function GetValues(w: Workspace): Command
  {
    Command("helm", ["get", "values", w.repository, "-n", w.namespace])
  }

  function HelmDel(w: Workspace): Command
  {
    Command("helm", ["del", w.repository, "-n", w.namespace])
  }

  const TerraformInit: Command := Command("terraform", ["init", "-upgrade"])
  const TerraformDestroy: Command := Command("terraform", ["destroy", "-auto-approve"])

  /** `<repoRoot>/<repository>/deploy.hcl` (path sanitising is not modelled). */
  function DeployFile(root: string, w: Workspace): string
  {
    root + "/" + w.repository + "/deploy.hcl"
  }

  /**
   * DestroyHelm: refresh the kube config (its error is ignored), probe the
   * release with `alwaysErr`; a failed probe means the release is gone and
   * nothing is deleted; otherwise delete it, tolerating "release ... not
   * found" output.
   */
  function HelmTeardown(w: Workspace, h: Host): Step
  {
    var probe := Exec(AlwaysErr, GetValues(w), h.run);
    var probed := [RefreshKubeConfig] + Runs(GetValues(w), probe.attempts);
    if probe.err.Some? then Step(None, probed)
    else
      var del := Exec(IgnoreNotFound, HelmDel(w), h.run);
      Step(del.err, probed + Runs(HelmDel(w), del.attempts))
  }

  /**
   * DestroyTerraform: fail if the terraform directory cannot be resolved;
   * otherwise schedule the namespace finalizer, change into the directory
   * (its error is ignored), run `init -upgrade` and, only if that succeeded,
   * `destroy -auto-approve`.
   */
  function TerraformTeardown(w: Workspace, h: Host): Step
  {
    match h.terraformDir
    case Failure(e) => Step(Some(e), [])
    case Success(path) =>
      var init := Exec(AlwaysErr, TerraformInit, h.run);
      var initialised := [ScheduleFinalizer(w.namespace), Chdir(path)] + Runs(TerraformInit, init.attempts);
      if init.err.Some? then Step(init.err, initialised)
      else
        var destroy := Exec(AlwaysErr, TerraformDestroy, h.run);
        Step(destroy.err, initialised + Runs(TerraformDestroy, destroy.attempts))
  }

  /** Reset: fail only if the repository root is unknown; the removal's own error is ignored. */
  function ResetWorkspace(w: Workspace, h: Host): Step
  {
    match h.repoRoot
    case Failure(e) => Step(Some(e), [])
    case Success(root) => Step(None, [RemoveFile(DeployFile(root, w))])
  }

  /** Destroy: helm, then terraform, then reset, each only if every earlier one returned no error. */
  function Teardown(w: Workspace, h: Host): Step
  {
    var helm := HelmTeardown(w, h);
    if helm.err.Some? then helm
    else
      var terraform := TerraformTeardown(w, h);
      if terraform.err.Some? then Step(terraform.err, helm.events + terraform.events)
      else
        var reset := ResetWorkspace(w, h);
        Step(reset.err, helm.events + terraform.events + reset.events)
  }

  /** Whether an event belongs to the terraform step. */
  predicate IsTerraformEvent(e: Event)
  {
    e.ScheduleFinalizer? || e.Chdir? || e == Run(TerraformInit) || e == Run(TerraformDestroy)
  }

  lemma HelmEventsAreHelms(w: Workspace, h: Host)
    ensures forall e :: e in HelmTeardown(w, h).events ==> !IsTerraformEvent(e) && !e.RemoveFile?
  {
    var probe := Exec(AlwaysErr, GetValues(w), h.run);
    var probed := [RefreshKubeConfig] + Runs(GetValues(w), probe.attempts);
    if probe.err.None? {
      var del := Exec(IgnoreNotFound, HelmDel(w), h.run);
      assert HelmTeardown(w, h).events == probed + Runs(HelmDel(w), del.attempts);
    }
  }

  /** A failed probe means success without any delete attempt. */
  lemma HelmProbeFailureSkipsDelete(w: Workspace, h: Host)
    requires Exec(AlwaysErr, GetValues(w), h.run).err.Some?
    ensures HelmTeardown(w, h).err == None
    ensures Run(HelmDel(w)) !in HelmTeardown(w, h).events
  {
  }

  /** A succeeding probe leads to the delete, whose result is the step's result. */
  lemma HelmProbeSuccessDeletes(w: Workspace, h: Host)
    requires Exec(AlwaysErr, GetValues(w), h.run).err.None?
    ensures HelmTeardown(w, h).err == Exec(IgnoreNotFound, HelmDel(w), h.run).err
    ensures Run(HelmDel(w)) in HelmTeardown(w, h).events
  {
    var probe := Exec(AlwaysErr, GetValues(w), h.run);
    var del := Exec(IgnoreNotFound, HelmDel(w), h.run);
    var events := [RefreshKubeConfig] + Runs(GetValues(w), probe.attempts) + Runs(HelmDel(w), del.attempts);
    assert events[|events| - 1] == Run(HelmDel(w));
  }

  /**
   * The release is already gone: the probe fails three times (alwaysErr
   * accepts nothing), and the step succeeds without deleting.
   */
  lemma HelmAlreadyUninstalled(w: Workspace, h: Host)
    requires forall j :: 0 <= j < MaxAttempts ==> h.run(GetValues(w), j).err.Some?
    ensures HelmTeardown(w, h) == Step(None, [RefreshKubeConfig] + Runs(GetValues(w), 3))
  {
    AllAttemptsRejected(AlwaysErr, GetValues(w), h.run);
  }

  /**
   * The release vanishes between probe and delete: helm's "not found"
   * output is accepted, so there is no retry, but the delete's error is
   * still the step's result and Destroy stops before terraform.
   */
  lemma DeleteRaceStillFails(w: Workspace, h: Host, e: Error)
    requires h.run(GetValues(w), 0).err.None?
    requires h.run(HelmDel(w), 0) == Attempt(Some(e), "Error: uninstall: release: \"foo\" not found")
    ensures HelmTeardown(w, h) == Step(Some(e), [RefreshKubeConfig, Run(GetValues(w)), Run(HelmDel(w))])
    ensures Teardown(w, h) == HelmTeardown(w, h)
  {
    Suppression.HelmNotFoundMessageMatches();
    FirstAttemptSucceeds(AlwaysErr, GetValues(w), h.run);
    StopsAt(IgnoreNotFound, HelmDel(w), h.run, 0);
    assert Runs(GetValues(w), 1) == [Run(GetValues(w))];
    assert Runs(HelmDel(w), 1) == [Run(HelmDel(w))];
  }

  /** `terraform destroy` is attempted only after `terraform init` returned no error. */
  lemma DestroyOnlyAfterInit(w: Workspace, h: Host)
    requires Run(TerraformDestroy) in TerraformTeardown(w, h).events
    ensures h.terraformDir.Success?
    ensures Exec(AlwaysErr, TerraformInit, h.run).err.None?
  {
  }

  /** Reset fails exactly when the repository root cannot be found. */
  lemma ResetFailsOnlyWithoutRoot(w: Workspace, h: Host)
    ensures ResetWorkspace(w, h).err.None? <==> h.repoRoot.Success?
    ensures h.repoRoot.Failure? ==> ResetWorkspace(w, h).err == Some(h.repoRoot.error)
  {
  }

  /**
   * Fail-fast order: terraform runs only after helm returned no error, the
   * reset only after both did, and Destroy succeeds exactly when all three
   * steps do.
   */
  lemma {:induction false} TeardownIsFailFast(w: Workspace, h: Host)
    ensures (exists e :: e in Teardown(w, h).events && IsTerraformEvent(e)) ==> HelmTeardown(w, h).err.None?
    ensures (exists e :: e in Teardown(w, h).events && e.RemoveFile?) ==>
              HelmTeardown(w, h).err.None? && TerraformTeardown(w, h).err.None?
    ensures Teardown(w, h).err.None? <==>
              HelmTeardown(w, h).err.None? && TerraformTeardown(w, h).err.None? && ResetWorkspace(w, h).err.None?
    ensures Teardown(w, h).err ==
              if HelmTeardown(w, h).err.Some? then HelmTeardown(w, h).err
              else if TerraformTeardown(w, h).err.Some? then TerraformTeardown(w, h).err
              else ResetWorkspace(w, h).err
  {
    HelmEventsAreHelms(w, h);
  }

  /**
   * Terraform destroy fails three times (say, on a held state lock): Destroy
   * returns the third error after exactly three destroy attempts and never
   * resets the workspace.
   */
  lemma DestroyExhaustsRetries(w: Workspace, h: Host)
    requires HelmTeardown(w, h).err.None?
    requires h.terraformDir.Success? && h.run(TerraformInit, 0).err.None?
    requires forall j :: 0 <= j < MaxAttempts ==> h.run(TerraformDestroy, j).err.Some?
    ensures Teardown(w, h).err == h.run(TerraformDestroy, 2).err
    ensures Teardown(w, h).events ==
              HelmTeardown(w, h).events
              + [ScheduleFinalizer(w.namespace), Chdir(h.terraformDir.value), Run(TerraformInit)]
              + Runs(TerraformDestroy, 3)
    ensures forall e :: e in Teardown(w, h).events ==> !e.RemoveFile?
  {
    FirstAttemptSucceeds(AlwaysErr, TerraformInit, h.run);
    AllAttemptsRejected(AlwaysErr, TerraformDestroy, h.run);
    HelmEventsAreHelms(w, h);
    assert Runs(TerraformInit, 1) == [Run(TerraformInit)];
  }

  method DestroyHelm(w: Workspace, h: Host) returns (err: Option<Error>, ghost events: seq<Event>)
    ensures err == HelmTeardown(w, h).err
    ensures Step(err, events) == HelmTeardown(w, h)
  {
    ghost var probed, del: seq<Command>;
    ghost var counts: seq<int>;
    var probe;
    probe, probed, counts := ExecSuppressed(AlwaysErr, GetValues(w), h.run);
    events := [RefreshKubeConfig] + Runs(GetValues(w), |probed|);
    if probe.Some? {
      return None, events;
    }
    err, del, counts := ExecSuppressed(IgnoreNotFound, HelmDel(w), h.run);
    events := events + Runs(HelmDel(w), |del|);
  }

  method DestroyTerraform(w: Workspace, h: Host) returns (err: Option<Error>, ghost events: seq<Event>)
    ensures err == TerraformTeardown(w, h).err
    ensures Step(err, events) == TerraformTeardown(w, h)
  {
    if h.terraformDir.Failure? {
      return Some(h.terraformDir.error), [];
    }
    var path := h.terraformDir.value;
    events := [ScheduleFinalizer(w.namespace), Chdir(path)];
    ghost var issued: seq<Command>;
    ghost var counts: seq<int>;
    err, issued, counts := ExecSuppressed(AlwaysErr, TerraformInit, h.run);
    events := events + Runs(TerraformInit, |issued|);
    if err.Some? {
      return;
    }
    err, issued, counts := ExecSuppressed(AlwaysErr, TerraformDestroy, h.run);
    events := events + Runs(TerraformDestroy, |issued|);
  }

  method Reset(w: Workspace, h: Host) returns (err: Option<Error>, ghost events: seq<Event>)
    ensures err == ResetWorkspace(w, h).err
    ensures Step(err, events) == ResetWorkspace(w, h)
  {
    if h.repoRoot.Failure? {
      return Some(h.repoRoot.error), [];
    }
    var deployFile := DeployFile(h.repoRoot.value, w);
    return None, [RemoveFile(deployFile)];
  }

  method Destroy(w: Workspace, h: Host) returns (err: Option<Error>, ghost events: seq<Event>)
    ensures err == Teardown(w, h).err
    ensures Step(err, events) == Teardown(w, h)
  {
    ghost var more: seq<Event>;
    err, events := DestroyHelm(w, h);
    if err.Some? {
      return;
    }
    err, more := DestroyTerraform(w, h);
    events := events + more;
    if err.Some? {
      return;
    }
    err, more := Reset(w, h);
    events := events + more;
  }
}
