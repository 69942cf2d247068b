/**
 * Runs of one card: a handler's `await` is the only point where another
 * click can be handled, so a run is a sequence of steps, each either a click
 * that runs a handler up to its `await` or the completion of an awaited
 * action. A click carries the package record the card was rendered with, which
 * may change between steps. A run is legal when every click hits a rendered,
 * enabled button and every completion belongs to an operation that is in flight.
 */
module CardTraces {
  import opened Wrappers
  import opened Packages
  import opened PackageCard

  datatype Step = Begin(op: Operation, info: PackageInfo) | Finish(op: Operation, outcome: Outcome)

  function Apply(s: CardState, step: Step): CardState {
    match step
    case Begin(op, _) => Start(s, op)
    case Finish(op, o) => Complete(s, op, o)
  }

  function Run(s: CardState, steps: seq<Step>): CardState
    decreases |steps|
  {
    if steps == [] then s else Run(Apply(s, steps[0]), steps[1..])
  }

  predicate Allowed(s: CardState, step: Step) {
    match step
    case Begin(op, p) => Invocable(p, s, op)
    case Finish(op, _) => Busy(s, op)
  }

  predicate Legal(s: CardState, steps: seq<Step>)
    decreases |steps|
  {
    steps == [] || (Allowed(s, steps[0]) && Legal(Apply(s, steps[0]), steps[1..]))
  }

  /** The exclusion the buttons do enforce: upgrade and commit never run together. */
  predicate UpgradeCommitExclusive(s: CardState) {
    !(s.isUpgrading && s.isCommitting)
  }

  predicate UpgradeSucceeded(step: Step) {
    step.Finish? && step.op == Upgrade && step.outcome.Success?
  }

  /** Legal runs keep upgrade and commit from being in flight together. */
  lemma {:induction false} LegalRunsKeepExclusion(s: CardState, steps: seq<Step>)
    requires UpgradeCommitExclusive(s)
    requires Legal(s, steps)
    ensures UpgradeCommitExclusive(Run(s, steps))
    decreases |steps|
  {
    if steps != [] {
      if steps[0].Begin? {
        InvocableOnlyWhenNotBusy(steps[0].info, s, steps[0].op);
      }
      LegalRunsKeepExclusion(Apply(s, steps[0]), steps[1..]);
    }
  }

  /**
   * In a legal run no operation is started while its own flag is set, and
   * checkout is started only when nothing is in flight.
   */
  lemma {:induction false} LegalRunsStartOnlyWhenIdle(s: CardState, steps: seq<Step>, i: nat)
    requires Legal(s, steps)
    requires i < |steps| && steps[i].Begin?
    ensures !Busy(Run(s, steps[..i]), steps[i].op)
    ensures steps[i].op == Checkout ==> AllIdle(Run(s, steps[..i]))
    decreases i
  {
    if i == 0 {
      assert steps[..0] == [];
      InvocableOnlyWhenNotBusy(steps[0].info, s, steps[0].op);
    } else {
      assert steps[..i][1..] == steps[1..][..i - 1];
      LegalRunsStartOnlyWhenIdle(Apply(s, steps[0]), steps[1..], i - 1);
    }
  }

  /** `wasUpgraded` holds after a run exactly when it held before or an upgrade in it succeeded. */
  lemma {:induction false} WasUpgradedExactly(s: CardState, steps: seq<Step>)
    ensures Run(s, steps).wasUpgraded <==>
      s.wasUpgraded || exists i :: 0 <= i < |steps| && UpgradeSucceeded(steps[i])
    decreases |steps|
  {
    if steps != [] {
      var rest := steps[1..];
      WasUpgradedExactly(Apply(s, steps[0]), rest);
      if exists i :: 0 <= i < |rest| && UpgradeSucceeded(rest[i]) {
        var i :| 0 <= i < |rest| && UpgradeSucceeded(rest[i]);
        assert UpgradeSucceeded(steps[i + 1]);
      }
      if exists i :: 0 <= i < |steps| && UpgradeSucceeded(steps[i]) {
        var i :| 0 <= i < |steps| && UpgradeSucceeded(steps[i]);
        if i > 0 {
          assert rest[i - 1] == steps[i];
        }
      }
    }
  }

  /** Once set, `wasUpgraded` stays set, whatever the run (legal or not) does. */
  lemma WasUpgradedMonotone(s: CardState, steps: seq<Step>)
    requires s.wasUpgraded
    ensures Run(s, steps).wasUpgraded
  {
    WasUpgradedExactly(s, steps);
  }

  /**
   * The buttons do not keep checkout apart from the other two: a legal run
   * from the initial state has checkout and upgrade in flight together.
   */
  lemma UpgradeCanOverlapCheckout()
    ensures
      var p := PackageInfo("/repo/app", "app", Some("19.0.0"), None, true, false, None,
                           Some("feature-x"), Some("main"), None);
      var steps := [Begin(Checkout, p), Begin(Upgrade, p)];
      Legal(Initial, steps) && Run(Initial, steps).isCheckingOut && Run(Initial, steps).isUpgrading
  {
    var p := PackageInfo("/repo/app", "app", Some("19.0.0"), None, true, false, None,
                         Some("feature-x"), Some("main"), None);
    var steps := [Begin(Checkout, p), Begin(Upgrade, p)];
    var s1 := Start(Initial, Checkout);
    assert Invocable(p, Initial, Checkout);
    assert Invocable(p, s1, Upgrade);
    assert steps[1..] == [Begin(Upgrade, p)] && steps[1..][1..] == [];
    assert Apply(Initial, steps[0]) == s1 && Run(Initial, steps) == Run(s1, steps[1..]);
    assert Run(s1, steps[1..]) == Run(Start(s1, Upgrade), []);
  }

  /** A successful upgrade: the card is idle, remembers the upgrade and keeps offering commit. */
  lemma UpgradeScenario(p: PackageInfo)
    requires p.isReactVulnerable
    ensures
      var steps := [Begin(Upgrade, p), Finish(Upgrade, Success(Some("Upgraded react to 18.3.1")))];
      var s := Run(Initial, steps);
      Legal(Initial, steps) && AllIdle(s) && s.wasUpgraded &&
      s.message == Some(SuccessMessage("Upgraded react to 18.3.1")) &&
      CommitButton(p, s).Some? && CommitButton(p.(isReactVulnerable := false, isNextVulnerable := false), s).Some?
  {
    var done := Success(Some("Upgraded react to 18.3.1"));
    var steps := [Begin(Upgrade, p), Finish(Upgrade, done)];
    var s1 := Start(Initial, Upgrade);
    assert Invocable(p, Initial, Upgrade);
    assert steps[1..] == [Finish(Upgrade, done)] && steps[1..][1..] == [];
    assert Legal(Initial, steps);
    assert Apply(Initial, steps[0]) == s1 && Run(Initial, steps) == Run(s1, steps[1..]);
    assert Run(s1, steps[1..]) == Run(Complete(s1, Upgrade, done), []);
  }

  /** A failed commit: the action's error is shown verbatim and `wasUpgraded` is untouched. */
  lemma CommitFailureScenario(p: PackageInfo, s: CardState)
    requires IsVulnerable(p) && AllIdle(s)
    ensures
      var steps := [Begin(Commit, p), Finish(Commit, Failure(Some("nothing to commit")))];
      var t := Run(s, steps);
      Legal(s, steps) && AllIdle(t) && t.wasUpgraded == s.wasUpgraded &&
      t.message == Some(ErrorMessage("nothing to commit"))
  {
    var failed := Failure(Some("nothing to commit"));
    var steps := [Begin(Commit, p), Finish(Commit, failed)];
    var s1 := Start(s, Commit);
    assert Invocable(p, s, Commit);
    assert steps[1..] == [Finish(Commit, failed)] && steps[1..][1..] == [];
    assert Legal(s, steps);
    assert Apply(s, steps[0]) == s1 && Run(s, steps) == Run(s1, steps[1..]);
    assert Run(s1, steps[1..]) == Run(Complete(s1, Commit, failed), []);
  }
}
