/**
 * One package's card: its remediation state (three busy flags, the
 * `wasUpgraded` flag and the one message it shows), the three handlers that
 * drive the upgrade, commit-and-push and checkout server actions, and the
 * pure conditions that decide which buttons the card offers.
 */
module PackageCard {
  import opened Wrappers
  import opened Text
  import opened Packages

  /** The three remediation operations, one per handler. */
  datatype Operation = Upgrade | Commit | Checkout

  /**
   * What awaiting a server action yields: its result object (`success` true
   * with an optional `message`, or false with an optional `error`), or an
   * exception caught by the handler's `catch`.
   */
  datatype Outcome =
    | Success(message: Option<string>)
    | Failure(error: Option<string>)
    | Fault

  /** The banner: `{ type: "success" | "error", text }`. */
  datatype Message = SuccessMessage(text: string) | ErrorMessage(text: string)

  /** The card's `useState` variables, as one value. */
  datatype CardState = CardState(
    isUpgrading: bool,
    isCommitting: bool,
    isCheckingOut: bool,
    wasUpgraded: bool,
    message: Option<Message>)

  const Initial := CardState(false, false, false, false, None)

  const UnexpectedText := "An unexpected error occurred"

  /** The busy flag that belongs to `op`. */
  function Busy(s: CardState, op: Operation): bool {
    match op
    case Upgrade => s.isUpgrading
    case Commit => s.isCommitting
    case Checkout => s.isCheckingOut
  }

  predicate AllIdle(s: CardState) {
    !s.isUpgrading && !s.isCommitting && !s.isCheckingOut
  }

  function SetBusy(s: CardState, op: Operation, b: bool): (r: CardState)
    ensures Busy(r, op) == b
    ensures forall other :: other != op ==> Busy(r, other) == Busy(s, other)
    ensures r.wasUpgraded == s.wasUpgraded && r.message == s.message
  {
    match op
    case Upgrade => s.(isUpgrading := b)
    case Commit => s.(isCommitting := b)
    case Checkout => s.(isCheckingOut := b)
  }

  /** The text shown on success when the action gives no message. */
  function SuccessText(op: Operation): string {
    match op
    case Upgrade => "Upgraded!"
    case Commit => "Committed and pushed!"
    case Checkout => "Checked out!"
  }

  /** The text shown on failure when the action gives no error. */
  function FailureText(op: Operation): string {
    match op
    case Upgrade => "Upgrade failed"
    case Commit => "Commit failed"
    case Checkout => "Checkout failed"
  }

  /** JavaScript's `s || fallback` for an optional string. */
  function OrElse(s: Option<string>, fallback: string): (r: string)
    ensures Truthy(s) ==> r == s.value
    ensures !Truthy(s) ==> r == fallback
    ensures fallback != "" ==> r != ""
  {
    if s.Some? && s.value != "" then s.value else fallback
  }

  /** The message a handler shows once its action has finished with `o`. */
  function Report(op: Operation, o: Outcome): (m: Message)
    ensures m.SuccessMessage? <==> o.Success?
    ensures m.text != ""
    ensures o.Success? ==> m.text == (if Truthy(o.message) then o.message.value else SuccessText(op))
    ensures o.Failure? ==> m.text == (if Truthy(o.error) then o.error.value else FailureText(op))
    ensures o.Fault? ==> m.text == UnexpectedText
  {
    match o
    case Success(text) => SuccessMessage(OrElse(text, SuccessText(op)))
    case Failure(text) => ErrorMessage(OrElse(text, FailureText(op)))
    case Fault => ErrorMessage(UnexpectedText)
  }

  /** The state right after a handler has run up to its `await`. */
  function Start(s: CardState, op: Operation): (r: CardState)
    ensures Busy(r, op) && r.message.None?
    ensures forall other :: other != op ==> Busy(r, other) == Busy(s, other)
    ensures r.wasUpgraded == s.wasUpgraded
  {
    SetBusy(s, op, true).(message := None)
  }

  /** The state once the awaited action has finished with `o` and `finally` has run. */
  function Complete(s: CardState, op: Operation, o: Outcome): (r: CardState)
    ensures !Busy(r, op)
    ensures forall other :: other != op ==> Busy(r, other) == Busy(s, other)
    ensures r.message == Some(Report(op, o))
    ensures r.wasUpgraded <==> s.wasUpgraded || (op == Upgrade && o.Success?)
  {
    var r := SetBusy(s, op, false).(message := Some(Report(op, o)));
    if op == Upgrade && o.Success? then r.(wasUpgraded := true) else r
  }

  // ---- What the card shows -------------------------------------------------

  datatype Icon = Spinner | Download | Home | ArrowUpCircle | GitCommit

  /** A rendered button: its icon, its caption, an optional badge, and whether it is enabled. */
  datatype Button = Button(icon: Icon, caption: string, badge: Option<string>, enabled: bool)

  /** The "on default branch" test as the card writes it: the branch is literally main or master. */
  predicate OnMainOrMaster(p: PackageInfo) {
    p.gitBranch == Some("main") || p.gitBranch == Some("master")
  }

  predicate IsBehind(p: PackageInfo) {
    p.commitsBehindDefault.Some? && p.commitsBehindDefault.value > 0
  }

  /** The "+N" badge text. */
  function BadgeText(n: nat): (t: string)
    ensures t == "+" + Decimal(n)
    ensures ParseBadge(t) == Some(n)
  {
    var t := "+" + Decimal(n);
    assert t[1..] == Decimal(n);
    ParseDecimalRoundTrip(n);
    t
  }

  /** Reads a badge back; the partner of BadgeText. */
  function ParseBadge(t: string): Option<nat> {
    if |t| >= 1 && t[0] == '+' then ParseDecimal(t[1..]) else None
  }

  /** The checkout / pull button in the card's header, if it is rendered. */
  function CheckoutButton(p: PackageInfo, s: CardState): (r: Option<Button>)
    ensures r.Some? <==>
      Truthy(p.gitBranch) && Truthy(p.defaultBranch) && (!OnMainOrMaster(p) || IsBehind(p))
    ensures r.Some? ==> (r.value.enabled <==> AllIdle(s))
    ensures r.Some? ==> (r.value.icon == Spinner <==> s.isCheckingOut)
    ensures r.Some? && !s.isCheckingOut ==> r.value.icon == (if OnMainOrMaster(p) then Download else Home)
    ensures r.Some? ==> r.value.caption == (if OnMainOrMaster(p) then "Pull" else p.defaultBranch.value)
    ensures r.Some? ==> r.value.caption != ""
    ensures r.Some? ==> (r.value.badge.Some? <==> IsBehind(p))
    ensures r.Some? && IsBehind(p) ==>
      ParseBadge(r.value.badge.value) == Some(p.commitsBehindDefault.value as nat)
    ensures r.Some? && IsBehind(p) ==>
      r.value.badge == Some(BadgeText(p.commitsBehindDefault.value as nat))
  {
    if Truthy(p.gitBranch) && Truthy(p.defaultBranch) && (!OnMainOrMaster(p) || IsBehind(p)) then
      var onDefault := p.gitBranch == Some("main") || p.gitBranch == Some("master");
      var icon := if s.isCheckingOut then Spinner else if onDefault then Download else Home;
      var caption := if onDefault then "Pull" else p.defaultBranch.value;
      var badge :=
        if p.commitsBehindDefault.Some? && p.commitsBehindDefault.value > 0
        then Some(BadgeText(p.commitsBehindDefault.value))
        else None;
      Some(Button(icon, caption, badge, !(s.isUpgrading || s.isCommitting || s.isCheckingOut)))
    else
      None
  }

  /** The "Upgrade Dependencies" button, if it is rendered. */
  function UpgradeButton(p: PackageInfo, s: CardState): (r: Option<Button>)
    ensures r.Some? <==> IsVulnerable(p)
    ensures r.Some? ==> (r.value.enabled <==> !s.isUpgrading && !s.isCommitting)
    ensures r.Some? ==> r.value.icon == (if s.isUpgrading then Spinner else ArrowUpCircle)
    ensures r.Some? ==> r.value.caption == "Upgrade Dependencies" && r.value.badge.None?
  {
    if IsVulnerable(p) then
      Some(Button(if s.isUpgrading then Spinner else ArrowUpCircle, "Upgrade Dependencies", None,
                  !(s.isUpgrading || s.isCommitting)))
    else
      None
  }

  /** The "Commit & Push" button, if it is rendered. */
  function CommitButton(p: PackageInfo, s: CardState): (r: Option<Button>)
    ensures r.Some? <==> IsVulnerable(p) || s.wasUpgraded
    ensures r.Some? ==> (r.value.enabled <==> !s.isUpgrading && !s.isCommitting)
    ensures r.Some? ==> r.value.icon == (if s.isCommitting then Spinner else GitCommit)
    ensures r.Some? ==> r.value.caption == "Commit & Push" && r.value.badge.None?
  {
    if IsVulnerable(p) || s.wasUpgraded then
      Some(Button(if s.isCommitting then Spinner else GitCommit, "Commit & Push", None,
                  !(s.isUpgrading || s.isCommitting)))
    else
      None
  }

  function ButtonFor(p: PackageInfo, s: CardState, op: Operation): Option<Button> {
    match op
    case Upgrade => UpgradeButton(p, s)
    case Commit => CommitButton(p, s)
    case Checkout => CheckoutButton(p, s)
  }

  /**
   * Whether a click can start `op`: its button is rendered and enabled. The
   * handlers themselves check nothing; this is the only guard there is.
   */
  predicate Invocable(p: PackageInfo, s: CardState, op: Operation)
    ensures op == Upgrade ==>
      (Invocable(p, s, op) <==> IsVulnerable(p) && !s.isUpgrading && !s.isCommitting)
    ensures op == Commit ==>
      (Invocable(p, s, op) <==> (IsVulnerable(p) || s.wasUpgraded) && !s.isUpgrading && !s.isCommitting)
    ensures op == Checkout ==>
      (Invocable(p, s, op) <==>
        Truthy(p.gitBranch) && Truthy(p.defaultBranch) && (!OnMainOrMaster(p) || IsBehind(p)) && AllIdle(s))
  {
    ButtonFor(p, s, op).Some? && ButtonFor(p, s, op).value.enabled
  }

  /** An enabled button never starts an operation that is already running. */
  lemma InvocableOnlyWhenNotBusy(p: PackageInfo, s: CardState, op: Operation)
    requires Invocable(p, s, op)
    ensures !Busy(s, op)
    ensures op == Checkout ==> AllIdle(s)
    ensures op != Checkout ==> !s.isUpgrading && !s.isCommitting
  {
  }

  // ---- The component's state, updated in place --------------------------------

  class Card {
    const info: PackageInfo
    var isUpgrading: bool
    var isCommitting: bool
    var isCheckingOut: bool
    var wasUpgraded: bool
    var message: Option<Message>

    function State(): CardState
      reads this
    {
      CardState(isUpgrading, isCommitting, isCheckingOut, wasUpgraded, message)
    }

    /**
     * The button for `op` as this card renders it from its `packageInfo`
     * prop and its current state; an enabled one never starts an operation
     * that is already in flight.
     */
    function RenderedButton(op: Operation): (r: Option<Button>)
      reads this
      ensures r.Some? && r.value.enabled ==> !Busy(State(), op)
      ensures op == Checkout && r.Some? && r.value.enabled ==> AllIdle(State())
      ensures op == Upgrade ==> (r.Some? <==> IsVulnerable(info))
      ensures op == Commit ==> (r.Some? <==> IsVulnerable(info) || wasUpgraded)
    {
      ButtonFor(info, State(), op)
    }

    constructor (info: PackageInfo)
      ensures this.info == info && State() == Initial
    {
      this.info := info;
      isUpgrading, isCommitting, isCheckingOut := false, false, false;
      wasUpgraded := false;
      message := None;
    }

    /** `handleUpgrade` up to its `await`. */
    method StartUpgrade()
      modifies this
      ensures State() == Start(old(State()), Upgrade)
      ensures isUpgrading && message.None?
      ensures isCommitting == old(isCommitting) && isCheckingOut == old(isCheckingOut)
      ensures wasUpgraded == old(wasUpgraded)
    {
      isUpgrading := true;
      message := None;
    }

    /** `handleUpgrade` from its `await` on: the result, the `catch` and the `finally`. */
    method CompleteUpgrade(outcome: Outcome)
      modifies this
      ensures State() == Complete(old(State()), Upgrade, outcome)
      ensures !isUpgrading && message == Some(Report(Upgrade, outcome))
      ensures isCommitting == old(isCommitting) && isCheckingOut == old(isCheckingOut)
      ensures wasUpgraded == (old(wasUpgraded) || outcome.Success?)
    {
      match outcome {
        case Success(text) =>
          message := Some(SuccessMessage(OrElse(text, "Upgraded!")));
          wasUpgraded := true;
        case Failure(text) =>
          message := Some(ErrorMessage(OrElse(text, "Upgrade failed")));
        case Fault =>
          message := Some(ErrorMessage("An unexpected error occurred"));
      }
      isUpgrading := false;
    }

    /** `handleCommit` up to its `await`. */
    method StartCommit()
      modifies this
      ensures State() == Start(old(State()), Commit)
      ensures isCommitting && message.None?
      ensures isUpgrading == old(isUpgrading) && isCheckingOut == old(isCheckingOut)
      ensures wasUpgraded == old(wasUpgraded)
    {
      isCommitting := true;
      message := None;
    }

    /** `handleCommit` from its `await` on. */
    method CompleteCommit(outcome: Outcome)
      modifies this
      ensures State() == Complete(old(State()), Commit, outcome)
      ensures !isCommitting && message == Some(Report(Commit, outcome))
      ensures isUpgrading == old(isUpgrading) && isCheckingOut == old(isCheckingOut)
      ensures wasUpgraded == old(wasUpgraded)
    {
      match outcome {
        case Success(text) =>
          message := Some(SuccessMessage(OrElse(text, "Committed and pushed!")));
        case Failure(text) =>
          message := Some(ErrorMessage(OrElse(text, "Commit failed")));
        case Fault =>
          message := Some(ErrorMessage("An unexpected error occurred"));
      }
      isCommitting := false;
    }

    /** `handleCheckout` up to its `await`. */
    method StartCheckout()
      modifies this
      ensures State() == Start(old(State()), Checkout)
      ensures isCheckingOut && message.None?
      ensures isUpgrading == old(isUpgrading) && isCommitting == old(isCommitting)
      ensures wasUpgraded == old(wasUpgraded)
    {
      isCheckingOut := true;
      message := None;
    }

    /** `handleCheckout` from its `await` on. */
    method CompleteCheckout(outcome: Outcome)
      modifies this
      ensures State() == Complete(old(State()), Checkout, outcome)
      ensures !isCheckingOut && message == Some(Report(Checkout, outcome))
      ensures isUpgrading == old(isUpgrading) && isCommitting == old(isCommitting)
      ensures wasUpgraded == old(wasUpgraded)
    {
      match outcome {
        case Success(text) =>
          message := Some(SuccessMessage(OrElse(text, "Checked out!")));
        case Failure(text) =>
          message := Some(ErrorMessage(OrElse(text, "Checkout failed")));
        case Fault =>
          message := Some(ErrorMessage("An unexpected error occurred"));
      }
      isCheckingOut := false;
    }
  }
}
