// Purchase requisitions: the approval chain an estimate requires, and the life of a requisition.
module Approvals {
  import opened Option

  const AUTO_APPROVE_CENTS := 50_000.0
  const MANAGER_CENTS := 500_000.0
  const ADMIN_CENTS := 2_500_000.0

  datatype Role = Manager | Admin | Founder

  datatype Decision = Pending | Approved | Rejected

  datatype Step = Step(role: Role, decision: Decision, user: string)

  datatype Status = Draft | Submitted | Approved | Rejected | Converted | Cancelled

  // `order` is the purchase order the requisition was converted to.
  datatype Requisition = Requisition(status: Status, chain: seq<Step>, estimate: real, order: Option<string>)

  // Which status changes a transition table admits.
  type Table = (Status, Status) -> bool

  predicate Transitions(from: Status, to: Status) {
    match from
    case Draft => to.Submitted? || to.Cancelled?
    case Submitted => to.Approved? || to.Rejected? || to.Cancelled?
    case Approved => to.Converted? || to.Cancelled?
    case Rejected => to.Cancelled?
    case Converted | Cancelled => false
  }

  function BuildChain(estimate: real): seq<Step> {
    if estimate < AUTO_APPROVE_CENTS then []
    else if estimate <= MANAGER_CENTS then [Step(Manager, Pending, "")]
    else if estimate <= ADMIN_CENTS then [Step(Admin, Pending, "")]
    else [Step(Admin, Pending, ""), Step(Founder, Pending, "")]
  }

  predicate ChainComplete(chain: seq<Step>) {
    |chain| > 0 && forall step | step in chain :: step.decision.Approved?
  }

  // The first pending step, if any.
  function NextPending(chain: seq<Step>): (k: Option<nat>)
    ensures k.Some? ==> k.value < |chain| && chain[k.value].decision.Pending?
                        && forall i | 0 <= i < k.value :: !chain[i].decision.Pending?
    ensures k.None? ==> forall i | 0 <= i < |chain| :: !chain[i].decision.Pending?
  {
    if chain == [] then None
    else if chain[0].decision.Pending? then Some(0)
    else
      var k := NextPending(chain[1..]);
      if k.None? then None else Some(k.value + 1)
  }

  datatype Event = Submit | Approve(user: string) | Reject(user: string) | Cancel | Convert(order: string)

  function Decide(chain: seq<Step>, decision: Decision, user: string): seq<Step> {
    var k := NextPending(chain);
    if k.None? then chain else chain[k.value := chain[k.value].(decision := decision, user := user)]
  }

  function Created(estimate: real): Requisition {
    Requisition(Draft, BuildChain(estimate), estimate, None)
  }

  function Try(table: Table, r: Requisition, e: Event): Option<Requisition> {
    match e
    case Submit =>
      if !table(r.status, Submitted) then None
      else Some(r.(status := if |r.chain| == 0 then Status.Approved else Submitted))
    case Approve(user) =>
      if (!r.status.Submitted? && !r.status.Approved?) || NextPending(r.chain).None? then None
      else
        var chain := Decide(r.chain, Decision.Approved, user);
        if !ChainComplete(chain) then Some(r.(chain := chain))
        else if !table(r.status, Status.Approved) then None
        else Some(r.(chain := chain, status := Status.Approved))
    case Reject(user) =>
      if !table(r.status, Status.Rejected) then None
      else Some(r.(status := Status.Rejected, chain := Decide(r.chain, Decision.Rejected, user)))
    case Cancel => if !table(r.status, Cancelled) then None else Some(r.(status := Cancelled))
    case Convert(order) =>
      if !r.status.Approved? || r.order.Some? || !table(r.status, Converted) then None
      else Some(r.(status := Converted, order := Some(order)))
  }

  class PurchaseRequisition {
    var status: Status
    var chain: seq<Step>
    const estimate: real
    var order: Option<string>

    constructor (estimate: real)
      ensures State() == Created(estimate)
    {
      this.estimate := estimate;
      status, chain, order := Draft, BuildChain(estimate), None;
    }

    function State(): Requisition
      reads this
    {
      Requisition(status, chain, estimate, order)
    }

    method SubmitRequisition() returns (ok: bool)
      modifies this
      ensures ok == Try(Transitions, old(State()), Submit).Some?
      ensures State() == if ok then Try(Transitions, old(State()), Submit).value else old(State())
    {
      if !Transitions(status, Submitted) {
        return false;
      }
      status := Submitted;
      if |chain| == 0 {
        status := Status.Approved;
      }
      return true;
    }

    // The decision is only stored when the status change it completes is admitted.
    method ApproveRequisition(user: string) returns (ok: bool)
      modifies this
      ensures ok == Try(Transitions, old(State()), Approve(user)).Some?
      ensures State() == if ok then Try(Transitions, old(State()), Approve(user)).value else old(State())
    {
      if !status.Submitted? && !status.Approved? {
        return false;
      }
      var next := NextPending(chain);
      if next.None? {
        return false;
      }
      var decided := chain[next.value := chain[next.value].(decision := Decision.Approved, user := user)];
      if ChainComplete(decided) {
        if !Transitions(status, Status.Approved) {
          return false;
        }
        status := Status.Approved;
      }
      chain := decided;
      return true;
    }

    method RejectRequisition(user: string) returns (ok: bool)
      modifies this
      ensures ok == Try(Transitions, old(State()), Reject(user)).Some?
      ensures State() == if ok then Try(Transitions, old(State()), Reject(user)).value else old(State())
    {
      if !Transitions(status, Status.Rejected) {
        return false;
      }
      status := Status.Rejected;
      var next := NextPending(chain);
      if next.Some? {
        chain := chain[next.value := chain[next.value].(decision := Decision.Rejected, user := user)];
      }
      return true;
    }

    method CancelRequisition() returns (ok: bool)
      modifies this
      ensures ok == Try(Transitions, old(State()), Cancel).Some?
      ensures State() == if ok then Try(Transitions, old(State()), Cancel).value else old(State())
    {
      if !Transitions(status, Cancelled) {
        return false;
      }
      status := Cancelled;
      return true;
    }

    method ConvertRequisitionToPo(newOrder: string) returns (ok: bool)
      modifies this
      ensures ok == Try(Transitions, old(State()), Convert(newOrder)).Some?
      ensures State() == if ok then Try(Transitions, old(State()), Convert(newOrder)).value else old(State())
    {
      if !status.Approved? || order.Some? || !Transitions(status, Converted) {
        return false;
      }
      status := Converted;
      order := Some(newOrder);
      return true;
    }
  }

  // ----- Runs, under any transition table --------------------------------------------------------

  function Next(table: Table, r: Requisition, e: Event): Requisition {
    if Try(table, r, e).Some? then Try(table, r, e).value else r
  }

  function Run(table: Table, r: Requisition, es: seq<Event>): Requisition
    decreases |es|
  {
    if es == [] then r else Run(table, Next(table, r, es[0]), es[1..])
  }

  function Conversions(table: Table, r: Requisition, es: seq<Event>): nat
    decreases |es|
  {
    if es == [] then 0
    else
      (if es[0].Convert? && Try(table, r, es[0]).Some? then 1 else 0)
      + Conversions(table, Next(table, r, es[0]), es[1..])
  }

  function Roles(chain: seq<Step>): seq<Role> {
    seq(|chain|, i requires 0 <= i < |chain| => chain[i].role)
  }

  // Steps are decided from the front.
  predicate InOrder(chain: seq<Step>) {
    forall i, j | 0 <= i < j < |chain| :: chain[i].decision.Pending? ==> chain[j].decision.Pending?
  }

  // A manager from 500 to 5,000 euros, an admin above that, and a founder after the admin above 25,000.
  predicate Required(roles: seq<Role>, estimate: real) {
    && (Manager in roles <==> 50_000.0 <= estimate <= 500_000.0)
    && (Admin in roles <==> estimate > 500_000.0)
    && (Founder in roles <==> estimate > 2_500_000.0)
    && forall i, j | 0 <= i < j < |roles| :: roles[i].Admin? && roles[j].Founder?
  }

  // The steps are those the estimate requires, decided in order, and a requisition that is or was approved for
  // ordering has all of them approved, or needed none.
  predicate Safe(r: Requisition) {
    && Required(Roles(r.chain), r.estimate)
    && InOrder(r.chain)
    && (r.status.Approved? || r.status.Converted? ==>
          if r.estimate < 50_000.0 then r.chain == [] else ChainComplete(r.chain))
  }

  lemma BuiltAsRequired(estimate: real)
    ensures Required(Roles(BuildChain(estimate)), estimate)
    ensures forall step | step in BuildChain(estimate) :: step.decision.Pending? && step.user == ""
  {
    var roles := Roles(BuildChain(estimate));
    assert estimate > MANAGER_CENTS ==> roles[0] == Admin;
    assert 50_000.0 <= estimate <= MANAGER_CENTS ==> roles[0] == Manager;
    assert estimate > ADMIN_CENTS ==> roles[1] == Founder;
  }

  lemma EmptyIff(r: Requisition)
    requires Required(Roles(r.chain), r.estimate)
    ensures r.chain == [] <==> r.estimate < 50_000.0
  {
    if r.chain != [] {
      var role := Roles(r.chain)[0];
      assert role in Roles(r.chain) && (role == Manager || role == Admin || role == Founder);
    }
  }

  lemma DecideKeepsOrder(chain: seq<Step>, decision: Decision, user: string)
    requires InOrder(chain) && !decision.Pending?
    ensures InOrder(Decide(chain, decision, user)) && Roles(Decide(chain, decision, user)) == Roles(chain)
  {
  }

  lemma NextKeepsSafe(table: Table, r: Requisition, e: Event)
    requires Safe(r)
    ensures Safe(Next(table, r, e)) && Next(table, r, e).estimate == r.estimate
  {
    EmptyIff(r);
    match e
    case Approve(user) => DecideKeepsOrder(r.chain, Decision.Approved, user);
    case Reject(user) => DecideKeepsOrder(r.chain, Decision.Rejected, user);
    case _ =>
  }

  // Whatever the transition table admits: every reachable requisition is safe, and it is converted at most once,
  // exactly when it names an order.
  lemma {:induction false} SafeOverRuns(table: Table, r: Requisition, es: seq<Event>)
    requires Safe(r)
    ensures Safe(Run(table, r, es))
    ensures (if Run(table, r, es).order.Some? then 1 else 0) ==
            (if r.order.Some? then 1 else 0) + Conversions(table, r, es)
    decreases |es|
  {
    if es != [] {
      NextKeepsSafe(table, r, es[0]);
      SafeOverRuns(table, Next(table, r, es[0]), es[1..]);
    }
  }

  lemma CreatedIsSafe(estimate: real)
    ensures Safe(Created(estimate))
  {
    BuiltAsRequired(estimate);
  }

  // ----- Runs, under the table of the service ----------------------------------------------------

  // Nothing rejected in a chain that still counts; an open chain is not complete.
  predicate Regular(r: Requisition) {
    && (r.status.Draft? ==> forall step | step in r.chain :: step.decision.Pending?)
    && (r.status.Submitted? ==>
          r.chain != [] && !ChainComplete(r.chain) && forall step | step in r.chain :: !step.decision.Rejected?)
    && (r.order.Some? <==> r.status.Converted?)
  }

  lemma NextKeepsRegular(r: Requisition, e: Event)
    requires Safe(r) && Regular(r)
    ensures Regular(Next(Transitions, r, e))
    ensures r.status.Rejected? || r.status.Converted? || r.status.Cancelled? ==>
              var next := Next(Transitions, r, e);
              next.chain == r.chain && (next.status == r.status || next.status.Cancelled?)
  {
    if r.chain != [] { assert r.chain[0] in r.chain; }
    if e.Approve? && Try(Transitions, r, e).Some? {
      var chain := Decide(r.chain, Decision.Approved, e.user);
      forall step | step in chain ensures step in r.chain || step.decision.Approved? {
      }
    }
  }

  // Once rejected, converted or cancelled, a requisition never changes again except to be cancelled; in particular a
  // rejection is never overturned.
  lemma {:induction false} RejectionIsFinal(r: Requisition, es: seq<Event>)
    requires Safe(r) && Regular(r) && (r.status.Rejected? || r.status.Converted? || r.status.Cancelled?)
    ensures var end := Run(Transitions, r, es);
            end.chain == r.chain && (end.status == r.status || end.status.Cancelled?)
    decreases |es|
  {
    if es != [] {
      NextKeepsSafe(Transitions, r, es[0]);
      NextKeepsRegular(r, es[0]);
      RejectionIsFinal(Next(Transitions, r, es[0]), es[1..]);
    }
  }

  // ----- What the chain records ------------------------------------------------------------------

  datatype Verdict = Verdict(decision: Decision, user: string)

  // The decision that a request takes, with the one who takes it.
  function VerdictOf(r: Requisition, e: Event): seq<Verdict> {
    if Try(Transitions, r, e).None? then []
    else match e
      case Approve(user) => [Verdict(Decision.Approved, user)]
      case Reject(user) => [Verdict(Decision.Rejected, user)]
      case _ => []
  }

  function Verdicts(r: Requisition, es: seq<Event>): seq<Verdict>
    decreases |es|
  {
    if es == [] then [] else VerdictOf(r, es[0]) + Verdicts(Next(Transitions, r, es[0]), es[1..])
  }

  // The first steps carry the verdicts, the others are as they were.
  predicate Records(chain: seq<Step>, start: seq<Step>, verdicts: seq<Verdict>) {
    && |chain| == |start| && |verdicts| <= |chain|
    && (forall i | 0 <= i < |verdicts| ::
          && chain[i] == Step(start[i].role, verdicts[i].decision, verdicts[i].user)
          && !verdicts[i].decision.Pending?)
    && forall i | |verdicts| <= i < |chain| :: chain[i] == start[i] && start[i].decision.Pending?
  }

  lemma PendingAfterRecords(chain: seq<Step>, start: seq<Step>, before: seq<Verdict>)
    requires Records(chain, start, before) && NextPending(chain).Some?
    ensures NextPending(chain) == Some(|before|)
  {
    var k := NextPending(chain).value;
    assert k >= |before|;
    assert chain[|before|].decision.Pending?;
  }

  lemma OpenHasPending(r: Requisition)
    requires Regular(r) && r.status.Submitted?
    ensures NextPending(r.chain).Some?
  {
    NoPendingIff(r.chain);
  }

  lemma NoPendingIff(chain: seq<Step>)
    ensures NextPending(chain).None? <==> forall step | step in chain :: !step.decision.Pending?
  {
    if NextPending(chain).Some? {
      assert chain[NextPending(chain).value] in chain;
    }
  }

  lemma DecideRecords(chain: seq<Step>, start: seq<Step>, before: seq<Verdict>, decision: Decision, user: string)
    requires Records(chain, start, before) && NextPending(chain).Some? && !decision.Pending?
    ensures Records(Decide(chain, decision, user), start, before + [Verdict(decision, user)])
  {
    PendingAfterRecords(chain, start, before);
  }

  lemma NextRecords(r: Requisition, e: Event, start: seq<Step>, before: seq<Verdict>)
    requires Safe(r) && Regular(r) && Records(r.chain, start, before)
    ensures Records(Next(Transitions, r, e).chain, start, before + VerdictOf(r, e))
  {
    if VerdictOf(r, e) != [] {
      if r.status.Submitted? { OpenHasPending(r); }
      hide Records, Safe, Regular, ChainComplete, Decide, NextPending;
      match e
      case Approve(user) => DecideRecords(r.chain, start, before, Decision.Approved, user);
      case Reject(user) => DecideRecords(r.chain, start, before, Decision.Rejected, user);
    } else {
      assert before + [] == before;
    }
  }

  // Over every run the chain holds every decision taken so far, in order and with the user who took it, and nothing
  // else.
  lemma {:induction false} ChainRecordsRun(r: Requisition, es: seq<Event>, start: seq<Step>, before: seq<Verdict>)
    requires Safe(r) && Regular(r) && Records(r.chain, start, before)
    ensures Records(Run(Transitions, r, es).chain, start, before + Verdicts(r, es))
    decreases |es|
  {
    hide Try, Next, VerdictOf, Records, Safe, Regular;
    if es == [] {
      assert before + [] == before;
    } else {
      var next := Next(Transitions, r, es[0]);
      NextRecords(r, es[0], start, before);
      NextKeepsSafe(Transitions, r, es[0]);
      NextKeepsRegular(r, es[0]);
      ChainRecordsRun(next, es[1..], start, before + VerdictOf(r, es[0]));
      assert before + VerdictOf(r, es[0]) + Verdicts(next, es[1..]) == before + Verdicts(r, es);
    }
  }

  // The statuses in which a request succeeds.
  predicate Open(status: Status, e: Event) {
    match e
    case Submit => status.Draft?
    case Approve(_) | Reject(_) => status.Submitted?
    case Cancel => !status.Converted? && !status.Cancelled?
    case Convert(_) => status.Approved?
  }

  // Where it leads.
  function Target(r: Requisition, e: Event): Status {
    match e
    case Submit => if r.estimate < 50_000.0 then Status.Approved else Submitted
    case Approve(_) => if NextPending(r.chain) == Some(|r.chain| - 1) then Status.Approved else Submitted
    case Reject(_) => Status.Rejected
    case Cancel => Cancelled
    case Convert(_) => Converted
  }

  // Every request on a reachable requisition succeeds exactly in the statuses meant for it, and leads where it should.
  lemma RequestSucceedsIff(r: Requisition, e: Event)
    requires Safe(r) && Regular(r)
    ensures Try(Transitions, r, e).Some? <==> Open(r.status, e)
    ensures Open(r.status, e) ==>
              var next := Next(Transitions, r, e);
              next.status == Target(r, e) && next.order == if e.Convert? then Some(e.order) else r.order
  {
    EmptyIff(r);
    NoPendingIff(r.chain);
    if e.Approve? && r.status.Submitted? { ApprovalProgress(r, e.user); }
  }

  // While a chain is open, approving succeeds, and a requisition becomes ready for ordering exactly with the approval
  // of its last step.
  lemma ApprovalProgress(r: Requisition, user: string)
    requires Safe(r) && Regular(r) && r.status.Submitted?
    ensures var next := Next(Transitions, r, Approve(user));
            && Try(Transitions, r, Approve(user)).Some?
            && NextPending(r.chain).Some?
            && (next.status.Approved? <==> NextPending(r.chain).value == |r.chain| - 1)
  {
    var k := NextPending(r.chain);
    assert k.Some?;
    var chain := Decide(r.chain, Decision.Approved, user);
    if k.value < |r.chain| - 1 {
      assert chain[|chain| - 1] in chain && chain[|chain| - 1].decision.Pending?;
    } else {
      forall step | step in chain ensures step.decision.Approved? {
        var i :| 0 <= i < |chain| && chain[i] == step;
        assert i < k.value ==> r.chain[i] in r.chain;
      }
    }
  }

  lemma {:induction false} RunKeepsRegular(r: Requisition, es: seq<Event>)
    requires Safe(r) && Regular(r)
    ensures Safe(Run(Transitions, r, es)) && Regular(Run(Transitions, r, es))
    decreases |es|
  {
    if es != [] {
      NextKeepsSafe(Transitions, r, es[0]);
      NextKeepsRegular(r, es[0]);
      RunKeepsRegular(Next(Transitions, r, es[0]), es[1..]);
    }
  }

  // The life of every requisition from its creation: it is safe, a submitted one can always be approved further, and
  // one that is rejected, converted or cancelled stays so up to cancellation, whatever follows.
  lemma RequisitionLife(estimate: real, es: seq<Event>, user: string, later: seq<Event>)
    ensures var r := Run(Transitions, Created(estimate), es);
            var end := Run(Transitions, r, later);
            && Safe(r) && Regular(r)
            && Records(r.chain, BuildChain(estimate), Verdicts(Created(estimate), es))
            && (r.status.Submitted? ==> Try(Transitions, r, Approve(user)).Some?)
            && (r.status.Rejected? || r.status.Converted? || r.status.Cancelled? ==>
                  end.chain == r.chain && (end.status == r.status || end.status.Cancelled?))
  {
    CreatedIsSafe(estimate);
    BuiltAsRequired(estimate);
    RunKeepsRegular(Created(estimate), es);
    ChainRecordsRun(Created(estimate), es, BuildChain(estimate), []);
    assert [] + Verdicts(Created(estimate), es) == Verdicts(Created(estimate), es);
    var r := Run(Transitions, Created(estimate), es);
    if r.status.Submitted? { ApprovalProgress(r, user); }
    if r.status.Rejected? || r.status.Converted? || r.status.Cancelled? { RejectionIsFinal(r, later); }
  }
}
