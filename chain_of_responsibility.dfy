/** The Chain of Responsibility pattern: customer-support handlers linked by
    escalation, each solving the problems whose severity it handles and passing
    the others on to its successor. */
module ChainOfResponsibility {
  import opened Wrappers

  datatype ProblemSeverity = NoProblem | Simple | Troublesome | Urgent | Critical

  /** The four concrete handlers. */
  datatype SupportRole = FrontDesk | Lead | Engineer | Manager

  /** The predicate each concrete handler implements. */
  predicate CanSolve(role: SupportRole, severity: ProblemSeverity)
  {
    match role
    case FrontDesk => severity == NoProblem || severity == Simple
    case Lead => severity == Troublesome
    case Engineer => severity == Critical
    case Manager => severity == Urgent
  }

  /** The capability set of each handler, written as a table. */
  function HandledSeverities(role: SupportRole): set<ProblemSeverity>
  {
    match role
    case FrontDesk => {NoProblem, Simple}
    case Lead => {Troublesome}
    case Engineer => {Critical}
    case Manager => {Urgent}
  }

  /** A handler can solve a problem exactly when its severity is in the handler's capability set. */
  lemma CapabilitySets(role: SupportRole, severity: ProblemSeverity)
    ensures CanSolve(role, severity) <==> severity in HandledSeverities(role)
  {
  }

  /** The capability sets do not overlap: at most one role can solve a given severity. */
  lemma CapabilitiesDisjoint(r1: SupportRole, r2: SupportRole, severity: ProblemSeverity)
    requires CanSolve(r1, severity) && CanSolve(r2, severity)
    ensures r1 == r2
  {
  }

  /** The position, in chain order, of the first role that can solve a severity. */
  function FirstSolver(roles: seq<SupportRole>, severity: ProblemSeverity): (k: Option<nat>)
    ensures k.Some? ==> k.value < |roles| && CanSolve(roles[k.value], severity)
    ensures k.Some? ==> forall j :: 0 <= j < k.value ==> !CanSolve(roles[j], severity)
    ensures k.None? <==> forall j :: 0 <= j < |roles| ==> !CanSolve(roles[j], severity)
  {
    if roles == [] then None
    else if CanSolve(roles[0], severity) then Some(0)
    else match FirstSolver(roles[1..], severity)
      case None => None
      case Some(k) => Some(k + 1)
  }

  /** The escalation hierarchy of the example: FrontDesk, Lead, Engineer, Manager. */
  const StandardChain: seq<SupportRole> := [FrontDesk, Lead, Engineer, Manager]

  /** In the standard hierarchy every severity is solved, by the one handler owning it. */
  lemma StandardChainSolvesEverything(severity: ProblemSeverity)
    ensures FirstSolver(StandardChain, severity).Some?
    ensures var k := FirstSolver(StandardChain, severity).value;
            severity in HandledSeverities(StandardChain[k])
  {
    var k := FirstSolver(StandardChain, severity);
    match severity
    case NoProblem => assert CanSolve(StandardChain[0], severity);
    case Simple => assert CanSolve(StandardChain[0], severity);
    case Troublesome => assert CanSolve(StandardChain[1], severity);
    case Critical => assert CanSolve(StandardChain[2], severity);
    case Urgent => assert CanSolve(StandardChain[3], severity);
  }

  /** A support request. It is solved once a handler has claimed it. */
  class Problem {
    const severity: ProblemSeverity
    var solvedBy: CustomerSupport?

    /** A new problem is unsolved. */
    constructor (severity: ProblemSeverity)
      ensures this.severity == severity && solvedBy == null && !Solved()
    {
      this.severity := severity;
      solvedBy := null;
    }

    function Solved(): (r: bool)
      reads this
      ensures r <==> solvedBy != null
    {
      solvedBy != null
    }

    method SolveBy(support: CustomerSupport)
      modifies this
      ensures solvedBy == support && Solved()
    {
      solvedBy := support;
    }
  }

  /** The roles of a sequence of handlers, in order. */
  function Roles(chain: seq<CustomerSupport>): (roles: seq<SupportRole>)
    ensures |roles| == |chain|
    ensures forall i :: 0 <= i < |chain| ==> roles[i] == chain[i].role
  {
    seq(|chain|, i requires 0 <= i < |chain| => chain[i].role)
  }

  /** `chain` lists handlers each of which escalates to the next one. */
  ghost predicate Linked(head: CustomerSupport, chain: seq<CustomerSupport>)
    reads chain
  {
    && |chain| > 0
    && chain[0] == head
    && (forall i :: 0 <= i < |chain| - 1 ==> chain[i].escalatedSupport == chain[i + 1])
  }

  /** `chain` lists the handlers a problem of `severity` visits from `head`: it follows the
      escalation links and ends at a handler that can solve it or that has no successor.
      Such a finite path exists exactly when the escalation ends; the code never checks it,
      and on a cycle of links none of whose handlers can solve the severity it would
      recurse without end. A path that runs into a cycle still ends if it reaches a
      handler that can solve the severity before coming round again. */
  ghost predicate IsChainFrom(head: CustomerSupport, chain: seq<CustomerSupport>, severity: ProblemSeverity)
    reads chain
  {
    && Linked(head, chain)
    && (chain[|chain| - 1].escalatedSupport == null || CanSolve(chain[|chain| - 1].role, severity))
  }

  /** A handler with its role and an optional successor to escalate to. */
  class CustomerSupport {
    const role: SupportRole
    var escalatedSupport: CustomerSupport?

    constructor (role: SupportRole)
      ensures this.role == role && escalatedSupport == null
    {
      this.role := role;
      escalatedSupport := null;
    }

    /** Replaces any previous successor. */
    method SetEscalation(next: CustomerSupport?)
      modifies this
      ensures escalatedSupport == next
    {
      escalatedSupport := next;
    }

    function CanSolveProblem(problem: Problem): (r: bool)
      ensures r <==> problem.severity in HandledSeverities(role)
    {
      CapabilitySets(role, problem.severity);
      CanSolve(role, problem.severity)
    }

    /** The first handler along the chain whose predicate holds becomes the solver;
        when none can, the problem is left as it was. */
    method SolveProblem(problem: Problem, ghost chain: seq<CustomerSupport>)
      requires IsChainFrom(this, chain, problem.severity)
      modifies problem
      ensures var k := FirstSolver(Roles(chain), problem.severity);
              problem.solvedBy == if k.Some? then chain[k.value] else old(problem.solvedBy)
      decreases |chain|, 1
    {
      if CanSolveProblem(problem) {
        problem.SolveBy(this);
      } else {
        EscalateProblem(problem, chain);
      }
    }

    /** Only reached from `SolveProblem` once this handler has found it cannot solve the problem. */
    method EscalateProblem(problem: Problem, ghost chain: seq<CustomerSupport>)
      requires IsChainFrom(this, chain, problem.severity) && !CanSolve(role, problem.severity)
      modifies problem
      ensures var k := FirstSolver(Roles(chain[1..]), problem.severity);
              problem.solvedBy == if k.Some? then chain[1..][k.value] else old(problem.solvedBy)
      decreases |chain|, 0
    {
      if escalatedSupport != null {
        escalatedSupport.SolveProblem(problem, chain[1..]);
      }
    }
  }

  /** The example scenario: a simple problem stops at the front desk, a critical one
      passes the front desk and the lead and is solved by the engineer. */
  method EscalationScenario()
  {
    var frontDesk := new CustomerSupport(FrontDesk);
    var lead := new CustomerSupport(Lead);
    var engineer := new CustomerSupport(Engineer);
    var manager := new CustomerSupport(Manager);
    frontDesk.SetEscalation(lead);
    lead.SetEscalation(engineer);
    engineer.SetEscalation(manager);
    ghost var chain := [frontDesk, lead, engineer, manager];
    assert Linked(frontDesk, chain) && manager.escalatedSupport == null;
    assert Roles(chain) == StandardChain;
    StandardChainProblems(frontDesk, chain);
  }

  /** The positions the example's two problems stop at in the standard hierarchy. */
  lemma StandardChainSolvers()
    ensures FirstSolver(StandardChain, Simple) == Some(0)
    ensures FirstSolver(StandardChain, Critical) == Some(2)
  {
    assert !CanSolve(StandardChain[0], Critical) && !CanSolve(StandardChain[1], Critical);
    assert StandardChain[1..][1..] == [Engineer, Manager];
  }

  method StandardChainProblems(frontDesk: CustomerSupport, ghost chain: seq<CustomerSupport>)
    requires Linked(frontDesk, chain) && chain[|chain| - 1].escalatedSupport == null
    requires Roles(chain) == StandardChain
  {
    StandardChainSolvers();
    var simpleProblem := new Problem(Simple);
    frontDesk.SolveProblem(simpleProblem, chain);
    assert simpleProblem.Solved() && simpleProblem.solvedBy == frontDesk;

    var criticalProblem := new Problem(Critical);
    frontDesk.SolveProblem(criticalProblem, chain);
    assert criticalProblem.Solved() && criticalProblem.solvedBy == chain[2];
  }

  /** Escalation links may form a cycle: escalation still ends whenever a handler on the way
      can solve the problem. Here the front desk and the lead escalate to each other. */
  method CyclicEscalationScenario()
  {
    var frontDesk := new CustomerSupport(FrontDesk);
    var lead := new CustomerSupport(Lead);
    frontDesk.SetEscalation(lead);
    lead.SetEscalation(frontDesk);
    CyclicProblems(frontDesk, lead);
  }

  method CyclicProblems(frontDesk: CustomerSupport, lead: CustomerSupport)
    requires frontDesk.role == FrontDesk && lead.role == Lead
    requires frontDesk.escalatedSupport == lead && lead.escalatedSupport == frontDesk
  {
    var simpleProblem := new Problem(Simple);
    assert CanSolve(FrontDesk, Simple);
    assert IsChainFrom(frontDesk, [frontDesk], Simple);
    frontDesk.SolveProblem(simpleProblem, [frontDesk]);
    assert simpleProblem.solvedBy == frontDesk;

    var troublesomeProblem := new Problem(Troublesome);
    assert !CanSolve(FrontDesk, Troublesome) && CanSolve(Lead, Troublesome);
    assert IsChainFrom(frontDesk, [frontDesk, lead], Troublesome);
    assert Roles([frontDesk, lead]) == [FrontDesk, Lead];
    assert FirstSolver([FrontDesk, Lead], Troublesome) == Some(1) by {
      assert [FrontDesk, Lead][1..] == [Lead];
    }
    frontDesk.SolveProblem(troublesomeProblem, [frontDesk, lead]);
    assert troublesomeProblem.solvedBy == lead;
  }
}
