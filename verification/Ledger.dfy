/** The attempt ledger and the approval binding of scripts/qros_agent.py. */
module Ledger {
  import opened Common

  /** A JSON value of a proposal, as far as the executor distinguishes values. */
  datatype Value = Flag(on: bool) | Text(text: string) | Texts(items: seq<string>) | Opaque(code: int)

  type Proposal = map<string, Value>

  /** SHA-256 of a canonical encoding, taken to be injective: a digest is what was digested. */
  datatype Digest =
    | OfProposal(payload: Proposal)
    | OfScope(paths: multiset<string>)
    | OfAuthority(budget: string, maxAttempts: int, contract: string)
    | OfReceipt(budget: string, proposal: Digest, command: seq<string>, preSha: string)

  // ---------------------------------------------------------------- the ledger

  /** `consume` on the list of receipts: the attempt number granted, or the refusal. */
  function Grant(consumed: seq<Digest>, maxAttempts: int, receipt: Digest): Result<nat, string> {
    if |consumed| >= maxAttempts then Err("attempt budget exhausted")
    else if receipt in consumed then Err("execution receipt replay detected")
    else Ok(|consumed| + 1)
  }

  class AttemptLedger {
    const budgetId: string
    const maxAttempts: int
    var consumed: seq<Digest>

    ghost predicate Valid()
      reads this
    {
      && maxAttempts >= 1 && |consumed| <= maxAttempts
      && forall i, j :: 0 <= i < j < |consumed| ==> consumed[i] != consumed[j]
    }

    constructor (maxAttempts: int, budgetId: string)
      requires maxAttempts >= 1
      ensures Valid() && consumed == [] && this.maxAttempts == maxAttempts && this.budgetId == budgetId
    {
      this.maxAttempts := maxAttempts;
      this.budgetId := budgetId;
      consumed := [];
    }

    /** Opens a ledger; without a budget identifier a generated one is used. */
    static method Create(maxAttempts: int, budgetId: string, generated: string)
      returns (r: Result<AttemptLedger, string>)
      ensures r.Err? <==> maxAttempts < 1
      ensures r.Ok? ==>
                && fresh(r.value) && r.value.Valid() && r.value.consumed == [] && r.value.maxAttempts == maxAttempts
                && r.value.budgetId == if budgetId == "" then generated else budgetId
    {
      if maxAttempts < 1 {
        return Err("max_attempts must be positive");
      }
      var ledger := new AttemptLedger(maxAttempts, if budgetId == "" then generated else budgetId);
      r := Ok(ledger);
    }

    method ConsumedAttempts() returns (n: nat)
      ensures n == |consumed|
    {
      n := |consumed|;
    }

    /** The body of the locked section. */
    method Consume(receipt: Digest) returns (r: Result<nat, string>)
      requires Valid()
      modifies this`consumed
      ensures Valid()
      ensures r == Grant(old(consumed), maxAttempts, receipt)
      ensures r.Ok? <==> |old(consumed)| < maxAttempts && receipt !in old(consumed)
      ensures r.Ok? ==> r.value == |old(consumed)| + 1
      ensures consumed == if r.Ok? then old(consumed) + [receipt] else old(consumed)
    {
      if |consumed| >= maxAttempts {
        return Err("attempt budget exhausted");
      }
      if receipt in consumed {
        return Err("execution receipt replay detected");
      }
      consumed := consumed + [receipt];
      r := Ok(|consumed|);
    }
  }

  // ---------------------------------------------------------------- proposals and approvals

  /** The identity ignores a `proposal_id` field that may already be present. */
  function ProposalId(p: Proposal): Digest {
    OfProposal(p - {"proposal_id"})
  }

  /** Two strings naming a governed action, if the proposal has them. */
  function GovernedAction(p: Proposal): Result<(string, string), string> {
    if "governed_action" in p && p["governed_action"].Texts? && |p["governed_action"].items| == 2
    then Ok((p["governed_action"].items[0], p["governed_action"].items[1]))
    else Err("proposal is missing a governed action")
  }

  datatype Approval = Approval(status: string, approverId: string, approvedAt: string, proposalId: Digest,
                               governedAction: (string, string), scope: Digest, authority: Digest)

  /** The ledger's identity and the task contract with its allowed paths. */
  datatype Context = Context(budget: string, maxAttempts: int, contract: string, allowedPaths: seq<string>)

  function ScopeOf(c: Context): Digest { OfScope(multiset(c.allowedPaths)) }

  function AuthorityOf(c: Context): Digest { OfAuthority(c.budget, c.maxAttempts, c.contract) }

  /** The characters that `str.strip` removes. */
  predicate Whitespace(c: char) {
    var k := c as int;
    || 0x09 <= k <= 0x0d || 0x1c <= k <= 0x20 || k == 0x85 || k == 0xa0 || k == 0x1680
    || 0x2000 <= k <= 0x200a || k == 0x2028 || k == 0x2029 || k == 0x202f || k == 0x205f || k == 0x3000
  }

  predicate Blank(s: string) { forall i :: 0 <= i < |s| ==> Whitespace(s[i]) }

  function ApprovalFor(p: Proposal, c: Context, approverId: string, approvedAt: string): Result<Approval, string> {
    match GovernedAction(p)
    case Err(e) => Err(e)
    case Ok(action) =>
      Ok(Approval("APPROVED", approverId, approvedAt, ProposalId(p), action, ScopeOf(c), AuthorityOf(c)))
  }

  /** `_validate_approval`: nothing wrong, or the first thing that is. */
  function ValidateApproval(a: Approval, p: Proposal, c: Context): Result<(), string> {
    if a.status != "APPROVED" then Err("approval status is not APPROVED")
    else if Blank(a.approverId) then Err("approval approver identity is missing")
    else if Blank(a.approvedAt) then Err("approval timestamp is missing")
    else if a.proposalId != ProposalId(p) then Err("approval does not bind to proposal identity")
    else if !("governed_action" in p && p["governed_action"].Texts?
              && p["governed_action"].items == [a.governedAction.0, a.governedAction.1]) then
      Err("approval does not bind to governed action")
    else if a.scope != ScopeOf(c) then Err("approval does not bind to task scope")
    else if a.authority != AuthorityOf(c) then Err("approval attempt authority is invalid")
    else Ok(())
  }

  /** An approval with an approver and a time always validates against what it was made for. */
  lemma ApprovalRoundTrip(p: Proposal, c: Context, approverId: string, approvedAt: string)
    requires GovernedAction(p).Ok? && !Blank(approverId) && !Blank(approvedAt)
    ensures ApprovalFor(p, c, approverId, approvedAt).Ok?
    ensures ValidateApproval(ApprovalFor(p, c, approverId, approvedAt).value, p, c) == Ok(())
  {
    var items := p["governed_action"].items;
    assert items == [items[0], items[1]];
  }

  /** An approval is worth nothing elsewhere: if one made for (p, c) validates against (q, d), then q is p up
      to the stored identity, and scope, contract, budget and attempt limit are the same. */
  lemma ApprovalBinds(p: Proposal, c: Context, q: Proposal, d: Context, approverId: string, approvedAt: string)
    requires ApprovalFor(p, c, approverId, approvedAt).Ok?
    requires ValidateApproval(ApprovalFor(p, c, approverId, approvedAt).value, q, d) == Ok(())
    ensures q - {"proposal_id"} == p - {"proposal_id"}
    ensures multiset(d.allowedPaths) == multiset(c.allowedPaths)
    ensures d.contract == c.contract && d.budget == c.budget && d.maxAttempts == c.maxAttempts
  {
    assert ProposalId(p) == ProposalId(q);
    assert ScopeOf(c) == ScopeOf(d);
  }

  /** The identity is stable under storing it in the proposal. */
  lemma IdentityIgnoresItself(p: Proposal, v: Value)
    ensures ProposalId(p["proposal_id" := v]) == ProposalId(p)
  {
    assert p["proposal_id" := v] - {"proposal_id"} == p - {"proposal_id"};
  }

  // ---------------------------------------------------------------- checks before the ledger

  datatype Request = Request(proposal: Proposal,
                             command: seq<string>, approval: Result<Approval, string>, context: Context)

  predicate Executable(command: seq<string>) {
    |command| >= 1 && BaseName(command[0]) == "ruff"
  }

  /** `Path(path).name`: the last component; empty components and single dots do not count. */
  function BaseName(path: string): string {
    if path == "" || path == "." then ""
    else if path[|path| - 1] == '/' || (|path| >= 2 && path[|path| - 2..] == "/.") then BaseName(path[..|path| - 1])
    else LastPart(path)
  }

  /** The part after the last separator. */
  function LastPart(path: string): string {
    if path == "" || path[|path| - 1] == '/' then "" else LastPart(path[..|path| - 1]) + [path[|path| - 1]]
  }

  predicate ShellMeta(c: char) {
    c == '&' || c == '|' || c == ';' || c == '>' || c == '<' || c == '$' || c == '`'
  }

  predicate HasMeta(command: seq<string>) {
    exists i, j :: 0 <= i < |command| && 0 <= j < |command[i]| && ShellMeta(command[i][j])
  }

  predicate AllowedAction(action: (string, string)) {
    action == ("ruff", "check") || action == ("ruff", "format")
  }

  /** Everything `execute_proposal` decides before it looks at the repository; `inScope` is the result of the
      path checks. */
  function PreCheck(r: Request, inScope: bool): Result<(), string> {
    if !("allowed" in r.proposal && r.proposal["allowed"] == Flag(true))
    then Err("proposal is not authorized for execution")
    else if r.context.allowedPaths == [] then Err("task contract has no executable allowed paths")
    else if !Executable(r.command) then Err("command is outside governed allowlist")
    else if HasMeta(r.command) then Err("shell metacharacters are forbidden")
    else
      match GovernedAction(r.proposal)
      case Err(e) => Err(e)
      case Ok(action) =>
        if |r.command| < 2 || (r.command[0], r.command[1]) != action
        then Err("command does not match governed proposal action")
        else if !AllowedAction(action) then Err("governed proposal action is outside allowlist")
        else if !inScope then Err("command path escapes task scope")
        else
          match r.approval
          case Err(_) => Err("explicit approval provenance is required")
          case Ok(approval) => ValidateApproval(approval, r.proposal, r.context)
  }

  /** What a request that passed is known to be. */
  ghost predicate Governed(r: Request) {
    && r.approval.Ok? && ValidateApproval(r.approval.value, r.proposal, r.context) == Ok(())
    && |r.command| >= 2 && AllowedAction((r.command[0], r.command[1])) && !HasMeta(r.command)
    && r.approval.value.governedAction == (r.command[0], r.command[1])
  }

  lemma PreCheckGoverns(r: Request, inScope: bool)
    requires PreCheck(r, inScope) == Ok(())
    ensures Governed(r) && inScope
  {
    var a := r.approval.value;
    assert r.proposal["governed_action"].items == [a.governedAction.0, a.governedAction.1];
  }

  // ---------------------------------------------------------------- interleaved callers

  type Caller = nat

  datatype Phase =
    | Idle
    | Checked(request: Request)
    | Ready(request: Request, preSha: string)
    | Granted(request: Request, preSha: string, attempt: nat)

  datatype Grantee = Grantee(caller: Caller, request: Request, preSha: string)
  datatype RunRecord = RunRecord(grantee: Grantee, attempt: nat)

  /** `grants` is an auxiliary log: who was granted which attempt. */
  datatype System = System(consumed: seq<Digest>, phases: map<Caller, Phase>,
                           runs: seq<RunRecord>, grants: seq<Grantee>)

  function PhaseOf(s: System, c: Caller): Phase {
    if c in s.phases then s.phases[c] else Idle
  }

  function ReceiptOf(budget: string, g: Grantee): Digest {
    OfReceipt(budget, ProposalId(g.request.proposal), g.request.command, g.preSha)
  }

  const EMPTY := System([], map[], [], [])

  /** Events of the shared system; the repository state a caller sees is whatever the event says. */
  datatype Step =
    | Submit(caller: Caller, request: Request, inScope: bool)
    | ObserveHead(caller: Caller, clean: bool, preSha: string)
    | Consume(caller: Caller)
    | Run(caller: Caller)

  function Apply(budget: string, maxAttempts: int, s: System, e: Step): System {
    match e
    case Submit(c, r, inScope) =>
      if PhaseOf(s, c).Idle? && r.context.budget == budget && r.context.maxAttempts == maxAttempts
        && PreCheck(r, inScope) == Ok(())
      then s.(phases := s.phases[c := Checked(r)]) else s
    case ObserveHead(c, clean, sha) =>
      if PhaseOf(s, c).Checked? then
        s.(phases := s.phases[c := if clean && sha != "" then Ready(PhaseOf(s, c).request, sha) else Idle])
      else s
    case Consume(c) =>
      if PhaseOf(s, c).Ready? then
        var g := Grantee(c, PhaseOf(s, c).request, PhaseOf(s, c).preSha);
        match Grant(s.consumed, maxAttempts, ReceiptOf(budget, g))
        case Err(_) => s.(phases := s.phases[c := Idle])
        case Ok(attempt) =>
          s.(consumed := s.consumed + [ReceiptOf(budget, g)], grants := s.grants + [g],
             phases := s.phases[c := Granted(g.request, g.preSha, attempt)])
      else s
    case Run(c) =>
      if PhaseOf(s, c).Granted? then
        var ph := PhaseOf(s, c);
        s.(runs := s.runs + [RunRecord(Grantee(c, ph.request, ph.preSha), ph.attempt)], phases := s.phases[c := Idle])
      else s
  }

  /** The system after any sequence of events, in any interleaving of any callers. */
  function After(budget: string, maxAttempts: int, trace: seq<Step>): System {
    if trace == [] then EMPTY
    else Apply(budget, maxAttempts, After(budget, maxAttempts, trace[..|trace| - 1]), trace[|trace| - 1])
  }

  // ---------------------------------------------------------------- the invariant

  /** The receipts are those of the grants, within budget and without repeats. */
  ghost predicate ReceiptsMatch(budget: string, maxAttempts: int, s: System) {
    && |s.consumed| == |s.grants| && (s.grants == [] || |s.grants| <= maxAttempts)
    && (forall i :: 0 <= i < |s.grants| ==>
          s.consumed[i] == ReceiptOf(budget, s.grants[i]) && Bound(budget, maxAttempts, s.grants[i].request))
    && (forall i, j :: 0 <= i < j < |s.consumed| ==> s.consumed[i] != s.consumed[j])
  }

  ghost predicate Bound(budget: string, maxAttempts: int, r: Request) {
    Governed(r) && r.context.budget == budget && r.context.maxAttempts == maxAttempts
  }

  ghost predicate AttemptIs(s: System, attempt: nat, g: Grantee) {
    1 <= attempt <= |s.grants| && s.grants[attempt - 1] == g
  }

  /** Every granted attempt is either still in flight with its caller or has become exactly one run. */
  ghost predicate AttemptsAccounted(s: System) {
    && (forall i :: 0 <= i < |s.runs| ==> AttemptIs(s, s.runs[i].attempt, s.runs[i].grantee))
    && (forall i, j :: 0 <= i < j < |s.runs| ==> s.runs[i].attempt != s.runs[j].attempt)
    && (forall c :: PhaseOf(s, c).Granted? ==>
          && AttemptIs(s, PhaseOf(s, c).attempt, Grantee(c, PhaseOf(s, c).request, PhaseOf(s, c).preSha))
          && forall i :: 0 <= i < |s.runs| ==> s.runs[i].attempt != PhaseOf(s, c).attempt)
    && (forall k :: 1 <= k <= |s.grants| ==> InFlight(s, k) || Ran(s, k))
  }

  ghost predicate InFlight(s: System, k: nat) {
    exists c :: PhaseOf(s, c).Granted? && PhaseOf(s, c).attempt == k
  }

  ghost predicate Ran(s: System, k: nat) {
    exists i :: 0 <= i < |s.runs| && s.runs[i].attempt == k
  }

  ghost predicate CallersBound(budget: string, maxAttempts: int, s: System) {
    forall c :: !PhaseOf(s, c).Idle? ==> Bound(budget, maxAttempts, PhaseOf(s, c).request)
  }

  ghost predicate Inv(budget: string, maxAttempts: int, s: System) {
    ReceiptsMatch(budget, maxAttempts, s) && AttemptsAccounted(s) && CallersBound(budget, maxAttempts, s)
  }

  /** Changing one caller between phases that hold no attempt. */
  lemma QuietStep(budget: string, maxAttempts: int, s: System, c: Caller, ph: Phase)
    requires Inv(budget, maxAttempts, s) && !PhaseOf(s, c).Granted? && !ph.Granted?
    requires !ph.Idle? ==> Bound(budget, maxAttempts, ph.request)
    ensures Inv(budget, maxAttempts, s.(phases := s.phases[c := ph]))
  {
    hide Bound;
    hide ReceiptOf;
    var t := s.(phases := s.phases[c := ph]);
    assert forall d :: d != c ==> PhaseOf(t, d) == PhaseOf(s, d);
    forall k | 1 <= k <= |t.grants| ensures InFlight(t, k) || Ran(t, k) {
      if InFlight(s, k) {
        var d :| PhaseOf(s, d).Granted? && PhaseOf(s, d).attempt == k;
        assert PhaseOf(t, d).Granted? && PhaseOf(t, d).attempt == k;
      } else {
        var i :| 0 <= i < |s.runs| && s.runs[i].attempt == k;
        assert t.runs[i].attempt == k;
      }
    }
  }

  lemma GrantStep(budget: string, maxAttempts: int, s: System, c: Caller)
    requires Inv(budget, maxAttempts, s) && PhaseOf(s, c).Ready?
    requires Grant(s.consumed, maxAttempts,
               ReceiptOf(budget, Grantee(c, PhaseOf(s, c).request, PhaseOf(s, c).preSha))).Ok?
    ensures Inv(budget, maxAttempts, Apply(budget, maxAttempts, s, Consume(c)))
  {
    hide Bound;
    hide ReceiptOf;
    var g := Grantee(c, PhaseOf(s, c).request, PhaseOf(s, c).preSha);
    var n := |s.grants| + 1;
    var t := Apply(budget, maxAttempts, s, Consume(c));
    assert t == s.(consumed := s.consumed + [ReceiptOf(budget, g)], grants := s.grants + [g],
                   phases := s.phases[c := Granted(g.request, g.preSha, n)]);
    assert forall d :: d != c ==> PhaseOf(t, d) == PhaseOf(s, d);
    assert PhaseOf(t, c) == Granted(g.request, g.preSha, n);
    assert forall k, h :: AttemptIs(s, k, h) ==> AttemptIs(t, k, h);
    forall k | 1 <= k <= |t.grants| ensures InFlight(t, k) || Ran(t, k) {
      if k == n {
        assert PhaseOf(t, c).attempt == k;
      } else if InFlight(s, k) {
        var d :| PhaseOf(s, d).Granted? && PhaseOf(s, d).attempt == k;
        assert PhaseOf(t, d).Granted? && PhaseOf(t, d).attempt == k;
      } else {
        var i :| 0 <= i < |s.runs| && s.runs[i].attempt == k;
        assert t.runs[i].attempt == k;
      }
    }
  }

  lemma RunStep(budget: string, maxAttempts: int, s: System, c: Caller)
    requires Inv(budget, maxAttempts, s) && PhaseOf(s, c).Granted?
    ensures Inv(budget, maxAttempts, Apply(budget, maxAttempts, s, Run(c)))
  {
    hide Bound;
    hide ReceiptOf;
    var ph := PhaseOf(s, c);
    var t := Apply(budget, maxAttempts, s, Run(c));
    assert forall d :: d != c ==> PhaseOf(t, d) == PhaseOf(s, d);
    assert PhaseOf(t, c) == Idle;
    forall k | 1 <= k <= |t.grants| ensures InFlight(t, k) || Ran(t, k) {
      if k == ph.attempt {
        assert t.runs[|s.runs|].attempt == k;
      } else if InFlight(s, k) {
        var d :| PhaseOf(s, d).Granted? && PhaseOf(s, d).attempt == k;
        assert PhaseOf(t, d).Granted? && PhaseOf(t, d).attempt == k;
      } else {
        var i :| 0 <= i < |s.runs| && s.runs[i].attempt == k;
        assert t.runs[i].attempt == k;
      }
    }
  }

  lemma StepKeepsInv(budget: string, maxAttempts: int, s: System, e: Step)
    requires Inv(budget, maxAttempts, s)
    ensures Inv(budget, maxAttempts, Apply(budget, maxAttempts, s, e))
  {
    hide Inv;
    match e
    case Submit(c, r, inScope) =>
      if PhaseOf(s, c).Idle? && r.context.budget == budget && r.context.maxAttempts == maxAttempts
        && PreCheck(r, inScope) == Ok(()) {
        PreCheckGoverns(r, inScope);
        QuietStep(budget, maxAttempts, s, c, Checked(r));
      }
    case ObserveHead(c, clean, sha) =>
      if PhaseOf(s, c).Checked? {
        CallerBound(budget, maxAttempts, s, c);
        QuietStep(budget, maxAttempts, s, c, if clean && sha != "" then Ready(PhaseOf(s, c).request, sha) else Idle);
      }
    case Consume(c) =>
      if PhaseOf(s, c).Ready? {
        var g := Grantee(c, PhaseOf(s, c).request, PhaseOf(s, c).preSha);
        if Grant(s.consumed, maxAttempts, ReceiptOf(budget, g)).Ok? {
          GrantStep(budget, maxAttempts, s, c);
        } else {
          QuietStep(budget, maxAttempts, s, c, Idle);
        }
      }
    case Run(c) =>
      if PhaseOf(s, c).Granted? {
        RunStep(budget, maxAttempts, s, c);
      }
  }

  lemma CallerBound(budget: string, maxAttempts: int, s: System, c: Caller)
    requires Inv(budget, maxAttempts, s) && !PhaseOf(s, c).Idle?
    ensures Bound(budget, maxAttempts, PhaseOf(s, c).request)
  {
  }

  /** Every interleaving keeps the ledger's account. */
  lemma {:induction false} TraceKeepsInv(budget: string, maxAttempts: int, trace: seq<Step>)
    ensures Inv(budget, maxAttempts, After(budget, maxAttempts, trace))
  {
    if trace != [] {
      hide Apply;
      hide Inv;
      TraceKeepsInv(budget, maxAttempts, trace[..|trace| - 1]);
      StepKeepsInv(budget, maxAttempts, After(budget, maxAttempts, trace[..|trace| - 1]), trace[|trace| - 1]);
    }
  }

  // ---------------------------------------------------------------- what follows in every interleaving

  /** The numbers 1, 2, ... n. */
  ghost function UpTo(n: nat): (s: set<nat>)
    ensures forall k: nat :: k in s <==> 1 <= k <= n
    ensures |s| == n
  {
    if n == 0 then {} else UpTo(n - 1) + {n}
  }

  /** The members of a sequence without repeats. */
  ghost function Members(ks: seq<nat>): (s: set<nat>)
    requires forall i, j :: 0 <= i < j < |ks| ==> ks[i] != ks[j]
    ensures forall k :: k in s <==> k in ks
    ensures |s| == |ks|
  {
    if ks == [] then {} else Members(ks[..|ks| - 1]) + {ks[|ks| - 1]}
  }

  lemma SubsetSize(a: set<nat>, b: set<nat>)
    requires a <= b
    ensures |a| <= |b|
  {
    assert b == a + (b - a);
  }

  lemma DistinctBounded(ks: seq<nat>, n: nat)
    requires forall i :: 0 <= i < |ks| ==> 1 <= ks[i] <= n
    requires forall i, j :: 0 <= i < j < |ks| ==> ks[i] != ks[j]
    ensures |ks| <= n
  {
    SubsetSize(Members(ks), UpTo(n));
  }

  /** At most `maxAttempts` commands run. */
  lemma RunsWithinBudget(budget: string, maxAttempts: int, trace: seq<Step>)
    requires maxAttempts >= 1
    ensures |After(budget, maxAttempts, trace).runs| <= maxAttempts
  {
    hide Apply;
    TraceKeepsInv(budget, maxAttempts, trace);
    var s := After(budget, maxAttempts, trace);
    var ks := seq(|s.runs|, i requires 0 <= i < |s.runs| => s.runs[i].attempt);
    DistinctBounded(ks, |s.grants|);
  }

  /** Attempt numbers of runs are distinct, and once no caller is between grant and run they are exactly
      1, 2, ... up to the number of runs. */
  lemma AttemptsConsecutive(budget: string, maxAttempts: int, trace: seq<Step>)
    ensures var s := After(budget, maxAttempts, trace);
            && (forall i, j :: 0 <= i < j < |s.runs| ==> s.runs[i].attempt != s.runs[j].attempt)
            && ((forall c :: !PhaseOf(s, c).Granted?) ==>
                  forall k :: 1 <= k <= |s.grants| ==> Ran(s, k))
            && (forall i :: 0 <= i < |s.runs| ==> 1 <= s.runs[i].attempt <= |s.grants|)
            && |s.runs| <= |s.grants|
  {
    hide Apply;
    TraceKeepsInv(budget, maxAttempts, trace);
    var s := After(budget, maxAttempts, trace);
    var ks := seq(|s.runs|, i requires 0 <= i < |s.runs| => s.runs[i].attempt);
    DistinctBounded(ks, |s.grants|);
  }

  /** No two runs carry the same proposal, command and pre-execution revision, and every run carried an approval
      that validates against its own proposal, scope and contract and against this ledger. */
  lemma RunsNeverReplay(budget: string, maxAttempts: int, trace: seq<Step>, i: nat, j: nat)
    requires i < |After(budget, maxAttempts, trace).runs| && j < |After(budget, maxAttempts, trace).runs|
    ensures var s := After(budget, maxAttempts, trace);
            var a, b := s.runs[i].grantee, s.runs[j].grantee;
            && Bound(budget, maxAttempts, a.request)
            && (i != j ==>
                  || a.request.proposal - {"proposal_id"} != b.request.proposal - {"proposal_id"}
                  || a.request.command != b.request.command
                  || a.preSha != b.preSha)
  {
    hide Apply;
    hide Bound;
    TraceKeepsInv(budget, maxAttempts, trace);
    var s := After(budget, maxAttempts, trace);
    var x, y := s.runs[i].attempt, s.runs[j].attempt;
    assert AttemptIs(s, x, s.runs[i].grantee) && AttemptIs(s, y, s.runs[j].grantee);
    if i != j {
      assert x != y;
      assert s.consumed[x - 1] != s.consumed[y - 1];
    }
  }
}
