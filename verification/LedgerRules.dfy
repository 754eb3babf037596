/** What the executor demands, written out, and the events behind every run. */
module LedgerRules {
  import opened Common
  import opened Ledger

  ghost predicate HasText(s: string) {
    exists i :: 0 <= i < |s| && !Whitespace(s[i])
  }

  /** A request whose proposal is allowed, whose command is the governed action, and whose approval binds to the
      proposal, the action, the scope and the ledger. */
  ghost predicate Permitted(r: Request, inScope: bool) {
    && "allowed" in r.proposal && r.proposal["allowed"] == Flag(true)
    && r.context.allowedPaths != [] && inScope
    && |r.command| >= 2 && r.command[0] == "ruff" && (r.command[1] == "check" || r.command[1] == "format")
    && (forall i, j :: 0 <= i < |r.command| && 0 <= j < |r.command[i]| ==> r.command[i][j] !in "&|;><$`")
    && "governed_action" in r.proposal && r.proposal["governed_action"] == Texts([r.command[0], r.command[1]])
    && r.approval.Ok?
    && var a := r.approval.value;
       && a.status == "APPROVED" && HasText(a.approverId) && HasText(a.approvedAt)
       && a.proposalId == OfProposal(r.proposal - {"proposal_id"})
       && a.governedAction == (r.command[0], r.command[1])
       && a.scope == OfScope(multiset(r.context.allowedPaths))
       && a.authority == OfAuthority(r.context.budget, r.context.maxAttempts, r.context.contract)
  }

  // ---------------------------------------------------------------- the name of the program

  /** A component `name` ends before position n. */
  ghost predicate EndsAt(path: string, n: nat, name: string)
    requires n <= |path|
  {
    n >= |name| && path[n - |name|..n] == name && (n == |name| || path[n - |name| - 1] == '/')
  }

  /** The last character of a component that no separator and no single dot can pass for. */
  ghost predicate Plain(name: string) {
    name != "" && '/' !in name && name[|name| - 1] != '.'
  }

  /** Nothing but separators, and single dots after them. */
  ghost predicate Trailing(s: string) {
    forall i :: 0 <= i < |s| ==> Trails(s, i)
  }

  ghost predicate Trails(s: string, i: nat)
    requires i < |s|
  {
    s[i] == '/' || (s[i] == '.' && i > 0 && s[i - 1] == '/')
  }

  /** The last component that counts is `name`. */
  ghost predicate Named(path: string, name: string) {
    exists n: nat :: n <= |path| && EndsAt(path, n, name) && Trailing(path[n..])
  }

  /** Position a begins the last component, which may be empty. */
  ghost predicate Begins(path: string, a: nat)
    requires a <= |path|
  {
    (a == 0 || path[a - 1] == '/') && forall k :: a <= k < |path| ==> path[k] != '/'
  }

  lemma {:induction false} LastPartIs(path: string) returns (a: nat)
    ensures a <= |path| && Begins(path, a) && LastPart(path) == path[a..]
  {
    a := |path|;
    if path != "" && path[|path| - 1] != '/' {
      var init := path[..|path| - 1];
      a := LastPartIs(init);
      hide LastPart;
      assert path[a..] == init[a..] + [path[|path| - 1]];
    }
  }

  lemma BeginsOnce(path: string, a: nat, b: nat)
    requires a <= |path| && b <= |path| && Begins(path, a) && Begins(path, b)
    ensures a == b
  {
  }

  lemma EndBegins(path: string, name: string)
    requires '/' !in name && EndsAt(path, |path|, name)
    ensures Begins(path, |path| - |name|) && path[|path| - |name|..] == name
  {
    var a := |path| - |name|;
    forall k | a <= k < |path| ensures path[k] != '/' {
      assert path[a..|path|][k - a] == path[k];
    }
  }

  lemma LastPartIff(path: string, name: string)
    requires Plain(name)
    ensures LastPart(path) == name <==> EndsAt(path, |path|, name)
  {
    hide LastPart;
    hide Begins;
    hide EndsAt;
    var a := LastPartIs(path);
    if EndsAt(path, |path|, name) {
      NotLonger(path, name);
      EndBegins(path, name);
      BeginsOnce(path, a, |path| - |name|);
    } else if path[a..] == name {
      LastComponent(path, a);
    }
  }

  lemma NotLonger(path: string, name: string)
    requires EndsAt(path, |path|, name)
    ensures |name| <= |path|
  {
  }

  lemma LastComponent(path: string, a: nat)
    requires a <= |path| && Begins(path, a)
    ensures EndsAt(path, |path|, path[a..])
  {
  }

  lemma TrailingStep(path: string, n: nat)
    requires n < |path|
    ensures Trailing(path[n..]) <==>
              && Trailing(path[..|path| - 1][n..])
              && (path[|path| - 1] == '/'
                  || (path[|path| - 1] == '.' && n < |path| - 1 && path[|path| - 2] == '/'))
  {
    var a, b := path[n..], path[..|path| - 1][n..];
    assert a == b + [path[|path| - 1]];
    forall i | 0 <= i < |b| ensures Trails(b, i) <==> Trails(a, i) {
    }
    assert Trails(a, |b|) <==> (path[|path| - 1] == '/' || (path[|path| - 1] == '.' && b != [] && b[|b| - 1] == '/'));
  }

  /** The last character may trail what comes before it. */
  ghost predicate Follows(path: string)
    requires path != ""
  {
    path[|path| - 1] == '/' || (path[|path| - 1] == '.' && |path| >= 2 && path[|path| - 2] == '/')
  }

  lemma EndsEarlier(path: string, n: nat, name: string)
    requires n < |path|
    ensures EndsAt(path, n, name) <==> EndsAt(path[..|path| - 1], n, name)
  {
    if n >= |name| {
      assert path[..|path| - 1][n - |name|..n] == path[n - |name|..n];
    }
  }

  /** The name ends the path, or ends before characters that trail. */
  lemma NamedStep(path: string, name: string)
    requires Plain(name) && path != ""
    ensures Named(path, name) <==>
              EndsAt(path, |path|, name) || (Named(path[..|path| - 1], name) && Follows(path))
  {
    if EndsAt(path, |path|, name) {
      assert path[|path|..] == "";
    }
    if Named(path, name) && !EndsAt(path, |path|, name) {
      NamedBefore(path, name);
    }
    if Named(path[..|path| - 1], name) && Follows(path) {
      NamedAfter(path, name);
    }
  }

  lemma NamedBefore(path: string, name: string)
    requires Plain(name) && path != "" && Named(path, name) && !EndsAt(path, |path|, name)
    ensures Named(path[..|path| - 1], name) && Follows(path)
  {
    hide EndsAt;
    var n: nat :| n <= |path| && EndsAt(path, n, name) && Trailing(path[n..]);
    TrailingStep(path, n);
    EndsEarlier(path, n, name);
    hide Trailing;
  }

  lemma NamedAfter(path: string, name: string)
    requires Plain(name) && path != "" && Named(path[..|path| - 1], name) && Follows(path)
    ensures Named(path, name)
  {
    var init := path[..|path| - 1];
    var n: nat :| n <= |init| && EndsAt(init, n, name) && Trailing(init[n..]);
    TrailingStep(path, n);
    EndsEarlier(path, n, name);
    if n == |init| && path[|path| - 1] == '.' {
      NoNameEnds(init, name);
      assert false;
    }
    hide Trailing;
    hide EndsAt;
  }

  lemma NoNameEnds(path: string, name: string)
    requires Plain(name) && path != "" && (path[|path| - 1] == '/' || path[|path| - 1] == '.')
    ensures !EndsAt(path, |path|, name)
  {
  }

  lemma {:induction false} BaseNameIff(path: string, name: string)
    requires Plain(name)
    ensures BaseName(path) == name <==> Named(path, name)
  {
    hide Named;
    hide EndsAt;
    if path == "" {
      NothingNamed(name);
    } else {
      NamedStep(path, name);
      var last := path[|path| - 1];
      if last == '/' || last == '.' {
        NoNameEnds(path, name);
      }
      if path == "." {
      } else if last == '/' || (|path| >= 2 && path[|path| - 2..] == "/.") {
        BaseNameIff(path[..|path| - 1], name);
      } else {
        LastPartIff(path, name);
        if last == '.' && |path| >= 2 && path[|path| - 2] == '/' {
          assert false;
        }
      }
    }
  }

  lemma NothingNamed(name: string)
    requires Plain(name)
    ensures !Named("", name)
  {
  }

  lemma RuffIsExecutable(command: seq<string>)
    requires |command| >= 1 && command[0] == "ruff"
    ensures Executable(command)
  {
    BaseNameIff(command[0], "ruff");
    assert command[0][..|command[0]|] == command[0];
    assert EndsAt(command[0], |command[0]|, "ruff") && command[0][|command[0]|..] == "";
  }

  /** The allowlist refuses a request exactly when no earlier check does and the program is not named ruff. */
  lemma OutsideAllowlistIff(r: Request, inScope: bool)
    ensures PreCheck(r, inScope) == Err("command is outside governed allowlist") <==>
              && "allowed" in r.proposal && r.proposal["allowed"] == Flag(true) && r.context.allowedPaths != []
              && (r.command == [] || !Named(r.command[0], "ruff"))
  {
    hide BaseName;
    hide HasMeta;
    hide Blank;
    hide Named;
    if r.command != [] {
      BaseNameIff(r.command[0], "ruff");
    }
  }

  lemma MetaMeans(command: seq<string>)
    ensures HasMeta(command) <==>
              !(forall i, j :: 0 <= i < |command| && 0 <= j < |command[i]| ==> command[i][j] !in "&|;><$`")
  {
    forall c: char ensures ShellMeta(c) <==> c in "&|;><$`" {
    }
  }

  lemma ValidMeans(a: Approval, p: Proposal, c: Context)
    ensures ValidateApproval(a, p, c) == Ok(()) <==>
              && a.status == "APPROVED" && HasText(a.approverId) && HasText(a.approvedAt)
              && a.proposalId == OfProposal(p - {"proposal_id"})
              && "governed_action" in p && p["governed_action"] == Texts([a.governedAction.0, a.governedAction.1])
              && a.scope == OfScope(multiset(c.allowedPaths))
              && a.authority == OfAuthority(c.budget, c.maxAttempts, c.contract)
  {
  }

  /** A request passes the checks if and only if it is permitted. */
  lemma PreCheckIff(r: Request, inScope: bool)
    ensures PreCheck(r, inScope) == Ok(()) <==> Permitted(r, inScope)
  {
    hide HasMeta;
    hide Executable;
    hide ValidateApproval;
    MetaMeans(r.command);
    if r.approval.Ok? {
      ValidMeans(r.approval.value, r.proposal, r.context);
    }
    if |r.command| >= 1 && r.command[0] == "ruff" {
      RuffIsExecutable(r.command);
    }
    if PreCheck(r, inScope) == Ok(()) {
      var items := r.proposal["governed_action"].items;
      assert items == [items[0], items[1]];
    }
  }

  // ---------------------------------------------------------------- the events behind a run

  /** Events a < b of the trace: the caller submitted the request in scope, then found the repository clean. */
  ghost predicate Observed(budget: string, maxAttempts: int, trace: seq<Step>, c: Caller, r: Request, sha: string,
                           a: nat, b: nat) {
    && a < b < |trace| && trace[a] == Submit(c, r, true) && trace[b] == ObserveHead(c, true, sha) && sha != ""
    && Permitted(r, true) && r.context.budget == budget && r.context.maxAttempts == maxAttempts
  }

  ghost predicate Submitted(budget: string, maxAttempts: int, trace: seq<Step>, c: Caller, r: Request) {
    && (exists a :: 0 <= a < |trace| && trace[a] == Submit(c, r, true))
    && Permitted(r, true) && r.context.budget == budget && r.context.maxAttempts == maxAttempts
  }

  ghost predicate Cleared(budget: string, maxAttempts: int, trace: seq<Step>, c: Caller, r: Request, sha: string) {
    exists a: nat, b: nat :: Observed(budget, maxAttempts, trace, c, r, sha, a, b)
  }

  ghost predicate PhaseBacked(budget: string, maxAttempts: int, trace: seq<Step>, c: Caller, ph: Phase) {
    match ph
    case Idle => true
    case Checked(r) => Submitted(budget, maxAttempts, trace, c, r)
    case Ready(r, sha) => Cleared(budget, maxAttempts, trace, c, r, sha)
    case Granted(r, sha, _) => Cleared(budget, maxAttempts, trace, c, r, sha)
  }

  ghost predicate RunBacked(budget: string, maxAttempts: int, trace: seq<Step>, run: RunRecord) {
    Cleared(budget, maxAttempts, trace, run.grantee.caller, run.grantee.request, run.grantee.preSha)
  }

  ghost predicate AllBacked(budget: string, maxAttempts: int, trace: seq<Step>, s: System) {
    && (forall c :: PhaseBacked(budget, maxAttempts, trace, c, PhaseOf(s, c)))
    && (forall i :: 0 <= i < |s.runs| ==> RunBacked(budget, maxAttempts, trace, s.runs[i]))
  }

  lemma ClearedGrows(budget: string, maxAttempts: int, trace: seq<Step>, e: Step, c: Caller, r: Request, sha: string)
    requires Cleared(budget, maxAttempts, trace, c, r, sha)
    ensures Cleared(budget, maxAttempts, trace + [e], c, r, sha)
  {
    hide Permitted;
    var a: nat, b: nat :| Observed(budget, maxAttempts, trace, c, r, sha, a, b);
    assert Observed(budget, maxAttempts, trace + [e], c, r, sha, a, b);
  }

  lemma SubmittedGrows(budget: string, maxAttempts: int, trace: seq<Step>, e: Step, c: Caller, r: Request)
    requires Submitted(budget, maxAttempts, trace, c, r)
    ensures Submitted(budget, maxAttempts, trace + [e], c, r)
  {
    hide Permitted;
    var a :| 0 <= a < |trace| && trace[a] == Submit(c, r, true);
    assert (trace + [e])[a] == Submit(c, r, true);
  }

  lemma PhaseGrows(budget: string, maxAttempts: int, trace: seq<Step>, e: Step, c: Caller, ph: Phase)
    requires PhaseBacked(budget, maxAttempts, trace, c, ph)
    ensures PhaseBacked(budget, maxAttempts, trace + [e], c, ph)
  {
    hide Cleared;
    hide Submitted;
    match ph
    case Idle =>
    case Checked(r) => SubmittedGrows(budget, maxAttempts, trace, e, c, r);
    case Ready(r, sha) => ClearedGrows(budget, maxAttempts, trace, e, c, r, sha);
    case Granted(r, sha, _) => ClearedGrows(budget, maxAttempts, trace, e, c, r, sha);
  }

  /** The phase a caller moves to is backed by the trace with the event. */
  lemma MovedBacked(budget: string, maxAttempts: int, trace: seq<Step>, s: System, e: Step, c: Caller)
    requires AllBacked(budget, maxAttempts, trace, s)
    ensures PhaseBacked(budget, maxAttempts, trace + [e], c, PhaseOf(Apply(budget, maxAttempts, s, e), c))
  {
    hide Permitted;
    hide PreCheck;
    hide Grant;
    var more, ph := trace + [e], PhaseOf(Apply(budget, maxAttempts, s, e), c);
    assert PhaseBacked(budget, maxAttempts, trace, c, PhaseOf(s, c));
    PhaseGrows(budget, maxAttempts, trace, e, c, PhaseOf(s, c));
    assert more[|trace|] == e;
    if ph != PhaseOf(s, c) {
      match e
      case Submit(_, r, inScope) =>
        PreCheckIff(r, inScope);
        ScopeNeeded(r, inScope);
      case ObserveHead(_, clean, sha) =>
        if ph.Ready? {
          var r := PhaseOf(s, c).request;
          var a :| 0 <= a < |trace| && trace[a] == Submit(c, r, true);
          assert Observed(budget, maxAttempts, more, c, r, sha, a, |trace|);
        }
      case Consume(_) =>
      case Run(_) =>
    }
  }

  lemma ScopeNeeded(r: Request, inScope: bool)
    requires Permitted(r, inScope)
    ensures inScope
  {
  }

  lemma RunsGrow(budget: string, maxAttempts: int, trace: seq<Step>, s: System, e: Step, i: nat)
    requires AllBacked(budget, maxAttempts, trace, s) && i < |Apply(budget, maxAttempts, s, e).runs|
    ensures RunBacked(budget, maxAttempts, trace + [e], Apply(budget, maxAttempts, s, e).runs[i])
  {
    hide Cleared;
    hide Submitted;
    hide PreCheck;
    hide Grant;
    if i < |s.runs| {
      var g := s.runs[i].grantee;
      assert RunBacked(budget, maxAttempts, trace, s.runs[i]);
      ClearedGrows(budget, maxAttempts, trace, e, g.caller, g.request, g.preSha);
    } else {
      var c := e.caller;
      assert PhaseBacked(budget, maxAttempts, trace, c, PhaseOf(s, c));
      ClearedGrows(budget, maxAttempts, trace, e, c, PhaseOf(s, c).request, PhaseOf(s, c).preSha);
    }
  }

  lemma {:induction false} TraceBacked(budget: string, maxAttempts: int, trace: seq<Step>)
    ensures AllBacked(budget, maxAttempts, trace, After(budget, maxAttempts, trace))
  {
    hide Apply;
    hide PhaseBacked;
    hide RunBacked;
    if trace == [] {
      NothingBacked(budget, maxAttempts);
    } else {
      var init, e := trace[..|trace| - 1], trace[|trace| - 1];
      assert trace == init + [e];
      TraceBacked(budget, maxAttempts, init);
      var s := After(budget, maxAttempts, init);
      var t := After(budget, maxAttempts, trace);
      forall c ensures PhaseBacked(budget, maxAttempts, trace, c, PhaseOf(t, c)) {
        MovedBacked(budget, maxAttempts, init, s, e, c);
      }
      forall i | 0 <= i < |t.runs| ensures RunBacked(budget, maxAttempts, trace, t.runs[i]) {
        RunsGrow(budget, maxAttempts, init, s, e, i);
      }
    }
  }

  lemma NothingBacked(budget: string, maxAttempts: int)
    ensures AllBacked(budget, maxAttempts, [], EMPTY)
  {
  }

  /** Behind every run of every interleaving are a submission of its request by its caller, in scope, and later a
      clean observation by the same caller of exactly the revision it ran on; the request was permitted, which
      includes that its proposal was allowed, and bound to this ledger. */
  lemma EveryRunBacked(budget: string, maxAttempts: int, trace: seq<Step>, i: nat) returns (a: nat, b: nat)
    requires i < |After(budget, maxAttempts, trace).runs|
    ensures var g := After(budget, maxAttempts, trace).runs[i].grantee;
            && a < b < |trace| && trace[a] == Submit(g.caller, g.request, true)
            && trace[b] == ObserveHead(g.caller, true, g.preSha) && g.preSha != ""
            && Permitted(g.request, true)
            && g.request.context.budget == budget && g.request.context.maxAttempts == maxAttempts
  {
    hide After;
    hide Permitted;
    TraceBacked(budget, maxAttempts, trace);
    var run := After(budget, maxAttempts, trace).runs[i];
    assert RunBacked(budget, maxAttempts, trace, run);
    a, b :| Observed(budget, maxAttempts, trace, run.grantee.caller, run.grantee.request, run.grantee.preSha, a, b);
  }

  // ---------------------------------------------------------------- refusals

  lemma BlankIff(s: string)
    ensures Blank(s) <==> forall i :: 0 <= i < |s| ==>
              || s[i] in "\t\n\r " || s[i] as int in {0x0b, 0x0c, 0x1c, 0x1d, 0x1e, 0x1f, 0x85, 0xa0, 0x1680}
              || 0x2000 <= s[i] as int <= 0x200a || s[i] as int in {0x2028, 0x2029, 0x202f, 0x205f, 0x3000}
  {
  }

  /** Two grantees get the same receipt if and only if proposal (up to a stored identity), command and revision are
      the same. */
  lemma ReceiptsSame(budget: string, g: Grantee, h: Grantee)
    ensures ReceiptOf(budget, g) == ReceiptOf(budget, h) <==>
              && g.request.proposal - {"proposal_id"} == h.request.proposal - {"proposal_id"}
              && g.request.command == h.request.command && g.preSha == h.preSha
  {
  }

  /** In every interleaving a caller that is ready is granted an attempt if and only if fewer than `maxAttempts` have
      been granted and none of them had the same proposal, command and revision. A refused caller starts again. */
  lemma GrantedIff(budget: string, maxAttempts: int, trace: seq<Step>, c: Caller)
    requires PhaseOf(After(budget, maxAttempts, trace), c).Ready?
    ensures var s := After(budget, maxAttempts, trace);
            var r, sha := PhaseOf(s, c).request, PhaseOf(s, c).preSha;
            var t := Apply(budget, maxAttempts, s, Consume(c));
            if |s.grants| < maxAttempts
               && forall i :: 0 <= i < |s.grants| ==>
                    || s.grants[i].request.proposal - {"proposal_id"} != r.proposal - {"proposal_id"}
                    || s.grants[i].request.command != r.command || s.grants[i].preSha != sha
            then PhaseOf(t, c) == Granted(r, sha, |s.grants| + 1) && t.grants == s.grants + [Grantee(c, r, sha)]
            else PhaseOf(t, c).Idle? && t.grants == s.grants && t.consumed == s.consumed
  {
    hide After;
    hide ReceiptOf;
    TraceKeepsInv(budget, maxAttempts, trace);
    hide AttemptsAccounted;
    hide CallersBound;
    hide Bound;
    var s := After(budget, maxAttempts, trace);
    var g := Grantee(c, PhaseOf(s, c).request, PhaseOf(s, c).preSha);
    forall i | 0 <= i < |s.grants|
      ensures s.consumed[i] == ReceiptOf(budget, g) <==>
                && s.grants[i].request.proposal - {"proposal_id"} == g.request.proposal - {"proposal_id"}
                && s.grants[i].request.command == g.request.command && s.grants[i].preSha == g.preSha
    {
      ReceiptsSame(budget, s.grants[i], g);
    }
    if ReceiptOf(budget, g) in s.consumed {
      var i :| 0 <= i < |s.consumed| && s.consumed[i] == ReceiptOf(budget, g);
    }
  }
}
