/** Where the gate's evidence comes from: the auditor's verdict on the artifact and on its corrupted copy. */
module GateEvidence {
  import opened Gate
  import FoldAudit
  import AuditVerdict
  import AuditTheorems

  /** Evidence that `evaluate` gathers from an artifact with one improvement for each fold. It runs the control and
      audits its output; `leakageRejected` is read off that audit when the control does not raise. */
  ghost predicate Gathered(tools: AuditVerdict.Tools, rows: seq<FoldAudit.Row>, a: AuditVerdict.Artifact, e: Evidence) {
    && |e.differences| == |a.folds|
    && e.sourceAudit == AuditVerdict.Passes(tools, rows, a)
    && var control := AuditTheorems.InjectFuture(a);
       control.Corrupted? ==>
         control.artifact.split == a.split && e.leakageRejected == !AuditVerdict.Passes(tools, rows, control.artifact)
  }

  /** The leakage condition of the gate adds nothing: the control never raises on an artifact that passes the source
      audit, and with gathered evidence the decision is the same without that condition. */
  lemma LeakageGateRedundant(tools: AuditVerdict.Tools, rows: seq<FoldAudit.Row>, a: AuditVerdict.Artifact, e: Evidence)
    requires FoldAudit.GoodRows(rows) && e.differences != [] && Gathered(tools, rows, a, e)
    ensures e.sourceAudit ==> AuditTheorems.InjectFuture(a).Corrupted? && e.leakageRejected
    ensures BLevelPass(e) <==> BLevelPass(e.(leakageRejected := true))
  {
    if e.sourceAudit {
      AuditTheorems.LeakageIsRejected(tools, rows, a);
    }
  }
}
