/** The completion-time scope backstop (scope-audit.ts), as both runners' last step. */
module ScopeAudit {
  import opened Options
  import opened Ledger

  /** What the auditor finds in the worktree. */
  datatype Found = Found(changed: nat, commitsAhead: nat, warning: bool)

  /** What the node declared it would write, whether an auditor is wired, and what it would find. */
  datatype Subject = Subject(declared: seq<string>, auditor: bool, found: Found)

  /** `scopeAuditRefusal`: a declared scope with no auditor behind it is refused before the spawn. */
  function Unwired(s: Subject): Option<Reason> {
    if s.declared != [] && !s.auditor then Some("internal") else None
  }

  predicate Asked(s: Subject) { s.declared != [] && s.auditor }

  /** `workProductRefusal`: the node declared a write scope and left neither a change nor a commit. */
  function WorkProductRefusal(s: Subject): Option<Reason> {
    if Asked(s) && s.found.changed == 0 && s.found.commitsAhead == 0 then Some("contract.no-work-product") else None
  }

  function Warnings(s: Subject): seq<Batch> {
    if Asked(s) && s.found.warning then [[ScopeWarning]] else []
  }

  /** Files the warning before the caller can close the attempt, and answers with the refusal. */
  method AuditCompletionScope(s: Subject, book: Book) returns (refusal: Option<Reason>)
    modifies book
    ensures book.batches == old(book.batches) + Warnings(s) && refusal == WorkProductRefusal(s)
    ensures refusal.Some? <==>
              s.declared != [] && s.auditor && s.found.changed == 0 && s.found.commitsAhead == 0
    ensures refusal.Some? ==> refusal.value == "contract.no-work-product"
    ensures book.batches == old(book.batches) +
              if s.declared != [] && s.auditor && s.found.warning then [[ScopeWarning]] else []
  {
    if s.declared == [] || !s.auditor { return None; }
    refusal := if s.found.changed > 0 || s.found.commitsAhead > 0 then None else Some("contract.no-work-product");
    if s.found.warning { book.Append(ScopeWarning); }
  }
}
