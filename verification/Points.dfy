/** Shared enums of the analytics layer (server/src/analytics/constants.js). */
module Points {
  datatype PointsSemantics = UNVERIFIED | GROSS_BEFORE_HITS | NET_AFTER_HITS | CONFLICTED

  datatype ReconciliationStatus =
    | RECONCILED
    | RECONCILED_NO_COST
    | MISMATCH
    | SEMANTICS_CONFLICT
    | SOURCE_DISAGREEMENT
    | INCOMPLETE

  predicate IsReconciled(s: ReconciliationStatus) {
    s == RECONCILED || s == RECONCILED_NO_COST
  }

  datatype EventState = UPCOMING | LIVE | MATCHES_FINISHED | FPL_PROCESSING | DATA_CHECKED

  datatype WinnerRule = NET_POINTS | GROSS_POINTS

  datatype ResultStatus = PROVISIONAL | FINAL | OVERRIDDEN
}
