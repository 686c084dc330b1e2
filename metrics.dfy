/** The backend's metric selection (backend/metrics.py). */
module Metrics {

  const CLASSIFICATION_METRICS: seq<string> := ["accuracy", "precision", "recall", "f1"]
  const REGRESSION_METRICS: seq<string> := ["rmse", "mae", "r2"]

  /** `select_metrics(task)`: classification metrics for "classification",
      regression metrics for any other string. */
  function SelectMetrics(task: string): (metrics: seq<string>)
    ensures task == "classification" ==> metrics == CLASSIFICATION_METRICS
    ensures task != "classification" ==> metrics == REGRESSION_METRICS
  {
    if task == "classification" then CLASSIFICATION_METRICS else REGRESSION_METRICS
  }

  predicate NoDuplicates(s: seq<string>) {
    forall i, j :: 0 <= i < j < |s| ==> s[i] != s[j]
  }

  /** Every task gets a non-empty list without repeats, and the two lists
      share no metric. */
  lemma SelectMetricsShape(task: string)
    ensures |SelectMetrics(task)| >= 3 && NoDuplicates(SelectMetrics(task))
    ensures forall m :: m in CLASSIFICATION_METRICS ==> m !in REGRESSION_METRICS
  {
  }
}
