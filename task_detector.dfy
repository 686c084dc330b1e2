/** The backend's task detection (backend/task_detector.py): the last column
    is the target; text targets and targets with few distinct values mean
    classification. */
module TaskDetector {
  import opened Wrappers
  import opened DataFrame

  const MAX_CLASSES: nat := 20

  /** `detect_task(df)`: `(task, target)`; `df.columns[-1]` on a frame
      without columns raises IndexError. */
  function DetectTask(df: Frame): (r: Result<(string, string), string>)
    ensures r.Err? <==> df.columns == []
    ensures r.Err? ==> r.error == "IndexError"
    ensures r.Ok? ==> r.value.1 == df.columns[|df.columns| - 1].name
    ensures r.Ok? ==> r.value.0 in {"classification", "regression"}
    ensures r.Ok? ==> var t := df.columns[|df.columns| - 1];
      (r.value.0 == "classification" <==> t.dtype == ObjectDType || |Distinct(t.cells)| <= MAX_CLASSES)
  {
    if df.columns == [] then Err("IndexError")
    else
      var target := df.columns[|df.columns| - 1];
      if target.dtype == ObjectDType || NUnique(target.cells) <= MAX_CLASSES
      then Ok(("classification", target.name))
      else Ok(("regression", target.name))
  }

  /** A text target is always a classification target. */
  lemma ObjectTargetIsClassification(df: Frame)
    requires df.columns != [] && df.columns[|df.columns| - 1].dtype == ObjectDType
    ensures DetectTask(df) == Ok(("classification", df.columns[|df.columns| - 1].name))
  {
  }

  /** So is any target with at most 20 distinct present values, whatever
      its number of rows. */
  lemma FewDistinctIsClassification(df: Frame)
    requires df.columns != [] && |Distinct(df.columns[|df.columns| - 1].cells)| <= MAX_CLASSES
    ensures DetectTask(df) == Ok(("classification", df.columns[|df.columns| - 1].name))
  {
  }

  /** A non-text target with more than 20 distinct present values is a
      regression target. */
  lemma ManyDistinctIsRegression(df: Frame)
    requires df.columns != []
    requires var t := df.columns[|df.columns| - 1];
      t.dtype != ObjectDType && |Distinct(t.cells)| > MAX_CLASSES
    ensures DetectTask(df) == Ok(("regression", df.columns[|df.columns| - 1].name))
  {
  }

  /** In particular a frame of at most 20 rows is classified. */
  lemma FewRowsIsClassification(df: Frame)
    requires df.columns != [] && |df.columns[|df.columns| - 1].cells| <= MAX_CLASSES
    ensures DetectTask(df).Ok? && DetectTask(df).value.0 == "classification"
  {
    DistinctBound(df.columns[|df.columns| - 1].cells);
    FewDistinctIsClassification(df);
  }

  /** And a numeric target with more than 20 rows, all present and all
      different, is a regression target. */
  lemma ContinuousTargetIsRegression(df: Frame)
    requires df.columns != []
    requires var t := df.columns[|df.columns| - 1];
      t.dtype != ObjectDType && |t.cells| > MAX_CLASSES &&
      (forall i :: 0 <= i < |t.cells| ==> t.cells[i] != Missing) &&
      (forall i, j :: 0 <= i < j < |t.cells| ==> t.cells[i] != t.cells[j])
    ensures DetectTask(df).Ok? && DetectTask(df).value.0 == "regression"
  {
    AllDistinctNUnique(df.columns[|df.columns| - 1].cells);
    ManyDistinctIsRegression(df);
  }
}
