/** The status pill (frontend/src/components/Badge.jsx): a colour class
    chosen from the lower-cased status, and the status shown as given. */
module Badge {
  import opened Wrappers
  import opened Json
  import opened Strings

  const GREEN := "bg-green-100 text-green-800 dark:bg-green-900/30 dark:text-green-300"
  const BLUE := "bg-blue-100 text-blue-800 dark:bg-blue-900/30 dark:text-blue-300"
  const RED := "bg-red-100 text-red-800 dark:bg-red-900/30 dark:text-red-300"
  const GRAY := "bg-gray-100 text-gray-800 dark:bg-gray-700 dark:text-gray-300"

  /** The `switch` on an already lower-cased status. */
  function StyleOf(lower: string): string {
    if lower == "active" || lower == "running" then GREEN
    else if lower == "completed" || lower == "success" then BLUE
    else if lower == "failed" || lower == "error" then RED
    else if lower == "planning" || lower == "pending" then GRAY
    else GRAY
  }

  /** `getStyles(status)`: `undefined` and `null` fall through to the
      default; a status with no `toLowerCase` throws. */
  function Styles(status: Option<Value>): Result<string, string> {
    if status.None? || status.value == Null then Ok(GRAY)
    else if status.value.Str? then Ok(StyleOf(ToLower(status.value.s)))
    else Err("TypeError")
  }

  /** The colour of every string status, by its lower-cased form. */
  lemma StylesSpec(s: string)
    ensures var l := ToLower(s);
      (Styles(Some(Str(s))) == Ok(GREEN) <==> l == "active" || l == "running") &&
      (Styles(Some(Str(s))) == Ok(BLUE) <==> l == "completed" || l == "success") &&
      (Styles(Some(Str(s))) == Ok(RED) <==> l == "failed" || l == "error") &&
      (Styles(Some(Str(s))) == Ok(GRAY) <==>
        !(l in ["active", "running", "completed", "success", "failed", "error"]))
  {
  }

  /** The mapping ignores ASCII case. */
  lemma StylesIgnoreCase(s: string, t: string)
    requires ToLower(s) == ToLower(t)
    ensures Styles(Some(Str(s))) == Styles(Some(Str(t)))
  {
  }

  /** "planning", "pending", an unknown word and a missing status all look
      the same. */
  lemma PlanningLooksUnknown(unknown: string)
    requires !(ToLower(unknown) in ["active", "running", "completed", "success", "failed", "error"])
    ensures Styles(Some(Str("Planning"))) == Styles(Some(Str("pending"))) == Styles(Some(Str(unknown)))
      == Styles(None) == Ok(GRAY)
  {
    assert ToLower("Planning") == "planning";
    assert ToLower("pending") == "pending";
  }

  datatype Pill = Pill(className: string, text: Option<Value>)

  /** The rendered pill: the base classes, the colour, and the status text
      exactly as given. */
  function Render(status: Option<Value>): (r: Result<Pill, string>)
    ensures r.Ok? <==> Styles(status).Ok?
    ensures r.Ok? ==> r.value.text == status
  {
    var style := Styles(status);
    if style.Err? then Err(style.error)
    else Ok(Pill("inline-flex items-center px-2.5 py-0.5 rounded-full text-xs font-medium " + style.value, status))
  }
}
