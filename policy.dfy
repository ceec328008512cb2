/**
 * The server-side decision whether a request gets the toolbar
 * (`shouldShowToolbar`): the process-wide `NODE_ENV` and the request's
 * `stagewise` query value are its only inputs.
 */
module VisibilityPolicy {
  import opened Options

  /**
   * `req.query.stagewise` as Express's query parser delivers it: absent, a
   * single string, or a structured value (an array for a repeated key, an
   * object for bracket syntax), which never equals a string.
   */
  datatype QueryValue = Absent | Text(s: string) | Structured

  /** The query values that switch the toolbar off. */
  predicate Suppresses(q: QueryValue) {
    q == Text("false") || q == Text("0")
  }

  /** The environments in which the toolbar is shown by default; an empty `NODE_ENV` counts as unset. */
  predicate DefaultOn(nodeEnv: Option<string>) {
    nodeEnv in {None, Some(""), Some("development"), Some("test")}
  }

  /**
   * `shouldShowToolbar(req)`: production always hides; a suppressing query
   * value hides; otherwise only development, test and an unset environment
   * show it. No query value can turn it on.
   */
  function ShouldShowToolbar(nodeEnv: Option<string>, query: QueryValue): (show: bool)
    ensures nodeEnv == Some("production") ==> !show
    ensures Suppresses(query) ==> !show
    ensures show <==> DefaultOn(nodeEnv) && !Suppresses(query)
  {
    if nodeEnv == Some("production") then false
    else if query.Text? && (query.s == "false" || query.s == "0") then false
    else nodeEnv.None? || nodeEnv.value == "development" || nodeEnv.value == "test" || nodeEnv.value == ""
  }

  /** A query value only ever takes the toolbar away: `?stagewise=true` does not force it on. */
  lemma QueryNeverForcesShow(nodeEnv: Option<string>, query: QueryValue)
    ensures ShouldShowToolbar(nodeEnv, query) ==> ShouldShowToolbar(nodeEnv, Absent)
    ensures !ShouldShowToolbar(nodeEnv, Absent) ==> !ShouldShowToolbar(nodeEnv, Text("true"))
  {
  }

  /** Environments other than the default-on ones, e.g. `staging`, hide the toolbar whatever the query says. */
  lemma OtherEnvironmentsHide(env: string, query: QueryValue)
    requires env !in {"", "development", "test"}
    ensures !ShouldShowToolbar(Some(env), query)
  {
  }
}
