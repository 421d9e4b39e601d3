/**
 * The per-user session object (`req.session`). The request middleware and
 * several route handlers read and overwrite its properties in place, so it is
 * a class whose one field is the property table; a key that is absent stands
 * for a property that is `undefined`.
 */
module SessionState {

  /** The kinds of value the session and the view locals hold. */
  datatype Value =
    | Text(s: string)
    | Flag(b: bool)
    | ErrorList(errors: seq<string>)
    | Null

  /** JavaScript truthiness: the empty string, `false` and `null` are falsy; arrays are truthy. */
  predicate IsTruthy(v: Value) {
    match v
    case Text(s) => s != ""
    case Flag(b) => b
    case ErrorList(_) => true
    case Null => false
  }

  /** `if (obj[key])` on a property table, where an absent key is `undefined`. */
  predicate Truthy(m: map<string, Value>, key: string) {
    key in m && IsTruthy(m[key])
  }

  /** The name of the cookie that remembers the user setting `key` across sessions. */
  function SettingCookie(key: string): string {
    "user-setting-" + key
  }

  class Session {
    var entries: map<string, Value>
  }
}
