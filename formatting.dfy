/** Small display helpers: the status badge colour and the kind of text a timestamp cell shows. */
module Formatting {
  import opened Wrappers
  import opened JsonValue
  import opened JsStrings

  /** The six status names the badge recognises, as `toUpperCase` produces them. */
  predicate IsStatusName(name: string)
  {
    name == "AVAILABLE" || name == "ACTIVE" || name == "CREATING" ||
    name == "UPDATING" || name == "DELETING" || name == "FAILED"
  }

  /**
   * `getStatusBadgeClass(status)`: `status?.toUpperCase()` compared with six status names;
   * a missing status, like any other value, gets the neutral class.
   */
  function GetStatusBadgeClass(status: Option<string>): (r: string)
    ensures r == "bg-success" || r == "bg-warning" || r == "bg-danger" || r == "bg-secondary"
    ensures status.None? ==> r == "bg-secondary"
    ensures status.Some? && !IsStatusName(Upper(status.value)) ==> r == "bg-secondary"
  {
    if status.None? then "bg-secondary"
    else
      var s := Upper(status.value);
      if s == "AVAILABLE" || s == "ACTIVE" then "bg-success"
      else if s == "CREATING" || s == "UPDATING" then "bg-warning"
      else if s == "DELETING" || s == "FAILED" then "bg-danger"
      else "bg-secondary"
  }

  /** Upper-casing a status first does not change its badge. */
  lemma StatusBadgeOfUpper(s: string)
    ensures GetStatusBadgeClass(Some(Upper(s))) == GetStatusBadgeClass(Some(s))
  {
    UpperIdempotent(s);
  }

  /** Upper-cases a string of ASCII letters the way `toUpperCase` does. */
  lemma UpperOfWord(s: string, u: string)
    requires |s| == |u|
    requires forall i :: 0 <= i < |s| ==> ('A' <= u[i] <= 'Z') && (s[i] == u[i] || s[i] as int == u[i] as int + 32)
    ensures Upper(s) == u
  {
    var r := Upper(s);
    forall i | 0 <= i < |s| ensures r[i] == u[i] {
      var c := s[i];
      assert r[i] == UpperChar(c);
      if c != u[i] {
        assert 'a' <= c <= 'z';
      }
    }
  }

  /** `s` spells `name` in any mix of ASCII letter case. */
  predicate AsciiCaseOf(s: string, name: string)
  {
    |s| == |name| &&
    forall i :: 0 <= i < |s| ==> s[i] == name[i] || s[i] as int == name[i] as int + 32
  }

  /**
   * Every spelling of a status name, in any mix of letter case, gets the colour of its
   * group: available and active are green, creating and updating amber, deleting and
   * failed red.
   */
  lemma StatusBadgeIgnoresCase(s: string, name: string)
    requires IsStatusName(name) && AsciiCaseOf(s, name)
    ensures GetStatusBadgeClass(Some(s)) ==
      if name == "AVAILABLE" || name == "ACTIVE" then "bg-success"
      else if name == "CREATING" || name == "UPDATING" then "bg-warning"
      else "bg-danger"
  {
    assert forall i :: 0 <= i < |name| ==> 'A' <= name[i] <= 'Z';
    UpperOfWord(s, name);
  }

  /** What a timestamp cell shows, by the type of the value (`formatDate`). */
  datatype DateText =
    | NotAvailable             // 'N/A'
    | InvalidDate              // 'Invalid Date'
    | FromEpochSeconds(n: int) // new Date(n * 1000).toLocaleString()
    | FromDateString(s: string)// new Date(s).toLocaleString()

  /** `formatDate(v)`: falsy values are 'N/A'; numbers and strings are dates; anything else is invalid. */
  function FormatDate(v: Option<Json>): (r: DateText)
    ensures r == NotAvailable <==> v.None? || !Truthy(v.value)
    ensures r == InvalidDate <==> v.Some? && Truthy(v.value) && !v.value.JNum? && !v.value.JStr?
  {
    if v.None? || !Truthy(v.value) then NotAvailable
    else match v.value
      case JNum(n) => FromEpochSeconds(n)
      case JStr(s) => FromDateString(s)
      case _ => InvalidDate
  }
}
