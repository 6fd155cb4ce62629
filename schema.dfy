/**
 * The part of zod's string schemas the forms use. A string field runs its
 * checks in order on the (trimmed, when `.trim()` comes first) value and
 * collects one issue per failing check; the object schema concatenates the
 * fields' issues in declaration order. Lengths are JavaScript lengths.
 */
module Schema {
  import opened Text

  /** A validation issue: the field it is about (`issue.path[0]`) and its message. */
  datatype Issue = Issue(path: string, message: string)

  /** One check of a string schema. `Chars` is a regular expression `^[...]+$`
      (or `^[...]*$` when `allowEmpty`) over the character class `allowed`;
      `Email` is zod's `.email()`, whose pattern is left abstract. */
  datatype Check =
    | MinLength(bound: nat, message: string)
    | MaxLength(bound: nat, message: string)
    | Chars(allowed: char -> bool, allowEmpty: bool, message: string)
    | Email(message: string)
  {
    function Message(): string {
      match this
      case MinLength(_, m) => m
      case MaxLength(_, m) => m
      case Chars(_, _, m) => m
      case Email(m) => m
    }
  }

  /** The email format used by fields that have no email check. */
  const NoEmailCheck: string -> bool := _ => true

  /** Every character of `s` is in the class `allowed`. */
  predicate AllIn(s: string, allowed: char -> bool) {
    forall k :: 0 <= k < |s| ==> allowed(s[k])
  }

  predicate Passes(c: Check, value: string, emailFormat: string -> bool) {
    match c
    case MinLength(n, _) => Utf16Length(value) >= n
    case MaxLength(n, _) => Utf16Length(value) <= n
    case Chars(allowed, allowEmpty, _) => (allowEmpty || |value| > 0) && AllIn(value, allowed)
    case Email(_) => emailFormat(value)
  }

  /** The issues a field at `path` raises for `value`: one per failing check, in order. */
  function FieldIssues(path: string, value: string, checks: seq<Check>, emailFormat: string -> bool): (r: seq<Issue>)
    ensures |r| <= |checks|
    ensures r == [] <==> forall k :: 0 <= k < |checks| ==> Passes(checks[k], value, emailFormat)
    ensures forall k :: 0 <= k < |r| ==> r[k].path == path
    ensures |checks| > 0 && !Passes(checks[0], value, emailFormat) ==>
              r != [] && r[0] == Issue(path, checks[0].Message())
  {
    if checks == [] then []
    else
      var rest := FieldIssues(path, value, checks[1..], emailFormat);
      assert forall k :: 1 <= k < |checks| ==> checks[k] == checks[1..][k - 1];
      if Passes(checks[0], value, emailFormat) then rest
      else [Issue(path, checks[0].Message())] + rest
  }

  /** Every issue carries the message of a check the value fails. */
  lemma {:induction false} IssueFromFailedCheck(path: string, value: string, checks: seq<Check>, emailFormat: string -> bool, k: nat)
    requires k < |FieldIssues(path, value, checks, emailFormat)|
    ensures exists j :: 0 <= j < |checks| && !Passes(checks[j], value, emailFormat)
              && FieldIssues(path, value, checks, emailFormat)[k].message == checks[j].Message()
    decreases |checks|
  {
    var r := FieldIssues(path, value, checks, emailFormat);
    var rest := FieldIssues(path, value, checks[1..], emailFormat);
    if !Passes(checks[0], value, emailFormat) && k == 0 {
      assert r[0].message == checks[0].Message();
    } else {
      var k' := if Passes(checks[0], value, emailFormat) then k else k - 1;
      assert r[k] == rest[k'];
      IssueFromFailedCheck(path, value, checks[1..], emailFormat, k');
      var j :| 0 <= j < |checks[1..]| && !Passes(checks[1..][j], value, emailFormat) && rest[k'].message == checks[1..][j].Message();
      assert checks[1..][j] == checks[j + 1];
    }
  }

  /** `result.error.issues[0]?.message || "Dados inválidos"`. */
  function FirstMessage(issues: seq<Issue>): (m: string)
    ensures issues != [] && issues[0].message != "" ==> m == issues[0].message
    ensures m != ""
  {
    if issues != [] && issues[0].message != "" then issues[0].message else "Dados inválidos"
  }

  /** The error map built by `issues.forEach(issue => errors[issue.path[0]] = issue.message)`:
      specified from the end, so the last issue on a field wins. */
  function ErrorMap(issues: seq<Issue>): map<string, string>
  {
    if issues == [] then map[]
    else
      var last := issues[|issues| - 1];
      ErrorMap(issues[..|issues| - 1])[last.path := last.message]
  }

  /** The error map has exactly one entry per field that has an issue, holding the
      message of that field's LAST issue. */
  lemma {:induction false} ErrorMapSpec(issues: seq<Issue>, path: string)
    ensures path in ErrorMap(issues) <==> exists i :: 0 <= i < |issues| && issues[i].path == path
    ensures path in ErrorMap(issues) ==>
              exists i :: 0 <= i < |issues| && issues[i].path == path
                && ErrorMap(issues)[path] == issues[i].message
                && forall j :: i < j < |issues| ==> issues[j].path != path
  {
    if issues != [] {
      var n := |issues| - 1;
      var init := issues[..n];
      ErrorMapSpec(init, path);
      assert forall i :: 0 <= i < |init| ==> init[i] == issues[i];
      if issues[n].path == path {
        assert ErrorMap(issues)[path] == issues[n].message;
      } else if path in ErrorMap(init) {
        var i :| 0 <= i < |init| && init[i].path == path && ErrorMap(init)[path] == init[i].message
                   && forall j :: i < j < |init| ==> init[j].path != path;
        assert ErrorMap(issues)[path] == issues[i].message;
        assert forall j :: i < j < |issues| ==> issues[j].path != path;
      }
    }
  }

  /** The last issue's message is its field's entry. */
  lemma ErrorMapLast(a: seq<Issue>, x: Issue)
    ensures ErrorMap(a + [x]) == ErrorMap(a)[x.path := x.message]
  {
    assert (a + [x])[..|a + [x]| - 1] == a;
  }

  /** Issues on other fields that come later leave a field's entry as it was. */
  lemma {:induction false} ErrorMapUnaffected(a: seq<Issue>, b: seq<Issue>, path: string)
    requires forall k :: 0 <= k < |b| ==> b[k].path != path
    ensures path in ErrorMap(a + b) <==> path in ErrorMap(a)
    ensures path in ErrorMap(a) ==> ErrorMap(a + b)[path] == ErrorMap(a)[path]
  {
    if b != [] {
      var init := b[..|b| - 1];
      assert (a + b)[..|a + b| - 1] == a + init;
      ErrorMapUnaffected(a, init, path);
    } else {
      assert a + b == a;
    }
  }

  /** Building the error map with the page's loop: `forEach` over the issues,
      overwriting the entry of each issue's field. */
  method CollectErrors(issues: seq<Issue>) returns (errors: map<string, string>)
    ensures errors == ErrorMap(issues)
  {
    errors := map[];
    var i := 0;
    while i < |issues|
      invariant 0 <= i <= |issues|
      invariant errors == ErrorMap(issues[..i])
    {
      assert issues[..i + 1][..i] == issues[..i];
      errors := errors[issues[i].path := issues[i].message];
      i := i + 1;
    }
    assert issues[..|issues|] == issues;
  }
}
