/** The Express error handler (backend/src/middleware/errorHandler.ts): validation
    issues are grouped by field, every other error is classified by a short
    decision chain. Logging is left out; `production` stands for
    `NODE_ENV === 'production'`. */
module ErrorHandler {
  import opened Wire
  import opened Validation

  const ValidationFailed := "Validation failed"
  const InternalServerError := "Internal server error"
  const KnownRequestError := "PrismaClientKnownRequestError"
  const UniqueViolation := "P2002"

  /** What reaches the handler: a `ZodError`, or any other `Error` with its
      `name`, optional store `code` and `message`. */
  datatype AppError =
    | ZodFailure(issues: seq<Issue>)
    | Thrown(name: string, code: Option<string>, message: string)

  function DigitChar(d: nat): char
    requires d < 10
  {
    ('0' as int + d) as char
  }

  /** The number a string of decimal digits denotes. */
  function DigitsValue(s: string): nat
    requires forall i :: 0 <= i < |s| ==> '0' <= s[i] <= '9'
  {
    if s == [] then 0 else 10 * DigitsValue(s[..|s| - 1]) + (s[|s| - 1] as int - '0' as int)
  }

  /** `String(n)` for a non-negative integer: decimal digits, no leading zero. */
  function DecimalString(n: nat): (r: string)
    ensures |r| >= 1 && (r[0] == '0' ==> n == 0)
    ensures forall i :: 0 <= i < |r| ==> '0' <= r[i] <= '9'
  {
    if n < 10 then [DigitChar(n)] else DecimalString(n / 10) + [DigitChar(n % 10)]
  }

  /** Reading the digits back gives the number. */
  lemma {:induction false} DecimalStringValue(n: nat)
    ensures DigitsValue(DecimalString(n)) == n
  {
    if n >= 10 {
      var r := DecimalString(n);
      assert r[..|r| - 1] == DecimalString(n / 10);
      DecimalStringValue(n / 10);
    }
  }

  function SegmentText(s: PathSegment): string
  {
    match s
    case Key(k) => k
    case Index(n) => DecimalString(n)
  }

  /** Total length of the segments' texts. */
  function TextLength(path: seq<PathSegment>): nat
  {
    if path == [] then 0 else |SegmentText(path[0])| + TextLength(path[1..])
  }

  /** `path.join('.')`: the segments' texts, first one leading, with one dot
      between each pair of neighbours. */
  function Join(path: seq<PathSegment>): (r: string)
    ensures path == [] ==> r == ""
    ensures path != [] ==> |r| == TextLength(path) + |path| - 1
    ensures path != [] ==> r[..|SegmentText(path[0])|] == SegmentText(path[0])
    ensures |path| >= 2 ==> r[|SegmentText(path[0])|] == '.'
  {
    if |path| == 0 then ""
    else if |path| == 1 then SegmentText(path[0])
    else SegmentText(path[0]) + "." + Join(path[1..])
  }

  function FieldOf(issue: Issue): string
  {
    Join(issue.path)
  }

  /** The dot-joined paths of the issues. */
  ghost function Fields(issues: seq<Issue>): set<string>
  {
    set i | 0 <= i < |issues| :: FieldOf(issues[i])
  }

  /** The messages of the issues at `field`, in issue order. */
  ghost function MessagesFor(issues: seq<Issue>, field: string): seq<string>
    decreases |issues|
  {
    if issues == [] then []
    else
      var last := issues[|issues| - 1];
      MessagesFor(issues[..|issues| - 1], field) + (if FieldOf(last) == field then [last.message] else [])
  }

  /** `errors` is the grouping of `issues`: one key per joined path, holding that
      path's messages in order. */
  ghost predicate GroupedBy(errors: map<string, seq<string>>, issues: seq<Issue>)
  {
    && errors.Keys == Fields(issues)
    && forall f :: f in errors ==> errors[f] == MessagesFor(issues, f)
  }

  /** The number of messages held by all the lists of `errors`. */
  ghost function TotalMessages(errors: map<string, seq<string>>): nat
    decreases errors.Keys
  {
    if errors == map[] then 0
    else
      var k :| k in errors;
      |errors[k]| + TotalMessages(errors - {k})
  }

  lemma {:induction false} MessagesForAbsent(issues: seq<Issue>, field: string)
    requires field !in Fields(issues)
    ensures MessagesFor(issues, field) == []
    decreases |issues|
  {
    if issues != [] {
      var init := issues[..|issues| - 1];
      assert Fields(init) <= Fields(issues) by {
        forall f | f in Fields(init) ensures f in Fields(issues) {
          var i :| 0 <= i < |init| && FieldOf(init[i]) == f;
          assert issues[i] == init[i];
        }
      }
      MessagesForAbsent(init, field);
      assert FieldOf(issues[|issues| - 1]) in Fields(issues);
    }
  }

  /** The total does not depend on which key is taken first. */
  lemma {:induction false} TotalMessagesRemove(errors: map<string, seq<string>>, k: string)
    requires k in errors
    ensures TotalMessages(errors) == |errors[k]| + TotalMessages(errors - {k})
    decreases errors.Keys
  {
    var j :| j in errors && TotalMessages(errors) == |errors[j]| + TotalMessages(errors - {j});
    if j != k {
      TotalMessagesRemove(errors - {j}, k);
      TotalMessagesRemove(errors - {k}, j);
      assert errors - {j} - {k} == errors - {k} - {j};
    }
  }

  /** Appending one message to one list raises the total by one. */
  lemma TotalMessagesPush(errors: map<string, seq<string>>, k: string, message: string)
    ensures TotalMessages(errors[k := (if k in errors then errors[k] else []) + [message]])
         == TotalMessages(errors) + 1
  {
    var pushed := errors[k := (if k in errors then errors[k] else []) + [message]];
    TotalMessagesRemove(pushed, k);
    assert pushed - {k} == errors - {k};
    if k in errors {
      TotalMessagesRemove(errors, k);
    } else {
      assert errors - {k} == errors;
    }
  }

  lemma FieldsExtend(issues: seq<Issue>, i: nat)
    requires i < |issues|
    ensures Fields(issues[..i + 1]) == Fields(issues[..i]) + {FieldOf(issues[i])}
  {
    var longer, shorter := issues[..i + 1], issues[..i];
    forall g | g in Fields(longer) ensures g in Fields(shorter) + {FieldOf(issues[i])} {
      var j :| 0 <= j < i + 1 && FieldOf(longer[j]) == g;
      if j < i { assert longer[j] == shorter[j]; }
    }
    forall g | g in Fields(shorter) ensures g in Fields(longer) {
      var j :| 0 <= j < i && FieldOf(shorter[j]) == g;
      assert longer[j] == shorter[j];
    }
    assert longer[i] == issues[i];
  }

  /** One step of the `forEach`: the prefix grows by the issue at `i`. */
  lemma GroupStep(issues: seq<Issue>, i: nat, errors: map<string, seq<string>>)
    requires i < |issues| && GroupedBy(errors, issues[..i])
    ensures var f := FieldOf(issues[i]);
      GroupedBy(errors[f := (if f in errors then errors[f] else []) + [issues[i].message]], issues[..i + 1])
  {
    var f := FieldOf(issues[i]);
    var next := errors[f := (if f in errors then errors[f] else []) + [issues[i].message]];
    assert issues[..i + 1][..i] == issues[..i];
    FieldsExtend(issues, i);
    if f !in errors {
      MessagesForAbsent(issues[..i], f);
    }
    forall g | g in next ensures next[g] == MessagesFor(issues[..i + 1], g) {
      assert MessagesFor(issues[..i + 1], g)
          == MessagesFor(issues[..i], g) + (if f == g then [issues[i].message] else []);
    }
  }

  /** The grouping loop of lines 14-21, with `errors` as an own-key dictionary. */
  method GroupIssues(issues: seq<Issue>) returns (errors: map<string, seq<string>>)
    ensures errors.Keys == Fields(issues)
    ensures forall f :: f in errors ==> errors[f] == MessagesFor(issues, f)
    ensures TotalMessages(errors) == |issues|
  {
    errors := map[];
    var i := 0;
    while i < |issues|
      invariant 0 <= i <= |issues|
      invariant GroupedBy(errors, issues[..i])
      invariant TotalMessages(errors) == i
    {
      var field := FieldOf(issues[i]);
      GroupStep(issues, i, errors);
      TotalMessagesPush(errors, field, issues[i].message);
      var list := if field in errors then errors[field] else [];
      errors := errors[field := list + [issues[i].message]];
      i := i + 1;
    }
    assert issues[..i] == issues;
  }

  /** The names a plain `{}` inherits from `Object.prototype`: looking one up
      yields a truthy non-array value. */
  const InheritedNames: set<string> := {
    "constructor", "__proto__", "__defineGetter__", "__defineSetter__",
    "__lookupGetter__", "__lookupSetter__", "hasOwnProperty", "isPrototypeOf",
    "propertyIsEnumerable", "toLocaleString", "toString", "valueOf"
  }

  datatype GroupOutcome = Completed(errors: map<string, seq<string>>) | Threw(field: string)

  /** No issue's joined path is an inherited name. */
  ghost predicate NoInheritedField(issues: seq<Issue>)
  {
    forall j :: 0 <= j < |issues| ==> FieldOf(issues[j]) !in InheritedNames
  }

  lemma NoInheritedFieldExtend(issues: seq<Issue>, i: nat)
    requires i < |issues| && NoInheritedField(issues[..i]) && FieldOf(issues[i]) !in InheritedNames
    ensures NoInheritedField(issues[..i + 1])
  {
    var longer := issues[..i + 1];
    forall j | 0 <= j < i + 1 ensures FieldOf(longer[j]) !in InheritedNames {
      if j < i { assert longer[j] == issues[..i][j]; }
    }
  }

  /** Lines 14-21 as written: `errors` is a `{}` literal, so for an inherited name
      `!errors[field]` is false, no array is created, and `.push` throws a
      `TypeError` out of the handler. */
  method GroupIssuesAsWritten(issues: seq<Issue>) returns (o: GroupOutcome)
    ensures o.Threw? <==> !NoInheritedField(issues)
    ensures o.Threw? ==> o.field in InheritedNames && exists i :: 0 <= i < |issues| && FieldOf(issues[i]) == o.field
    ensures o.Completed? ==> GroupedBy(o.errors, issues)
  {
    var errors: map<string, seq<string>> := map[];
    var i := 0;
    while i < |issues|
      invariant 0 <= i <= |issues|
      invariant GroupedBy(errors, issues[..i])
      invariant NoInheritedField(issues[..i])
    {
      var field := FieldOf(issues[i]);
      if field !in errors && field in InheritedNames {
        assert 0 <= i < |issues| && FieldOf(issues[i]) == field;
        return Threw(field);
      }
      GroupStep(issues, i, errors);
      NoInheritedFieldExtend(issues, i);
      var list := if field in errors then errors[field] else [];
      errors := errors[field := list + [issues[i].message]];
      i := i + 1;
    }
    assert issues[..i] == issues;
    o := Completed(errors);
  }

  /** A single issue at path `["constructor"]` crashes the handler as written and
      is grouped normally by the corrected loop. */
  method InheritedNameExample() returns (asWritten: GroupOutcome, corrected: map<string, seq<string>>)
    ensures asWritten == Threw("constructor")
    ensures corrected == map["constructor" := ["Required"]]
  {
    var issues := [Issue([Key("constructor")], "Required")];
    assert FieldOf(issues[0]) == "constructor";
    asWritten := GroupIssuesAsWritten(issues);
    corrected := GroupIssues(issues);
    assert Fields(issues) == {"constructor"};
    assert MessagesFor(issues, "constructor") == ["Required"] by {
      assert issues[..0] == [];
    }
  }

  predicate IsUniqueViolation(name: string, code: Option<string>)
  {
    name == KnownRequestError && code == Some(UniqueViolation)
  }

  /** Lines 31-48: every error that is not a `ZodError`. */
  function ClassifyThrown(name: string, code: Option<string>, message: string, production: bool): (r: Response)
    ensures !r.success && r.token.None? && r.user.None? && r.errors.None?
    ensures r.status == 409 || r.status == 500
    ensures r.status == 409 <==> IsUniqueViolation(name, code)
    ensures r.status == 409 ==> r.message == Some(EmailAlreadyExists)
    ensures r.status == 500 && production ==> r.message == Some(InternalServerError)
    ensures r.status == 500 && !production ==> r.message == Some(message)
  {
    if name == KnownRequestError && code == Some(UniqueViolation) then
      Failure(409, EmailAlreadyExists)
    else
      Failure(500, if production then InternalServerError else message)
  }

  /** The whole handler (lines 4-49), with the corrected grouping. */
  method HandleError(error: AppError, production: bool) returns (r: Response)
    ensures !r.success && r.token.None? && r.user.None?
    ensures error.ZodFailure? ==>
      && r.status == 400 && r.message == Some(ValidationFailed)
      && r.errors.Some? && GroupedBy(r.errors.value, error.issues)
      && TotalMessages(r.errors.value) == |error.issues|
    ensures error.Thrown? ==> r == ClassifyThrown(error.name, error.code, error.message, production)
  {
    match error
    case ZodFailure(issues) =>
      var errors := GroupIssues(issues);
      r := Response(400, false, Some(ValidationFailed), None, None, Some(errors));
    case Thrown(name, code, message) =>
      r := ClassifyThrown(name, code, message, production);
  }
}
