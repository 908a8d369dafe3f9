/** The signup and login acceptance rules (backend/src/utils/validation.ts).

    zod checks every rule of a string field and reports one issue per failed
    rule, so each field yields an ordered list of messages. The address syntax
    check of `.email()` is internal to zod and enters as the predicate
    `validEmail`. */
module Validation {
  import opened Chars

  const NameTooShort := "Name must be at least 2 characters"
  const NameTooLong := "Name must be less than 50 characters"
  const InvalidEmail := "Invalid email address"
  const PasswordTooShort := "Password must be at least 8 characters"
  const PasswordTooWeak :=
    "Password must contain at least one lowercase letter, one uppercase letter, and one number"
  const PasswordRequired := "Password is required"

  /** One element of a zod issue path: an object key or an array index. */
  datatype PathSegment = Key(key: string) | Index(index: nat)

  /** A zod issue: where in the input it arose and what it says. */
  datatype Issue = Issue(path: seq<PathSegment>, message: string)

  datatype SignupInput = SignupInput(name: string, email: string, password: string)

  datatype LoginInput = LoginInput(email: string, password: string)

  /** `(?=.*cls)` at the start of `s`: a character of the class follows a run of
      characters that `.` matches. */
  predicate LookaheadFinds(s: string, cls: char -> bool)
  {
    exists j :: 0 <= j < |s| && cls(s[j]) && forall i :: 0 <= i < j ==> !IsLineTerminator(s[i])
  }

  /** `/^(?=.*[a-z])(?=.*[A-Z])(?=.*\d)/.test(p)` */
  predicate PasswordPatternMatches(p: string)
  {
    LookaheadFinds(p, IsLower) && LookaheadFinds(p, IsUpper) && LookaheadFinds(p, IsDigit)
  }

  /** The strength rule in plain terms: at least eight characters, and a lowercase
      letter, an uppercase letter and a digit before the first line break. */
  predicate StrongPassword(p: string)
  {
    && |p| >= 8
    && Contains(FirstLine(p), IsLower)
    && Contains(FirstLine(p), IsUpper)
    && Contains(FirstLine(p), IsDigit)
  }

  predicate SignupAccepts(input: SignupInput, validEmail: string -> bool)
    ensures SignupAccepts(input, validEmail) ==> LoginAccepts(LoginInput(input.email, input.password), validEmail)
  {
    2 <= |input.name| <= 50 && validEmail(input.email) && StrongPassword(input.password)
  }

  predicate LoginAccepts(input: LoginInput, validEmail: string -> bool)
  {
    validEmail(input.email) && input.password != ""
  }

  /** A lookahead over `.*` finds a class that excludes line terminators exactly
      when the first line contains it. */
  lemma {:induction false} LookaheadFindsFirstLine(s: string, cls: char -> bool)
    requires forall c :: cls(c) ==> !IsLineTerminator(c)
    ensures LookaheadFinds(s, cls) <==> Contains(FirstLine(s), cls)
  {
    var r := FirstLine(s);
    if LookaheadFinds(s, cls) {
      var j :| 0 <= j < |s| && cls(s[j]) && forall i :: 0 <= i < j ==> !IsLineTerminator(s[i]);
      if j >= |r| {
        assert false;
      }
      assert r[j] == s[j];
    }
    if Contains(r, cls) {
      var j :| 0 <= j < |r| && cls(r[j]);
      assert s[j] == r[j];
      assert forall i :: 0 <= i < j ==> s[i] == r[i];
    }
  }

  lemma PasswordPatternIsFirstLineRule(p: string)
    ensures PasswordPatternMatches(p) <==>
      Contains(FirstLine(p), IsLower) && Contains(FirstLine(p), IsUpper) && Contains(FirstLine(p), IsDigit)
  {
    LookaheadFindsFirstLine(p, IsLower);
    LookaheadFindsFirstLine(p, IsUpper);
    LookaheadFindsFirstLine(p, IsDigit);
  }

  /** `z.string().min(2, ...).max(50, ...)` */
  function NameMessages(name: string): (r: seq<string>)
    ensures r == [] <==> 2 <= |name| <= 50
    ensures |name| < 2 ==> r == [NameTooShort]
    ensures |name| > 50 ==> r == [NameTooLong]
  {
    (if |name| < 2 then [NameTooShort] else []) + (if |name| > 50 then [NameTooLong] else [])
  }

  /** `z.string().email('Invalid email address')`, shared by both schemas. */
  function EmailMessages(email: string, validEmail: string -> bool): (r: seq<string>)
    ensures r == [] <==> validEmail(email)
    ensures r != [] ==> r == [InvalidEmail]
  {
    if validEmail(email) then [] else [InvalidEmail]
  }

  /** `z.string().min(8, ...).regex(/^(?=.*[a-z])(?=.*[A-Z])(?=.*\d)/, ...)` */
  function SignupPasswordMessages(p: string): (r: seq<string>)
    ensures r == [] <==> StrongPassword(p)
    ensures |p| < 8 && PasswordPatternMatches(p) ==> r == [PasswordTooShort]
    ensures |p| >= 8 && !PasswordPatternMatches(p) ==> r == [PasswordTooWeak]
    ensures |p| < 8 && !PasswordPatternMatches(p) ==> r == [PasswordTooShort, PasswordTooWeak]
  {
    PasswordPatternIsFirstLineRule(p);
    (if |p| < 8 then [PasswordTooShort] else [])
      + (if PasswordPatternMatches(p) then [] else [PasswordTooWeak])
  }

  /** `z.string().min(1, 'Password is required')`: no strength rule at login. */
  function LoginPasswordMessages(p: string): (r: seq<string>)
    ensures r == [] <==> p != ""
    ensures p == "" ==> r == [PasswordRequired]
  {
    if |p| < 1 then [PasswordRequired] else []
  }

  /** The messages of the issues at exactly `path`, in issue order. */
  function MessagesAt(issues: seq<Issue>, path: seq<PathSegment>): seq<string>
  {
    if issues == [] then []
    else (if issues[0].path == path then [issues[0].message] else []) + MessagesAt(issues[1..], path)
  }

  lemma {:induction false} MessagesAtAppend(a: seq<Issue>, b: seq<Issue>, path: seq<PathSegment>)
    ensures MessagesAt(a + b, path) == MessagesAt(a, path) + MessagesAt(b, path)
  {
    if a != [] {
      assert (a + b)[1..] == a[1..] + b;
      MessagesAtAppend(a[1..], b, path);
    } else {
      assert a + b == b;
    }
  }

  /** Issues that all sit at `[field]`, carrying `messages` in order: that path
      holds exactly those messages and every other path none. */
  lemma {:induction false} MessagesAtOneField(issues: seq<Issue>, field: string, messages: seq<string>)
    requires |issues| == |messages|
    requires forall i :: 0 <= i < |issues| ==> issues[i] == Issue([Key(field)], messages[i])
    ensures forall path :: MessagesAt(issues, path) == if path == [Key(field)] then messages else []
  {
    if issues != [] {
      MessagesAtOneField(issues[1..], field, messages[1..]);
      assert messages == [messages[0]] + messages[1..];
    }
  }

  /** The issues zod reports for one field: one per message, in order. The path
      `[field]` holds exactly these messages and no other path holds any. */
  function FieldIssues(field: string, messages: seq<string>): (r: seq<Issue>)
    ensures forall path :: MessagesAt(r, path) == if path == [Key(field)] then messages else []
  {
    var r := seq(|messages|, i requires 0 <= i < |messages| => Issue([Key(field)], messages[i]));
    MessagesAtOneField(r, field, messages);
    r
  }

  /** Issues of two different fields, one after the other: each field's path
      holds exactly that field's messages. */
  lemma MessagesAtTwoFields(f1: string, m1: seq<string>, f2: string, m2: seq<string>)
    requires f1 != f2
    ensures MessagesAt(FieldIssues(f1, m1) + FieldIssues(f2, m2), [Key(f1)]) == m1
    ensures MessagesAt(FieldIssues(f1, m1) + FieldIssues(f2, m2), [Key(f2)]) == m2
  {
    var a, b := FieldIssues(f1, m1), FieldIssues(f2, m2);
    MessagesAtAppend(a, b, [Key(f1)]);
    MessagesAtAppend(a, b, [Key(f2)]);
  }

  lemma MessagesAtThreeFields(f1: string, m1: seq<string>, f2: string, m2: seq<string>,
                              f3: string, m3: seq<string>)
    requires f1 != f2 && f1 != f3 && f2 != f3
    ensures MessagesAt(FieldIssues(f1, m1) + FieldIssues(f2, m2) + FieldIssues(f3, m3), [Key(f1)]) == m1
    ensures MessagesAt(FieldIssues(f1, m1) + FieldIssues(f2, m2) + FieldIssues(f3, m3), [Key(f2)]) == m2
    ensures MessagesAt(FieldIssues(f1, m1) + FieldIssues(f2, m2) + FieldIssues(f3, m3), [Key(f3)]) == m3
  {
    var a, b, c := FieldIssues(f1, m1), FieldIssues(f2, m2), FieldIssues(f3, m3);
    assert MessagesAt(a + b + c, [Key(f1)]) == m1 by {
      MessagesAtAppend(a + b, c, [Key(f1)]);
      MessagesAtTwoFields(f1, m1, f2, m2);
    }
    assert MessagesAt(a + b + c, [Key(f2)]) == m2 by {
      MessagesAtAppend(a + b, c, [Key(f2)]);
      MessagesAtTwoFields(f1, m1, f2, m2);
    }
    assert MessagesAt(a + b + c, [Key(f3)]) == m3 by {
      MessagesAtAppend(a + b, c, [Key(f3)]);
      MessagesAtAppend(a, b, [Key(f3)]);
    }
  }

  /** `signupSchema.safeParse(body).error.errors`: the fields in declaration order. */
  function SignupIssues(input: SignupInput, validEmail: string -> bool): (r: seq<Issue>)
    ensures r == [] <==> SignupAccepts(input, validEmail)
    ensures forall i :: 0 <= i < |r| ==>
      r[i].path == [Key("name")] || r[i].path == [Key("email")] || r[i].path == [Key("password")]
    ensures MessagesAt(r, [Key("name")]) == NameMessages(input.name)
    ensures MessagesAt(r, [Key("email")]) == EmailMessages(input.email, validEmail)
    ensures MessagesAt(r, [Key("password")]) == SignupPasswordMessages(input.password)
  {
    MessagesAtThreeFields("name", NameMessages(input.name),
                          "email", EmailMessages(input.email, validEmail),
                          "password", SignupPasswordMessages(input.password));
    FieldIssues("name", NameMessages(input.name))
      + FieldIssues("email", EmailMessages(input.email, validEmail))
      + FieldIssues("password", SignupPasswordMessages(input.password))
  }

  /** `loginSchema.safeParse(body).error.errors` */
  function LoginIssues(input: LoginInput, validEmail: string -> bool): (r: seq<Issue>)
    ensures r == [] <==> LoginAccepts(input, validEmail)
    ensures forall i :: 0 <= i < |r| ==> r[i].path == [Key("email")] || r[i].path == [Key("password")]
    ensures MessagesAt(r, [Key("email")]) == EmailMessages(input.email, validEmail)
    ensures MessagesAt(r, [Key("password")]) == LoginPasswordMessages(input.password)
  {
    MessagesAtTwoFields("email", EmailMessages(input.email, validEmail),
                        "password", LoginPasswordMessages(input.password));
    FieldIssues("email", EmailMessages(input.email, validEmail))
      + FieldIssues("password", LoginPasswordMessages(input.password))
  }

  /** Every password the signup rule accepts is accepted at login. */
  lemma SignupPasswordPassesLogin(p: string)
    requires SignupPasswordMessages(p) == []
    ensures LoginPasswordMessages(p) == []
  {
  }

  /** Credentials accepted at signup are accepted at login. */
  lemma SignupInputPassesLogin(input: SignupInput, validEmail: string -> bool)
    requires SignupIssues(input, validEmail) == []
    ensures LoginIssues(LoginInput(input.email, input.password), validEmail) == []
  {
  }

  /** An issue occurs in a list exactly when its message is among the messages
      collected at its path. */
  lemma {:induction false} IssueInMessagesAt(issues: seq<Issue>, path: seq<PathSegment>, message: string)
    ensures Issue(path, message) in issues <==> message in MessagesAt(issues, path)
  {
    if issues != [] {
      IssueInMessagesAt(issues[1..], path, message);
      assert issues == [issues[0]] + issues[1..];
    }
  }

  /** Both schemas report the same email issue, exactly when the address is rejected. */
  lemma SameEmailRule(s: SignupInput, l: LoginInput, validEmail: string -> bool)
    requires s.email == l.email
    ensures Issue([Key("email")], InvalidEmail) in SignupIssues(s, validEmail) <==> !validEmail(s.email)
    ensures Issue([Key("email")], InvalidEmail) in LoginIssues(l, validEmail) <==> !validEmail(l.email)
  {
    IssueInMessagesAt(SignupIssues(s, validEmail), [Key("email")], InvalidEmail);
    IssueInMessagesAt(LoginIssues(l, validEmail), [Key("email")], InvalidEmail);
  }

  /** `{name: "A", email: "bad", password: "short"}` with "bad" rejected as an
      address: each of the three fields reports its own messages. */
  lemma ShortNameBadEmailShortPassword(validEmail: string -> bool)
    requires !validEmail("bad")
    ensures var r := SignupIssues(SignupInput("A", "bad", "short"), validEmail);
      && MessagesAt(r, [Key("name")]) == [NameTooShort]
      && MessagesAt(r, [Key("email")]) == [InvalidEmail]
      && MessagesAt(r, [Key("password")]) == [PasswordTooShort, PasswordTooWeak]
  {
    var p := "short";
    assert !LookaheadFinds(p, IsUpper) by {
      forall j | 0 <= j < |p| ensures !IsUpper(p[j]) { }
    }
    assert SignupPasswordMessages(p) == [PasswordTooShort, PasswordTooWeak];
    assert NameMessages("A") == [NameTooShort];
    assert EmailMessages("bad", validEmail) == [InvalidEmail];
  }

  /** A password failing both the length and the character-class rule gets two
      distinct `password` issues. */
  lemma WeakShortPasswordTwoIssues(input: SignupInput, validEmail: string -> bool)
    requires |input.password| < 8 && !PasswordPatternMatches(input.password)
    ensures Issue([Key("password")], PasswordTooShort) in SignupIssues(input, validEmail)
    ensures Issue([Key("password")], PasswordTooWeak) in SignupIssues(input, validEmail)
  {
    var r := SignupIssues(input, validEmail);
    IssueInMessagesAt(r, [Key("password")], PasswordTooShort);
    IssueInMessagesAt(r, [Key("password")], PasswordTooWeak);
  }
}
