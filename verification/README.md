# Auth backend credential rules, error handling and signup form strength meter

A Dafny model of the credential-checking and response-classification layer of
the auth-system backend, plus the password-strength meter of its signup form:

- **Validation** (`backend/src/utils/validation.ts`): the zod `signupSchema` and
  `loginSchema` as acceptance predicates and as functions listing each field's
  failed-rule messages, in the order zod reports them. The password pattern
  `/^(?=.*[a-z])(?=.*[A-Z])(?=.*\d)/` is modelled literally (a lookahead over `.`,
  which stops at a line terminator) and proved equal to "the first line holds a
  lowercase letter, an uppercase letter and an ASCII digit".
- **ErrorHandler** (`backend/src/middleware/errorHandler.ts`): the loop that groups
  zod issues by dot-joined path (corrected; see ## Findings), proved to give exactly one key per path, that
  path's messages in issue order, and as many messages as issues; and the
  400 / 409 / 500 decision chain with its production flag.
- **AuthRoutes** (`backend/src/routes/auth.ts`): the `/signup`, `/login` and `/me`
  handlers. `AuthRouter` holds the user store as a map from email to account
  and its next id; `Signup` updates it in place, `Login` only reads it.
  Hashing, password comparison, token signing, zod's email check and the text
  of a zod error are the functions of an `Env` value. A step that throws is
  named by a `Fault` argument; the handlers' catch blocks turn it into 400.
- **PasswordStrength** (`frontend/src/components/SignupForm.tsx`):
  `getPasswordStrength`, the strength-bar colour chain and the
  "passwords match" hint.
- **Wire** and **Chars**: the record and response shapes of
  `backend/src/types/index.ts`, and the JavaScript regular-expression character
  classes both sides use.

Three behaviours of the route handlers are easy to miss. The handlers pass the
email to the store unchanged (no lower-casing), and the model's store compares
exact strings. A store error thrown inside a route handler becomes a 400 with
the error's message, because the handler's own `catch` answers before the shared
error handler can classify it; and a validation failure inside a route is a 400
with the zod error's message, never the grouped `errors` map.

Signup has one step ordering worth knowing: the account is created before the
token is signed, so a throw while signing answers 400 yet leaves the new account
in the store (`AuthRouter.Signup` states this).

## Model

| member | source | states |
|---|---|---|
| `Wire.WithoutPassword` | backend/src/routes/auth.ts:96 | definition of the password-free user view, `Omit<User, 'password'>` |
| `Wire.WithoutPasswordForgetsOnlyHash` | backend/src/routes/auth.ts:96 | two records have the same view iff they differ at most in the password hash |
| `Chars.FirstLine` | backend/src/utils/validation.ts:7 | the result is the longest prefix free of line terminators: a prefix, terminator-free, and followed by a terminator when shorter than the input |
| `Validation.LookaheadFinds` | backend/src/utils/validation.ts:7 | definition of a lookahead `(?=.*cls)` anchored at the start: some character of the class occurs with no line terminator before it; characterised by `LookaheadFindsFirstLine` |
| `Validation.PasswordPatternMatches` | backend/src/utils/validation.ts:7 | definition of `/^(?=.*[a-z])(?=.*[A-Z])(?=.*\d)/` as the three lookaheads; characterised by `PasswordPatternIsFirstLineRule` |
| `Validation.SignupAccepts` | backend/src/utils/validation.ts:3-10 | `signupSchema` accepts iff the name length is in [2, 50], the email predicate accepts and the password is strong; whatever it accepts, `loginSchema` accepts with the same email and password |
| `Validation.LoginAccepts` | backend/src/utils/validation.ts:12-15 | definition of `loginSchema` acceptance: the email predicate accepts and the password is non-empty; related to the issues by `LoginIssues` |
| `Validation.LookaheadFindsFirstLine` | backend/src/utils/validation.ts:7 | `(?=.*cls)` at the start succeeds iff the first line contains a character of `cls`, for any class without line terminators |
| `Validation.PasswordPatternIsFirstLineRule` | backend/src/utils/validation.ts:7 | the password pattern matches iff the first line has a lowercase letter, an uppercase letter and a digit |
| `Validation.NameMessages` | backend/src/utils/validation.ts:4 | no message iff the length is in [2, 50], both bounds inclusive; shorter than 2 gives exactly ["Name must be at least 2 characters"], longer than 50 exactly ["Name must be less than 50 characters"] |
| `Validation.EmailMessages` | backend/src/utils/validation.ts:5 | no message iff the email predicate accepts; otherwise exactly "Invalid email address" |
| `Validation.SignupPasswordMessages` | backend/src/utils/validation.ts:6-9 | no message iff length >= 8 and lower, upper and digit occur before the first line break; only too short: exactly ["Password must be at least 8 characters"]; only failing the pattern: exactly the pattern message; both: the length message then the pattern message |
| `Validation.LoginPasswordMessages` | backend/src/utils/validation.ts:14 | no message iff the password is non-empty; the empty password gives exactly ["Password is required"]; no strength rule |
| `Validation.FieldIssues` | backend/src/utils/validation.ts:3-10 | the issues of one field: the path `[field]` holds exactly that field's messages, in order, and every other path holds none |
| `Validation.MessagesAtOneField` | backend/src/utils/validation.ts:3-10 | issues that all sit at `[field]` carrying given messages in order leave exactly those messages at `[field]` and none elsewhere |
| `Validation.MessagesAtTwoFields` | backend/src/utils/validation.ts:12-15 | in the issues of two distinct fields, the messages at `[f]` are exactly that field's messages, in order |
| `Validation.MessagesAtThreeFields` | backend/src/utils/validation.ts:3-10 | the same for the issues of three distinct fields |
| `Validation.SignupIssues` | backend/src/utils/validation.ts:3-10 | no issue iff `SignupAccepts`; every issue's path is `[name]`, `[email]` or `[password]`; the messages at path `[f]`, in order, are exactly field f's messages from `NameMessages`, `EmailMessages` and `SignupPasswordMessages` |
| `Validation.LoginIssues` | backend/src/utils/validation.ts:12-15 | no issue iff `LoginAccepts`; every issue's path is `[email]` or `[password]`; the messages at each path, in order, are exactly that field's messages from `EmailMessages` and `LoginPasswordMessages` |
| `Validation.SignupPasswordPassesLogin` | backend/src/utils/validation.ts:6-14 | every password the signup rule accepts passes the login rule |
| `Validation.SignupInputPassesLogin` | backend/src/utils/validation.ts:3-15 | credentials that pass signup validation pass login validation |
| `Validation.SameEmailRule` | backend/src/utils/validation.ts:5-13 | both schemas report the issue `email: Invalid email address` exactly when the email predicate rejects |
| `Validation.WeakShortPasswordTwoIssues` | backend/src/utils/validation.ts:6-9 | a password both shorter than 8 and failing the pattern yields both password messages as issues |
| `Validation.ShortNameBadEmailShortPassword` | backend/src/utils/validation.ts:3-10 | name "A", a rejected email and password "short" give one message at `name`, one at `email` and both password messages, length first, at `password` |
| `ErrorHandler.DecimalString` | backend/src/middleware/errorHandler.ts:16 | an array index renders as decimal digits only, at least one, with no leading zero except for 0 |
| `ErrorHandler.DecimalStringValue` | backend/src/middleware/errorHandler.ts:16 | reading those digits back gives the index: the rendering is exact |
| `ErrorHandler.Join` | backend/src/middleware/errorHandler.ts:16 | `path.join('.')`: empty for the empty path; otherwise as long as the segment texts plus one dot between each pair, starting with the first segment's text, followed by a dot when there is a second segment |
| `ErrorHandler.TotalMessagesRemove` | backend/src/middleware/errorHandler.ts:14-21 | the message total of a grouping is the same whichever key is counted first |
| `ErrorHandler.TotalMessagesPush` | backend/src/middleware/errorHandler.ts:17-20 | creating-if-absent then pushing one message raises the total by exactly one |
| `ErrorHandler.MessagesForAbsent` | backend/src/middleware/errorHandler.ts:17-19 | a path no issue has collects no message |
| `ErrorHandler.GroupStep` | backend/src/middleware/errorHandler.ts:15-21 | one loop step turns the grouping of a prefix into the grouping of the prefix one issue longer |
| `ErrorHandler.GroupIssues` | backend/src/middleware/errorHandler.ts:14-21 | the keys are exactly the dot-joined issue paths; each key holds exactly its issues' messages in issue order; the messages total the number of issues |
| `ErrorHandler.NoInheritedFieldExtend` | backend/src/middleware/errorHandler.ts:15-17 | if no path so far is an inherited name and the next one is not either, the longer prefix has none |
| `ErrorHandler.GroupIssuesAsWritten` | backend/src/middleware/errorHandler.ts:14-21 | with `errors` a `{}` literal, the loop throws iff some path is an inherited `Object.prototype` name, and otherwise groups like `GroupIssues` |
| `ErrorHandler.InheritedNameExample` | backend/src/middleware/errorHandler.ts:17-20 | one issue at path `["constructor"]`: the code as written throws; the corrected loop gives `{constructor: ["Required"]}` |
| `ErrorHandler.IsUniqueViolation` | backend/src/middleware/errorHandler.ts:32-33 | definition of the 409 test: error name `PrismaClientKnownRequestError` and code `P2002`, both required |
| `ErrorHandler.ClassifyThrown` | backend/src/middleware/errorHandler.ts:31-48 | 409 "Email already exists" iff the error is a known store error with code P2002, else 500 with "Internal server error" in production and the error's own message otherwise; never success, never an errors map |
| `ErrorHandler.HandleError` | backend/src/middleware/errorHandler.ts:4-49 | every response has `success = false`; a zod error gives 400 "Validation failed" with the grouping of its issues by the corrected loop `GroupIssues` (see ## Findings); any other error is classified as `ClassifyThrown` states |
| `AuthRoutes.Me` | backend/src/routes/auth.ts:114-125 | no attached user gives 401 "User not found"; otherwise 200 with exactly the attached user and nothing else |
| `AuthRoutes.CaughtMessage` | backend/src/routes/auth.ts:55-60 | a caught throw's message is the error's own message when it has one, else the route's fallback ("Signup failed", or "Login failed" at lines 103-108) |
| `AuthRoutes.AuthRouter.Signup` | backend/src/routes/auth.ts:11-61 | invalid input: 400 with the zod message, store unchanged; known email: 409 "Email already exists", store unchanged; the store changes iff create is reached, and then by exactly one new entry; 201 with token and password-free user iff nothing throws; a throw gives 400 with its message and leaves the store unchanged unless it comes from token signing |
| `AuthRoutes.AuthRouter.Login` | backend/src/routes/auth.ts:64-109 | reads the store only; unknown email and wrong password both give the same 401 "Invalid credentials"; 200 iff the password compares and nothing throws, and then the user is the stored record without password, whose email is the one given, and the token signs the full stored record (hash included) at the login time; invalid input or a throw gives 400 |
| `AuthRoutes.SignupThenLogin` | backend/src/routes/auth.ts:11-109 | if comparing a password with its own hash succeeds, a fresh valid signup followed by login with the same credentials gives 201 then 200, both with the same stored user without password; the signup token signs the selected fields at the signup time, the login token the full record at the login time; one account is added |
| `AuthRoutes.SignupTwice` | backend/src/routes/auth.ts:15-26 | a second signup with the same email gets 409, and the store is the old store plus exactly the first signup's account: the next id, the first name and email, the hash of the first password, and the signup time |
| `PasswordStrength.CriteriaMet` | frontend/src/components/SignupForm.tsx:33-38 | the number of met criteria is at most 5 |
| `PasswordStrength.NonEmptyMeetsACriterion` | frontend/src/components/SignupForm.tsx:34-38 | every non-empty password meets at least one criterion |
| `PasswordStrength.GetPasswordStrength` | frontend/src/components/SignupForm.tsx:30-48 | empty password: score 0, empty label and colour; otherwise the score is the number of met criteria, in 1..5 (the cap changes nothing), and label and colour are at index score-1, always within the arrays |
| `PasswordStrength.AppendNeverLowersScore` | frontend/src/components/SignupForm.tsx:34-38 | appending a character never lowers the score |
| `PasswordStrength.BackendValidScoresGood` | frontend/src/components/SignupForm.tsx:34-40 | a password the backend signup rule accepts scores at least 4: label "Good" or "Strong", bar green |
| `PasswordStrength.ShownBarNeverRed` | frontend/src/components/SignupForm.tsx:148-157 | the bar, drawn only for a non-empty password, is never red |
| `PasswordStrength.BarColour` | frontend/src/components/SignupForm.tsx:154-157 | the bar colour for score s is entry min(s, 4) of the five hues in label order (entry 0 below 1), while label and text colour use entry s-1: the bar runs one level ahead |
| `PasswordStrength.MatchIndicator` | frontend/src/components/SignupForm.tsx:196-208 | no hint while the confirmation is empty; "Passwords match" iff the confirmation is non-empty and exactly equal to the password |

## Left out

- bcrypt hashing and comparison, and JWT signing (`../utils/auth`): not part of this model; they are the functions `hash`, `compare` and `sign` of `Env`. Hashing is a function of the password alone, so per-call salts are not modelled.
- Token contents: `sign` receives what `generateToken` receives (the selected fields at signup, the full stored record at login) and the issue time; what the token utility embeds and how it encodes it are not part of this model.
- ErrorHandler.HandleError: groups zod issues with the corrected loop; the handler as written throws a `TypeError` for an issue path equal to an inherited `Object.prototype` name (see ## Findings and `GroupIssuesAsWritten`).
- The token middleware `authenticateToken` (`../middleware/auth`) is not part of this model: `/me` takes the user it would have attached as an argument. The `/me` handler's catch branch (500 "Failed to get user data") is not modelled, because nothing inside its `try` can throw.
- Prisma persistence: a map from email to account inside `AuthRouter`. Ids count up from 1 and timestamps come from a `now` argument. The check-then-insert race between concurrent signups, and the store's P2002 uniqueness error that it would raise, are not modelled. A `CreateUser` fault stands for any throw from `create` and gives 400.
- Database collation: whether two emails collide is decided by the database, whose schema and datasource are not part of this model; a case-insensitive collation, under which addresses differing only in letter case would collide, is not modelled.
- zod's `.email()` syntax check and the text of a `ZodError`'s message are the opaque functions `validEmail` and `zodMessage`. Missing or non-string body fields, and zod's "Required" issues for them, are not modelled: inputs are strings.
- JavaScript string lengths count UTF-16 code units; the model counts characters, so a password or name with characters outside the Basic Multilingual Plane has a different length here.
- When the as-written grouping throws, Express's default error response is not modelled; `GroupIssuesAsWritten` only reports the throw.
- `console.error` logging and reading `NODE_ENV`: the production flag is an argument.
- React rendering, hooks, timers, the strength-bar width percentage, `LoginForm.tsx`, `Dashboard.tsx` (including `formatDate`), `App.tsx` and `frontend/src/services/api.ts`: presentation and HTTP plumbing with nothing to prove.
- Token expiry and signature checks, and the identity-resolving middleware, are not in the modelled files and are not part of this model.

## Findings

| source | as written | input that shows it | evidently intended | confidence | as-written member | corrected member |
|---|---|---|---|---|---|---|
| backend/src/middleware/errorHandler.ts:14-20 | `errors` is a `{}` literal, so `errors[field]` for a name inherited from `Object.prototype` is truthy; no array is created and `errors[field].push` throws a `TypeError` out of the handler | one zod issue whose path is `["constructor"]` (likewise `toString`, `__proto__`, ...) | group the message under its own key like any other path | high for the language semantics; not executed | `ErrorHandler.GroupIssuesAsWritten` | `ErrorHandler.GroupIssues` |
