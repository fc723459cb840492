# Submission judge and input validators of an online judge backend

This project models, in Dafny, the two pieces of logic in the backend of a
small online judge (an Express + Prisma + zod service that runs user code on
the Piston executor).

**The submission judge.** `submitCode` gates a request in a fixed order:
- it checks for an authenticated principal;
- it checks the body against `submissionSchema`;
- it looks the language up in `LANGUAGE_MAP`;
- it looks up the problem.

An admitted submission is stored as `Pending`. Its test cases then run one by
one in stored order, and the first failure decides the verdict and ends the
run. The row is then updated once to that verdict.

Here is how the pieces are modelled:
- **Executor.** It is replaced by the sequence of answers it gives, in call
  order. `Ok(stdout, exitCode)` has an exit code that may be null; `Fail`
  stands for a call that threw. The requests actually sent are returned, so
  the number and order of calls are observable.
- **Submission table.** It is a class whose methods update its rows in
  place. A ghost history of the statuses written to each row lets the model
  state "created `Pending`, then written exactly once with the verdict".
- **Judging rule.** It is a recursive specification function, `Judge`. The
  imperative loop with its three `break`s is proved equal to it. The
  properties of the verdict are proved about `Judge`: acceptance, first
  failure, short-circuit, and exit code before output.

**The validators.** The validators are `registerSchema`, `loginSchema`,
`adminRegisterSchema`, `adminLoginSchema` and `createProblemSchema`. Each is
modelled as the list of zod issues it reports, in zod's order: fields in
declaration order, then chained rules in order.
- String lengths are JavaScript lengths, counted in UTF-16 code units.
- Each regular expression is a single ASCII character class. `/[...]/` is
  modelled as a left-to-right search and `/^[...]+$/` as a greedy anchored
  run.
- Lemmas state exactly which inputs each schema accepts and how the user and
  admin rules relate.

Modules, one per file:
- `Wrappers`: `Option` and `Result`.
- `JsString`: JavaScript string length and `String.prototype.trim`, with the
  ECMAScript WhiteSpace and LineTerminator sets.
- `ZodRules`: issues and the character-class regular expressions.
- `AuthSchema`, `AdminSchema` and `ProblemSchema`: the validators.
- `Judging`: the verdict of a run.
- `Datastore`: problems and the submission table.
- `SubmissionController`: the request body, the language map, the gating and
  `submitCode`.

## Model

| member | source | states |
|---|---|---|
| `JsString.JsLength` | backend/src/validators/auth.schema.ts:6 | The length zod's `.min` compares is between the number of characters and twice that number; a character above U+FFFF counts twice. |
| `JsString.AsciiJsLength` | backend/src/validators/auth.schema.ts:6 | On ASCII text the JavaScript length is the number of characters. |
| `JsString.TrimStartSpec` | backend/src/controllers/submissionController.ts:179-181 | `trimStart` removes exactly the longest leading run of white space: the result is a suffix whose first character, if any, is not white space. |
| `JsString.TrimEndSpec` | backend/src/controllers/submissionController.ts:179-181 | `trimEnd` removes exactly the longest trailing run of white space. |
| `JsString.TrimSpec` | backend/src/controllers/submissionController.ts:179-181 | `trim` returns a slice of its input with all the removed characters white space, and neither end of the result white space. |
| `JsString.TrimStartOfPadded` | backend/src/controllers/submissionController.ts:179 | Leading white space added before a string is removed by `trimStart` together with the string's own. |
| `JsString.TrimEndOfPadded` | backend/src/controllers/submissionController.ts:179 | Trailing white space added after a string is removed by `trimEnd` together with the string's own. |
| `JsString.TrimStartOfEndPadded` | backend/src/controllers/submissionController.ts:179 | When a string is not all white space, `trimStart` of it followed by white space is its `trimStart` followed by that same white space. |
| `JsString.TrimIgnoresPadding` | backend/src/controllers/submissionController.ts:179-181 | Surrounding a string with any white space leaves its trimmed form unchanged. |
| `JsString.TrimIdempotent` | backend/src/controllers/submissionController.ts:179-181 | Trimming twice is trimming once. |
| `ZodRules.SearchFrom` | backend/src/validators/auth.schema.ts:19-30 | The unanchored class search finds the leftmost matching index at or after the start, or reports that none exists. |
| `ZodRules.RunEnd` | backend/src/validators/auth.schema.ts:7-10 | `[...]+` consumes a maximal run of class characters: all consumed characters are in the class, and the next one is not. |
| `ZodRules.TestIff` | backend/src/validators/auth.schema.ts:19-30 | `/[...]/.test(s)` holds exactly when some character of `s` is in the class. |
| `ZodRules.TestWholeIff` | backend/src/validators/auth.schema.ts:7-10 | `/^[...]+$/.test(s)` holds exactly when `s` is non-empty and every character is in the class. |
| `AuthSchema.WordCharsAreAscii` | backend/src/validators/auth.schema.ts:4-10 | A string of word characters has JavaScript length equal to its character count. |
| `AuthSchema.UsernameRule` | backend/src/validators/auth.schema.ts:4-10 | A registration username is accepted exactly when it has at least 3 characters, each an ASCII letter, digit or `_`. |
| `AuthSchema.PasswordRule` | backend/src/validators/auth.schema.ts:16-30 | A registration password is accepted exactly when it has length at least 6 and contains a letter, a digit and one of ``-!@#$%^&*(),.?":{}|<>``. |
| `AuthSchema.RegisterRule` | backend/src/validators/auth.schema.ts:3-31 | Registration is accepted exactly when username, email and password all pass. |
| `AuthSchema.LoginRule` | backend/src/validators/auth.schema.ts:35-38 | Login is accepted exactly when the email passes and the password is non-empty. |
| `AuthSchema.DashIsSpecial` | backend/src/validators/auth.schema.ts:27-30 | The leading `-` of the special class is literal: a password that meets the other rules and contains `-` is accepted. |
| `AuthSchema.MissingSpecialIsOneIssue` | backend/src/validators/auth.schema.ts:16-30 | A password meeting every rule but the special-character one gets exactly that rule's issue, with its message. |
| `AdminSchema.AdminRegisterRule` | backend/src/validators/admin.schema.ts:4-8 | Admin registration is accepted exactly when the username has length at least 2, the email passes and the password has length at least 6; there are no character-class rules. |
| `AdminSchema.UserRulesImplyAdminRules` | backend/src/validators/admin.schema.ts:5-7 | Whatever the user registration rules accept, the admin registration rules accept. |
| `AdminSchema.AdminRulesAreWeaker` | backend/src/validators/admin.schema.ts:5 | The converse fails: a two-character username passes the admin rules and is refused by the user rules. |
| `AdminSchema.LoginRulesAgree` | backend/src/validators/admin.schema.ts:11-14 | Admin login and user login accept the same inputs: a passing email and a non-empty password. |
| `ProblemSchema.CreateProblemRule` | backend/src/validators/problem.schema.ts:3-16 | A new problem is accepted exactly when title ≥ 3, description ≥ 10 and slug ≥ 3 in length, the difficulty is "Easy", "Medium" or "Hard", and there is a test case. |
| `ProblemSchema.OnlyTestCaseIssue` | backend/src/validators/problem.schema.ts:10-15 | With the other fields valid, an empty test-case list gives exactly the "At least one test case is required" issue; any non-empty list passes, empty strings included. |
| `Judging.JudgeFrom` | backend/src/controllers/submissionController.ts:141-203 | A run from case `i` makes between `i` and all calls and never ends `Pending`. |
| `Judging.StatusTextDistinct` | backend/src/controllers/submissionController.ts:131 | The texts written to the `status` column ("Pending", "Accepted", "Wrong Answer", "Runtime Error") are pairwise distinct, and only "Pending" is not a verdict. |
| `Judging.JudgeStatusText` | backend/src/controllers/submissionController.ts:141-199 | The text a run stores and returns is "Accepted", "Wrong Answer" or "Runtime Error", never "Pending". |
| `Judging.JudgeFromAccepted` | backend/src/controllers/submissionController.ts:141-203 | A run that ends `Accepted` called the executor for every remaining case, and every one passed. |
| `Judging.JudgeFromReaches` | backend/src/controllers/submissionController.ts:145-203 | Cases that pass are stepped over: the run continues as from the first case that does not pass. |
| `Judging.AcceptedIffAllPass` | backend/src/controllers/submissionController.ts:141-203 | The verdict is `Accepted` exactly when every case exits with 0 and prints the expected output up to trimming; every case is then run, and an empty list is accepted with no call. |
| `Judging.FirstFailureDecides` | backend/src/controllers/submissionController.ts:145-203 | The first failing case decides the verdict, and the executor is called for it and the cases before it only. |
| `Judging.ExitCodeIsRuntimeError` | backend/src/controllers/submissionController.ts:163-175 | A first failing case whose exit code is not 0 (null included) is `Runtime Error`, whatever its stdout. |
| `Judging.MismatchIsWrongAnswer` | backend/src/controllers/submissionController.ts:179-191 | A first failing case with exit code 0 and a trimmed-output mismatch is `Wrong Answer`. |
| `Judging.ExecutorFailureIsRuntimeError` | backend/src/controllers/submissionController.ts:193-201 | A failed executor call ends the run with `Runtime Error`. |
| `Judging.LaterResponsesIgnored` | backend/src/controllers/submissionController.ts:145-203 | Answers past the calls actually made are never consulted: executors that agree on those calls give the same run. |
| `Judging.PaddedOutputSameVerdict` | backend/src/controllers/submissionController.ts:179-185 | White space around a program's stdout never changes the run. |
| `Judging.JudgeSameCaseFailures` | backend/src/controllers/submissionController.ts:145-203 | Executors that classify every case alike give the same run. |
| `Datastore.SubmissionStore.constructor` | backend/src/controllers/submissionController.ts:119-135 | An empty submission table whose counter starts at 1. |
| `Datastore.SubmissionStore.Create` | backend/src/controllers/submissionController.ts:119-135 | Creating adds one fresh row with the next id and status `Pending`, records `Pending` as its only write, and keeps the table valid. |
| `Datastore.SubmissionStore.Update` | backend/src/controllers/submissionController.ts:209-215 | Updating replaces that row's status only, appends the status to its writes and returns the updated row. |
| `SubmissionController.ParseBodyRule` | backend/src/controllers/submissionController.ts:13-21 | A body parses exactly when it is an object with a number `problemId`, a string `language` and a non-empty string `code`, and then yields those fields; a non-object and a bad `problemId` are the first issues reported. |
| `SubmissionController.LanguageMapExact` | backend/src/controllers/submissionController.ts:25-35 | The language lookup succeeds on exactly cpp, python, javascript and java, with the pairs ("c++","10.2.0"), ("python","3.10.0"), ("javascript","18.15.0") and ("java","15.0.2"). |
| `SubmissionController.InheritedNamePassesAsWritten` | backend/src/controllers/submissionController.ts:81-89 | As written, "toString" passes the unsupported-language check although it is not a supported language; the corrected lookup refuses it. |
| `SubmissionController.AsWrittenDiffersOnInheritedNames` | backend/src/controllers/submissionController.ts:81-89 | The as-written check passes exactly the supported languages plus the names inherited from `Object.prototype`. |
| `SubmissionController.GatingOrder` | backend/src/controllers/submissionController.ts:49-111 | The checks run in order, each stopping the request: no principal 401, bad body 400, unsupported language 400, unknown problem 404. A request passing all four is admitted with the user's id, the parsed body, its language's configuration and the stored problem. |
| `SubmissionController.RouteWithoutTokenCheckRefusesAll` | backend/src/routes/submission.routes.ts:8 | Mounted without the token check, `submitCode` answers every request with 401. |
| `SubmissionController.RunTestCases` | backend/src/controllers/submissionController.ts:141-203 | The loop's verdict and its number of executor calls are those of `Judge`. Call `k` sends the language, version, code and stdin of test case `k`. |
| `SubmissionController.JudgeSubmission` | backend/src/controllers/submissionController.ts:115-227 | A new row with a fresh id is written `Pending` and then once with the verdict of `Judge`. Nothing else in the table changes. The reply carries that id and verdict. |
| `SubmissionController.SubmitCode` | backend/src/controllers/submissionController.ts:39-239 | A refused request gets the reply of the first failing check, with the language looked up among the map's own keys only, sends no executor call and leaves the table unchanged. An admitted one is judged as above. A processed reply's status is the stored one and is never `Pending`. |

## Left out

- HTTP and Express: replies are the `Reply` datatype with their status codes (`HttpStatus`). The JSON text of each reply and the `message` string are not modelled.
- The remote executor (axios and Piston): it is the `responses` parameter, answered in call order. A response without a `run`, or without a string `stdout`, makes the source throw inside the `try`. It is modelled as `Fail`, which gives the same `Runtime Error`. `stderr` and the console logging are not modelled.
- The 500 path: failures of `prisma.problem.findUnique`, `prisma.submission.create` or `prisma.submission.update`, and the outer `catch`, are not modelled. The store's operations always succeed.
- Prisma: problems are the `problems` map parameter, and a problem's test cases are in the order the database returns them. Columns other than those written here, such as `createdAt`, are not modelled. Neither are `getMySubmissions` and its ordering.
- JSON numbers are integers in this model. `z.number()` also accepts fractional numbers, and a fractional `problemId` is not modelled.
- zod's default messages for type mismatches and for the difficulty enum are represented by issue kinds (`BodyIssue`, "invalid_enum_value"). Their text is not reproduced.
- `.email()`: its grammar is internal to zod, so it is the parameter `isEmail`.
- Strings are sequences of Unicode scalar values, so a lone UTF-16 surrogate cannot occur. Lengths count a character above U+FFFF as two code units, as JavaScript does.
- SubmissionController.SubmitCode: uses the corrected language lookup (`LanguageConfig`, the map's own keys). On the 12 names inherited from `Object.prototype` it refuses with 400 "Unsupported language". The source instead stores a `Pending` row and calls the executor with an undefined language and version (see Findings). That as-written path is modelled only up to the language check (`IndexLanguageMap`, `LanguageCheckPassesAsWritten`).
- SubmissionController.ParseBodyRule: states the first issue only for a non-object body and for a bad `problemId`. The precedence among `language` and `code` follows from `BodyIssues` but is not stated as a lemma.
- Concurrency: submissions are judged one at a time. Two requests interleaving their store writes are not modelled.
- The rest of the backend: authentication (JWT, bcrypt, OAuth) and the other controllers, including the executor pass-through, whose language map is the same as this one. Seed scripts, metrics and the frontend are left out too.

## Findings

| source | as written | input that shows it | evidently intended | confidence | as-written member | corrected member |
|---|---|---|---|---|---|---|
| backend/src/controllers/submissionController.ts:81-83 | `LANGUAGE_MAP[language]` indexes a plain object literal, and `!pistonConfig` only rejects a falsy result, so names inherited from `Object.prototype` pass the check. | An authenticated request (a principal attached by a token check) with body `{problemId: <existing>, language: "toString", code: "x"}`; `"constructor"` or `"__proto__"` act alike. It gets past the "Unsupported language" check, and a `Pending` row is stored for that language. For each test case the executor is then called with an undefined language and version, which ends `Runtime Error`. With zero test cases no call is made and the row ends `Accepted`. The submission route mounts `submitCode` without the token check (backend/src/routes/submission.routes.ts:8), so in this wiring every request is refused with 401 first and the path is unreachable. | Only the four own keys of the map are supported; any other language gets 400 "Unsupported language" and creates no row. | not executed | `SubmissionController.InheritedNamePassesAsWritten` | `SubmissionController.GatingOrder` |
