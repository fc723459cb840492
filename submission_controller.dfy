/**
 * `submitCode`: the request is checked for a principal, a well-formed body,
 * a supported language and an existing problem, in that order; then a
 * `Pending` submission is created, the test cases are judged one by one until
 * the first failure, and the submission is updated once to the verdict.
 */
module SubmissionController {
  import opened Wrappers
  import opened JsString
  import opened Judging
  import opened Datastore

  /** A parsed JSON request body. Numbers are integers in this model. */
  datatype Json =
    | JNull
    | JBool(b: bool)
    | JNumber(n: int)
    | JString(s: string)
    | JArray(items: seq<Json>)
    | JObject(fields: map<string, Json>)

  /** The authenticated user a token check would attach to the request. */
  datatype Principal = Principal(id: int, role: string)

  /** The body `submissionSchema` accepts. */
  datatype SubmissionInput = SubmissionInput(problemId: int, language: string, code: string)

  /**
   * The issues `submissionSchema` can raise. Only `CodeEmpty` has a message of
   * the source's own ("Code cannot be empty"); the others carry zod's default
   * type-mismatch text, which this model does not reproduce.
   */
  datatype BodyIssue = NotAnObject | ProblemIdNotNumber | LanguageNotString | CodeNotString | CodeEmpty

  function FieldIssues(fields: map<string, Json>): seq<BodyIssue>
  {
    (if "problemId" in fields && fields["problemId"].JNumber? then [] else [ProblemIdNotNumber]) +
    (if "language" in fields && fields["language"].JString? then [] else [LanguageNotString]) +
    (if "code" !in fields || !fields["code"].JString? then [CodeNotString]
     else if JsLength(fields["code"].s) >= 1 then [] else [CodeEmpty])
  }

  /** All issues of `submissionSchema.safeParse`, in the order of the schema's fields. */
  function BodyIssues(body: Json): seq<BodyIssue>
  {
    if body.JObject? then FieldIssues(body.fields) else [NotAnObject]
  }

  /** The parse result; a failed parse is answered with its first issue. */
  function ParseBody(body: Json): Result<SubmissionInput, BodyIssue>
  {
    var issues := BodyIssues(body);
    if issues != [] then Failure(issues[0])
    else Success(SubmissionInput(body.fields["problemId"].n, body.fields["language"].s, body.fields["code"].s))
  }

  /**
   * A body parses exactly when it is an object with a number `problemId`, a
   * string `language` and a non-empty string `code`, and the parsed values are
   * those fields; the first issue follows the schema's field order.
   */
  lemma ParseBodyRule(body: Json)
    ensures ParseBody(body).Success? <==>
      body.JObject? &&
      "problemId" in body.fields && body.fields["problemId"].JNumber? &&
      "language" in body.fields && body.fields["language"].JString? &&
      "code" in body.fields && body.fields["code"].JString? && body.fields["code"].s != []
    ensures ParseBody(body).Success? ==>
      ParseBody(body).value ==
        SubmissionInput(body.fields["problemId"].n, body.fields["language"].s, body.fields["code"].s)
    ensures !body.JObject? ==> ParseBody(body) == Failure(NotAnObject)
    ensures body.JObject? && ("problemId" !in body.fields || !body.fields["problemId"].JNumber?) ==>
      ParseBody(body) == Failure(ProblemIdNotNumber)
  {
  }

  /** The executor's name and pinned version for one language. */
  datatype PistonConfig = PistonConfig(language: string, version: string)

  /** `LANGUAGE_MAP` */
  const LanguageMap: map<string, PistonConfig> := map[
    "cpp" := PistonConfig("c++", "10.2.0"),
    "python" := PistonConfig("python", "3.10.0"),
    "javascript" := PistonConfig("javascript", "18.15.0"),
    "java" := PistonConfig("java", "15.0.2")]

  const SupportedLanguages: set<string> := {"cpp", "python", "javascript", "java"}

  /**
   * The language lookup restricted to the map's own keys; `IndexLanguageMap`
   * below is the lookup as written, which also finds inherited member names.
   */
  function LanguageConfig(language: string): Option<PistonConfig>
  {
    if language in LanguageMap then Some(LanguageMap[language]) else None
  }

  /** The lookup succeeds on exactly the four languages, each with its fixed name and version. */
  lemma LanguageMapExact(language: string)
    ensures LanguageConfig(language).Some? <==> language in SupportedLanguages
    ensures LanguageConfig("cpp") == Some(PistonConfig("c++", "10.2.0"))
    ensures LanguageConfig("python") == Some(PistonConfig("python", "3.10.0"))
    ensures LanguageConfig("javascript") == Some(PistonConfig("javascript", "18.15.0"))
    ensures LanguageConfig("java") == Some(PistonConfig("java", "15.0.2"))
  {
  }

  /** The names every plain JavaScript object inherits from `Object.prototype`. */
  const ObjectPrototypeMembers: set<string> := {
    "constructor", "hasOwnProperty", "isPrototypeOf", "propertyIsEnumerable",
    "toLocaleString", "toString", "valueOf", "__proto__",
    "__defineGetter__", "__defineSetter__", "__lookupGetter__", "__lookupSetter__"}

  /** What a property lookup on the object literal finds. */
  datatype Property = Own(config: PistonConfig) | Inherited(name: string)

  /** `LANGUAGE_MAP[language]` as written: the object literal also yields its inherited members. */
  function IndexLanguageMap(language: string): Option<Property>
  {
    if language in LanguageMap then Some(Own(LanguageMap[language]))
    else if language in ObjectPrototypeMembers then Some(Inherited(language))
    else None
  }

  /** `if (!pistonConfig)` as written: every member found is truthy, so it passes. */
  predicate LanguageCheckPassesAsWritten(language: string)
  {
    IndexLanguageMap(language).Some?
  }

  /**
   * As written, an inherited member name such as "toString" gets past the
   * "Unsupported language" check although it is not a supported language;
   * the corrected lookup rejects it.
   */
  lemma InheritedNamePassesAsWritten()
    ensures LanguageCheckPassesAsWritten("toString")
    ensures "toString" !in SupportedLanguages
    ensures LanguageConfig("toString") == None
  {
    assert "toString" in ObjectPrototypeMembers;
    assert "toString" != "cpp" && "toString" != "python" && "toString" != "javascript" && "toString" != "java";
  }

  /** The as-written check differs from the corrected one on exactly the inherited names. */
  lemma AsWrittenDiffersOnInheritedNames(language: string)
    ensures LanguageCheckPassesAsWritten(language) <==>
            LanguageConfig(language).Some? || language in ObjectPrototypeMembers
  {
  }

  /** The replies `submitCode` sends. */
  datatype Reply =
    | Unauthorized               // "Unauthorized: Please login"
    | InvalidBody(issue: BodyIssue)
    | UnsupportedLanguage        // "Unsupported language"
    | ProblemNotFound            // "Problem not found"
    | Processed(submissionId: nat, status: Status)  // "Submission processed"

  function HttpStatus(r: Reply): int
  {
    match r
    case Unauthorized => 401
    case InvalidBody(_) => 400
    case UnsupportedLanguage => 400
    case ProblemNotFound => 404
    case Processed(_, _) => 200
  }

  /** What the checks established about a request that passed them all. */
  datatype Admitted = Admitted(userId: int, input: SubmissionInput, config: PistonConfig, problem: Problem)

  /** The checks of `submitCode`, in the order it makes them. */
  function Gate(principal: Option<Principal>, body: Json, problems: map<int, Problem>): Result<Admitted, Reply>
  {
    if principal.None? then Failure(Unauthorized)
    else
      var parsed := ParseBody(body);
      if parsed.Failure? then Failure(InvalidBody(parsed.error))
      else
        var config := LanguageConfig(parsed.value.language);
        if config.None? then Failure(UnsupportedLanguage)
        else if parsed.value.problemId !in problems then Failure(ProblemNotFound)
        else Success(Admitted(principal.value.id, parsed.value, config.value, problems[parsed.value.problemId]))
  }

  /**
   * Each check stops processing with its own status code, earlier checks
   * taking precedence: no principal is 401 whatever the body, then a bad body
   * is 400, then a language outside the four is 400, then an unknown problem
   * is 404. A request passing all four is admitted with the user's id, the
   * parsed body, the language's configuration and the stored problem.
   */
  lemma GatingOrder(principal: Option<Principal>, body: Json, problems: map<int, Problem>)
    ensures principal.None? ==> Gate(principal, body, problems) == Failure(Unauthorized)
    ensures principal.Some? && ParseBody(body).Failure? ==>
      Gate(principal, body, problems) == Failure(InvalidBody(ParseBody(body).error))
    ensures principal.Some? && ParseBody(body).Success? &&
            ParseBody(body).value.language !in SupportedLanguages ==>
      Gate(principal, body, problems) == Failure(UnsupportedLanguage)
    ensures principal.Some? && ParseBody(body).Success? &&
            ParseBody(body).value.language in SupportedLanguages &&
            ParseBody(body).value.problemId !in problems ==>
      Gate(principal, body, problems) == Failure(ProblemNotFound)
    ensures Gate(principal, body, problems).Failure? ==>
      HttpStatus(Gate(principal, body, problems).error) in {401, 400, 404}
    ensures Gate(principal, body, problems).Success? <==>
      principal.Some? && ParseBody(body).Success? &&
      ParseBody(body).value.language in SupportedLanguages &&
      ParseBody(body).value.problemId in problems
    ensures Gate(principal, body, problems).Success? ==>
      var a := Gate(principal, body, problems).value;
      a.userId == principal.value.id && a.input == ParseBody(body).value &&
      a.config == LanguageMap[a.input.language] && a.problem == problems[a.input.problemId]
  {
    if principal.Some? && ParseBody(body).Success? {
      LanguageMapExact(ParseBody(body).value.language);
    }
  }

  /**
   * The submission route mounts `submitCode` without the token check, so no
   * principal is ever attached: every request through that route is refused
   * with 401 before its body is looked at.
   */
  lemma RouteWithoutTokenCheckRefusesAll(body: Json, problems: map<int, Problem>)
    ensures Gate(None, body, problems) == Failure(Unauthorized)
    ensures HttpStatus(Gate(None, body, problems).error) == 401
  {
  }

  /** The executor request for one test case: language, version, the code as the one file, and the stdin. */
  datatype ExecRequest = ExecRequest(language: string, version: string, files: seq<string>, stdin: string)

  function RequestFor(config: PistonConfig, code: string, t: TestCase): ExecRequest
  {
    ExecRequest(config.language, config.version, [code], t.input)
  }

  /**
   * The judge loop of `submitCode`: one executor call per test case in stored
   * order, stopping at the first failure. The verdict and the calls made are
   * those of `Judge`.
   */
  method RunTestCases(tests: seq<TestCase>, config: PistonConfig, code: string, responses: seq<Outcome>)
    returns (finalStatus: Status, sent: seq<ExecRequest>)
    ensures finalStatus == Judge(tests, responses).status
    ensures |sent| == Judge(tests, responses).calls
    ensures forall k :: 0 <= k < |sent| ==> sent[k] == RequestFor(config, code, tests[k])
  {
    finalStatus := Accepted;
    sent := [];
    var i := 0;
    while i < |tests|
      invariant 0 <= i <= |tests|
      invariant finalStatus == Accepted
      invariant JudgeFrom(tests, responses, i) == Judge(tests, responses)
      invariant |sent| == i
      invariant forall k :: 0 <= k < i ==> sent[k] == RequestFor(config, code, tests[k])
    {
      var outcome := Response(responses, i);
      sent := sent + [RequestFor(config, code, tests[i])];
      if outcome.Fail? {
        finalStatus := RuntimeError;
        break;
      }
      if outcome.exitCode != Some(0) {
        finalStatus := RuntimeError;
        break;
      }
      if Trim(outcome.stdout) != Trim(tests[i].output) {
        finalStatus := WrongAnswer;
        break;
      }
      i := i + 1;
    }
  }

  /**
   * The part of `submitCode` after the checks: create the submission as
   * `Pending`, judge it, and write the verdict to it once.
   */
  method JudgeSubmission(a: Admitted, responses: seq<Outcome>, store: SubmissionStore)
    returns (reply: Reply, sent: seq<ExecRequest>)
    requires store.Valid()
    modifies store
    ensures store.Valid()
    ensures var run := Judge(a.problem.testCases, responses);
      var id := old(store.nextId);
      id !in old(store.rows) &&
      reply == Processed(id, run.status) &&
      store.rows == old(store.rows)[id := Submission(id, a.userId, a.input.problemId, a.input.language,
                                                     a.input.code, run.status)] &&
      store.writes == old(store.writes)[id := [Pending, run.status]] &&
      store.nextId == old(store.nextId) + 1 &&
      |sent| == run.calls &&
      forall k :: 0 <= k < run.calls ==> sent[k] == RequestFor(a.config, a.input.code, a.problem.testCases[k])
  {
    var submission := store.Create(a.userId, a.input.problemId, a.input.language, a.input.code);
    var finalStatus;
    finalStatus, sent := RunTestCases(a.problem.testCases, a.config, a.input.code, responses);
    ghost var created := store.rows;
    var updated := store.Update(submission.id, finalStatus);
    assert updated == submission.(status := finalStatus);
    assert store.rows == created[submission.id := updated] == old(store.rows)[submission.id := updated];
    assert [Pending] + [finalStatus] == [Pending, finalStatus];
    reply := Processed(updated.id, finalStatus);
  }

  /**
   * `submitCode`. The principal is an explicit input; `responses` are the
   * executor's answers in call order and `sent` the requests it received.
   * A refused request changes nothing and calls nothing. An admitted one adds
   * one submission, written `Pending` and then once with the verdict of
   * `Judge`, and calls the executor for the test cases up to and including
   * the first failing one, in stored order.
   */
  method SubmitCode(principal: Option<Principal>, body: Json, problems: map<int, Problem>,
                    responses: seq<Outcome>, store: SubmissionStore)
    returns (reply: Reply, sent: seq<ExecRequest>)
    requires store.Valid()
    modifies store
    ensures store.Valid()
    ensures Gate(principal, body, problems).Failure? ==>
      reply == Gate(principal, body, problems).error && sent == [] && unchanged(store)
    ensures Gate(principal, body, problems).Success? ==>
      var a := Gate(principal, body, problems).value;
      var run := Judge(a.problem.testCases, responses);
      var id := old(store.nextId);
      id !in old(store.rows) &&
      reply == Processed(id, run.status) &&
      store.rows == old(store.rows)[id := Submission(id, a.userId, a.input.problemId, a.input.language,
                                                     a.input.code, run.status)] &&
      store.writes == old(store.writes)[id := [Pending, run.status]] &&
      store.nextId == old(store.nextId) + 1 &&
      |sent| == run.calls &&
      forall k :: 0 <= k < run.calls ==> sent[k] == RequestFor(a.config, a.input.code, a.problem.testCases[k])
    ensures reply.Processed? ==>
      reply.submissionId in store.rows && store.rows[reply.submissionId].status == reply.status &&
      reply.status != Pending
  {
    sent := [];
    if principal.None? {
      reply := Unauthorized;
      return;
    }
    var userId := principal.value.id;
    var parsed := ParseBody(body);
    if parsed.Failure? {
      reply := InvalidBody(parsed.error);
      return;
    }
    var input := parsed.value;
    var config := LanguageConfig(input.language);
    if config.None? {
      reply := UnsupportedLanguage;
      return;
    }
    if input.problemId !in problems {
      reply := ProblemNotFound;
      return;
    }
    var problem := problems[input.problemId];
    reply, sent := JudgeSubmission(Admitted(userId, input, config.value, problem), responses, store);
  }
}
