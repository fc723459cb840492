/** The rules for a new problem (`createProblemSchema`). */
module ProblemSchema {
  import opened JsString
  import opened ZodRules

  datatype TestCaseInput = TestCaseInput(input: string, output: string)

  datatype CreateProblemInput = CreateProblemInput(
    title: string,
    description: string,
    slug: string,
    difficulty: string,
    testCases: seq<TestCaseInput>)

  const Difficulties: set<string> := {"Easy", "Medium", "Hard"}

  /**
   * `createProblemSchema`. The enum's message is zod's own; the issue code
   * `invalid_enum_value` stands for it here.
   */
  function CreateProblemIssues(x: CreateProblemInput): seq<Issue>
  {
    Rule("title", JsLength(x.title) >= 3, "Title too short") +
    Rule("description", JsLength(x.description) >= 10, "Description too short") +
    Rule("slug", JsLength(x.slug) >= 3, "Slug must be unique and at least 3 chars") +
    Rule("difficulty", x.difficulty in Difficulties, "invalid_enum_value") +
    Rule("testCases", |x.testCases| >= 1, "At least one test case is required")
  }

  /**
   * A problem is accepted exactly when its title, description and slug are long
   * enough, its difficulty is one of the three names and it has a test case; the
   * test cases' own strings are unconstrained, so empty input and output pass.
   */
  lemma CreateProblemRule(x: CreateProblemInput)
    ensures CreateProblemIssues(x) == [] <==>
            JsLength(x.title) >= 3 && JsLength(x.description) >= 10 && JsLength(x.slug) >= 3 &&
            (x.difficulty == "Easy" || x.difficulty == "Medium" || x.difficulty == "Hard") &&
            x.testCases != []
  {
  }

  /**
   * When every other field passes, the test-case rule is the only one left to
   * fail, and any non-empty list passes whatever its strings, empty ones included.
   */
  lemma OnlyTestCaseIssue(x: CreateProblemInput)
    requires JsLength(x.title) >= 3 && JsLength(x.description) >= 10 && JsLength(x.slug) >= 3
    requires x.difficulty in Difficulties
    ensures CreateProblemIssues(x) ==
            if x.testCases == [] then [Issue("testCases", "At least one test case is required")] else []
  {
  }
}
