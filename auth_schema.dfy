/** The user registration and login rules (`registerSchema`, `loginSchema`). */
module AuthSchema {
  import opened JsString
  import opened ZodRules
  import opened Wrappers

  datatype RegisterInput = RegisterInput(username: string, email: string, password: string)
  datatype LoginInput = LoginInput(email: string, password: string)

  function UsernameIssues(username: string): seq<Issue>
  {
    Rule("username", JsLength(username) >= 3, "username must be at least 3 characters") +
    Rule("username", TestWhole(username, WordChars),
         "username can contain only letters, numbers, and underscore (_)")
  }

  function PasswordIssues(password: string): seq<Issue>
  {
    Rule("password", JsLength(password) >= 6, "password must be at least 6 characters") +
    Rule("password", Test(password, Letters), "password must contain at least one letter") +
    Rule("password", Test(password, Digits), "password must contain at least one number") +
    Rule("password", Test(password, Specials),
         "password must contain at least one special character (including -)")
  }

  /** `registerSchema`; `isEmail` stands for zod's `.email()` grammar. */
  function RegisterIssues(x: RegisterInput, isEmail: string -> bool): seq<Issue>
  {
    UsernameIssues(x.username) +
    Rule("email", isEmail(x.email), "invalid email") +
    PasswordIssues(x.password)
  }

  /** `loginSchema` */
  function LoginIssues(x: LoginInput, isEmail: string -> bool): seq<Issue>
  {
    Rule("email", isEmail(x.email), "invalid email") +
    Rule("password", JsLength(x.password) >= 1, "password required")
  }

  /** A registration username: at least three characters, each an ASCII letter, digit or '_'. */
  predicate ValidUsername(u: string)
  {
    |u| >= 3 && AllInClass(u, WordChars)
  }

  /** A registration password: at least six characters, with a letter, a digit and a special character. */
  predicate ValidPassword(p: string)
  {
    JsLength(p) >= 6 && HasClass(p, Letters) && HasClass(p, Digits) && HasClass(p, Specials)
  }

  lemma {:induction false} WordCharsAreAscii(s: string)
    requires AllInClass(s, WordChars)
    ensures JsLength(s) == |s|
  {
    forall i | 0 <= i < |s| ensures s[i] as int < 128 {
      assert InClass(s[i], WordChars);
    }
    AsciiJsLength(s);
  }

  /** The username rules accept exactly the valid usernames (the length rule then counts plain characters). */
  lemma UsernameRule(u: string)
    ensures UsernameIssues(u) == [] <==> ValidUsername(u)
  {
    TestWholeIff(u, WordChars);
    if AllInClass(u, WordChars) {
      WordCharsAreAscii(u);
    }
  }

  /** The password rules accept exactly the valid passwords. */
  lemma PasswordRule(p: string)
    ensures PasswordIssues(p) == [] <==> ValidPassword(p)
  {
    TestIff(p, Letters);
    TestIff(p, Digits);
    TestIff(p, Specials);
  }

  /** Registration is accepted exactly when username, email and password all pass. */
  lemma RegisterRule(x: RegisterInput, isEmail: string -> bool)
    ensures RegisterIssues(x, isEmail) == [] <==>
            ValidUsername(x.username) && isEmail(x.email) && ValidPassword(x.password)
  {
    UsernameRule(x.username);
    PasswordRule(x.password);
  }

  /** Login is accepted exactly when the email passes and the password is non-empty. */
  lemma LoginRule(x: LoginInput, isEmail: string -> bool)
    ensures LoginIssues(x, isEmail) == [] <==> isEmail(x.email) && x.password != []
  {
  }

  /** The leading '-' of the special class is literal: it satisfies the special-character rule. */
  lemma DashIsSpecial(p: string)
    requires JsLength(p) >= 6 && HasClass(p, Letters) && HasClass(p, Digits)
    requires '-' in p
    ensures PasswordIssues(p) == []
  {
    var i :| 0 <= i < |p| && p[i] == '-';
    assert InClass(p[i], Specials);
    PasswordRule(p);
  }

  /** A password that meets every other rule but has no special character gets exactly that one issue. */
  lemma MissingSpecialIsOneIssue(p: string)
    requires JsLength(p) >= 6 && HasClass(p, Letters) && HasClass(p, Digits)
    requires !HasClass(p, Specials)
    ensures PasswordIssues(p) ==
            [Issue("password", "password must contain at least one special character (including -)")]
  {
    TestIff(p, Letters);
    TestIff(p, Digits);
    TestIff(p, Specials);
  }
}
