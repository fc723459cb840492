/** The admin registration and login rules (`adminRegisterSchema`, `adminLoginSchema`). */
module AdminSchema {
  import opened JsString
  import opened ZodRules
  import AuthSchema

  datatype AdminRegisterInput = AdminRegisterInput(username: string, email: string, password: string)
  datatype AdminLoginInput = AdminLoginInput(email: string, password: string)

  /** `adminRegisterSchema`: length rules only; `isEmail` stands for zod's `.email()` grammar. */
  function AdminRegisterIssues(x: AdminRegisterInput, isEmail: string -> bool): seq<Issue>
  {
    Rule("username", JsLength(x.username) >= 2, "Username must be at least 2 characters") +
    Rule("email", isEmail(x.email), "Invalid email format") +
    Rule("password", JsLength(x.password) >= 6, "Password must be at least 6 characters")
  }

  /** `adminLoginSchema` */
  function AdminLoginIssues(x: AdminLoginInput, isEmail: string -> bool): seq<Issue>
  {
    Rule("email", isEmail(x.email), "Invalid email address") +
    Rule("password", JsLength(x.password) >= 1, "Password is required")
  }

  /** Admin registration is accepted exactly when the username has two characters, the email passes and the password has six. */
  lemma AdminRegisterRule(x: AdminRegisterInput, isEmail: string -> bool)
    ensures AdminRegisterIssues(x, isEmail) == [] <==>
            JsLength(x.username) >= 2 && isEmail(x.email) && JsLength(x.password) >= 6
  {
  }

  /** Whatever the user registration rules accept, the admin registration rules accept too. */
  lemma UserRulesImplyAdminRules(u: string, e: string, p: string, isEmail: string -> bool)
    requires AuthSchema.RegisterIssues(AuthSchema.RegisterInput(u, e, p), isEmail) == []
    ensures AdminRegisterIssues(AdminRegisterInput(u, e, p), isEmail) == []
  {
    AuthSchema.RegisterRule(AuthSchema.RegisterInput(u, e, p), isEmail);
  }

  /**
   * The converse fails: a two-character username passes the admin rules but
   * not the user rules.
   */
  lemma AdminRulesAreWeaker(u: string, e: string, p: string, isEmail: string -> bool)
    requires |u| == 2 && isEmail(e) && JsLength(p) >= 6
    ensures AdminRegisterIssues(AdminRegisterInput(u, e, p), isEmail) == []
    ensures AuthSchema.RegisterIssues(AuthSchema.RegisterInput(u, e, p), isEmail) != []
  {
    AuthSchema.RegisterRule(AuthSchema.RegisterInput(u, e, p), isEmail);
  }

  /** The admin and the user login rules accept the same inputs: a passing email and a non-empty password. */
  lemma LoginRulesAgree(e: string, p: string, isEmail: string -> bool)
    ensures AdminLoginIssues(AdminLoginInput(e, p), isEmail) == [] <==>
            AuthSchema.LoginIssues(AuthSchema.LoginInput(e, p), isEmail) == []
    ensures AdminLoginIssues(AdminLoginInput(e, p), isEmail) == [] <==> isEmail(e) && p != []
  {
  }
}
