/**
 * The pieces of zod the validators are built from: a failed rule becomes an
 * issue carrying the field name and the rule's message, and a schema reports
 * every failed rule (fields in declaration order, and within a field the rules
 * in the order they are chained). Also the regular expressions the validators
 * use, all of which are single ASCII character classes without the `u` flag,
 * so scanning Unicode characters finds what scanning UTF-16 code units finds.
 */
module ZodRules {
  import opened Wrappers

  /** One entry of a zod error: the field it concerns and its message. */
  datatype Issue = Issue(path: string, message: string)

  /** A single chained rule (`.min(...)`, `.regex(...)`, `.email(...)`). */
  function Rule(path: string, holds: bool, message: string): seq<Issue>
  {
    if holds then [] else [Issue(path, message)]
  }

  /** The character classes written in the validators' regular expressions. */
  datatype CharClass =
    | Letters   // [a-zA-Z]
    | Digits    // [0-9]
    | WordChars // [a-zA-Z0-9_]
    | Specials  // [-!@#$%^&*(),.?":{}|<>], the leading '-' being literal

  predicate IsAsciiLetter(c: char)
  {
    'a' <= c <= 'z' || 'A' <= c <= 'Z'
  }

  predicate IsAsciiDigit(c: char)
  {
    '0' <= c <= '9'
  }

  /** The characters of `[-!@#$%^&*(),.?":{}|<>]`. */
  predicate IsSpecial(c: char)
  {
    c == '-' || c == '!' || c == '@' || c == '#' || c == '$' || c == '%' || c == '^' ||
    c == '&' || c == '*' || c == '(' || c == ')' || c == ',' || c == '.' || c == '?' ||
    c == '"' || c == ':' || c == '{' || c == '}' || c == '|' || c == '<' || c == '>'
  }

  predicate InClass(c: char, k: CharClass)
  {
    match k
    case Letters => IsAsciiLetter(c)
    case Digits => IsAsciiDigit(c)
    case WordChars => IsAsciiLetter(c) || IsAsciiDigit(c) || c == '_'
    case Specials => IsSpecial(c)
  }

  /** Some character of `s` is in the class. */
  predicate HasClass(s: string, k: CharClass)
  {
    exists i :: 0 <= i < |s| && InClass(s[i], k)
  }

  /** Every character of `s` is in the class. */
  predicate AllInClass(s: string, k: CharClass)
  {
    forall i :: 0 <= i < |s| ==> InClass(s[i], k)
  }

  /**
   * An unanchored `/[...]/` tried at index `i`, `i + 1`, ... as `RegExp.prototype.test`
   * does: the first index whose character is in the class, if any.
   */
  function SearchFrom(s: string, k: CharClass, i: nat): (found: Option<nat>)
    requires i <= |s|
    ensures found.Some? ==> i <= found.value < |s| && InClass(s[found.value], k)
    ensures found.Some? ==> forall j :: i <= j < found.value ==> !InClass(s[j], k)
    ensures found.None? ==> forall j :: i <= j < |s| ==> !InClass(s[j], k)
    decreases |s| - i
  {
    if i == |s| then None
    else if InClass(s[i], k) then Some(i)
    else SearchFrom(s, k, i + 1)
  }

  /** `/[...]/.test(s)` */
  predicate Test(s: string, k: CharClass)
  {
    SearchFrom(s, k, 0).Some?
  }

  /** The greedy run of class characters that `[...]+` consumes from index `i`. */
  function RunEnd(s: string, k: CharClass, i: nat): (j: nat)
    requires i <= |s|
    ensures i <= j <= |s|
    ensures forall m :: i <= m < j ==> InClass(s[m], k)
    ensures j < |s| ==> !InClass(s[j], k)
    decreases |s| - i
  {
    if i < |s| && InClass(s[i], k) then RunEnd(s, k, i + 1) else i
  }

  /** `/^[...]+$/.test(s)`: a non-empty run from the start that reaches the end. */
  predicate TestWhole(s: string, k: CharClass)
  {
    var j := RunEnd(s, k, 0);
    1 <= j && j == |s|
  }

  /** The unanchored search succeeds exactly when some character is in the class. */
  lemma TestIff(s: string, k: CharClass)
    ensures Test(s, k) <==> HasClass(s, k)
  {
  }

  /** The anchored pattern matches exactly the non-empty strings made of class characters. */
  lemma TestWholeIff(s: string, k: CharClass)
    ensures TestWhole(s, k) <==> |s| >= 1 && AllInClass(s, k)
  {
  }
}
