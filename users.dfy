/** User accounts: the username, email and password validators of the user
    model, the password strength score, the all-errors password check of
    the user routes, the field validation of the profile editor and the
    check order of the password change. Regular expressions are written
    out as character classes and patterns; Python's `$` also matches just
    before a final newline, and AnchoredMatch keeps that behaviour. */
module Users {
  import opened Common
  import opened Text

  datatype Verdict = Verdict(ok: bool, message: string)

  // ---------------------------------------------------------------------
  // Character classes and patterns

  datatype CharClass = Upper | Lower | Digit | Letter | Word | Special | Local | Domain

  /** [A-Z], [a-z], \d (as ASCII digits), [a-zA-Z], [a-zA-Z0-9_],
      [!@#$%^&*(),.?":{}|<>], [a-zA-Z0-9._%+-] and [a-zA-Z0-9.-]. */
  predicate InClass(c: char, k: CharClass)
  {
    match k
    case Upper => 'A' <= c <= 'Z'
    case Lower => 'a' <= c <= 'z'
    case Digit => '0' <= c <= '9'
    case Letter => 'A' <= c <= 'Z' || 'a' <= c <= 'z'
    case Word => 'A' <= c <= 'Z' || 'a' <= c <= 'z' || '0' <= c <= '9' || c == '_'
    case Special => c in "!@#$%^&*(),.?\":{}|<>"
    case Local => 'A' <= c <= 'Z' || 'a' <= c <= 'z' || '0' <= c <= '9' || c in "._%+-"
    case Domain => 'A' <= c <= 'Z' || 'a' <= c <= 'z' || '0' <= c <= '9' || c == '.' || c == '-'
  }

  /** Every character is in the class. */
  predicate AllChars(s: string, k: CharClass)
  {
    |s| == 0 || (InClass(s[0], k) && AllChars(s[1..], k))
  }

  /** re.search with a one-character class: some character is in it. */
  predicate HasChar(s: string, k: CharClass)
  {
    |s| > 0 && (InClass(s[0], k) || HasChar(s[1..], k))
  }

  /** A character outside the class does not occur. */
  lemma {:induction false} AllCharsExcludes(s: string, k: CharClass, c: char)
    requires AllChars(s, k) && !InClass(c, k)
    ensures c !in s
  {
    if |s| > 0 {
      AllCharsExcludes(s[1..], k, c);
    }
  }

  /** The three whole-string patterns: ^[a-zA-Z0-9_]+$ of the username
      check, ^[a-zA-Z0-9_]{3,30}$ of the profile editor, and the address
      pattern, decided by the scan EmailShape. */
  datatype Pattern = Words | UsernameRule | EmailRule

  predicate Body(p: Pattern, s: string)
  {
    match p
    case Words => |s| > 0 && AllChars(s, Word)
    case UsernameRule => 3 <= |s| <= 30 && AllChars(s, Word)
    case EmailRule => EmailShape(s)
  }

  /** re.match(r'^...$', s): the body matches the whole string, or the
      whole string but a final newline. */
  predicate AnchoredMatch(s: string, p: Pattern)
  {
    Body(p, s) || (|s| > 0 && s[|s| - 1] == '\n' && Body(p, s[..|s| - 1]))
  }

  // ---------------------------------------------------------------------
  // Usernames

  /** The first failing check, in the order: missing, length outside
      3..30, a character outside [A-Za-z0-9_], already taken. */
  function ValidateUsername(username: string, taken: set<string>): (v: Verdict)
    ensures v.ok <==> 3 <= |username| <= 30 && AnchoredMatch(username, Words) && username !in taken
    ensures v.ok ==> v.message == "Username is valid"
    ensures username == [] ==> v.message == "Username is required"
    ensures username != [] && !(3 <= |username| <= 30) ==> v.message == "Username must be between 3 and 30 characters"
    ensures 3 <= |username| <= 30 && !AnchoredMatch(username, Words)
            ==> v.message == "Username can only contain letters, numbers, and underscores"
    ensures 3 <= |username| <= 30 && AnchoredMatch(username, Words) && username in taken
            ==> v.message == "Username already taken"
  {
    if username == [] then Verdict(false, "Username is required")
    else if |username| < 3 || |username| > 30 then Verdict(false, "Username must be between 3 and 30 characters")
    else if !AnchoredMatch(username, Words) then Verdict(false, "Username can only contain letters, numbers, and underscores")
    else if username in taken then Verdict(false, "Username already taken")
    else Verdict(true, "Username is valid")
  }

  /** The model's username check and the profile editor's pattern accept
      the same free usernames, as long as no final newline is involved. */
  lemma UsernameChecksAgree(username: string)
    requires username == [] || username[|username| - 1] != '\n'
    ensures ValidateUsername(username, {}).ok <==> AnchoredMatch(username, UsernameRule)
  {
  }

  /** Python's `$` lets a final newline through the username check. */
  lemma UsernameTrailingNewline()
    ensures ValidateUsername("abc\n", {}).ok
  {
    var s := "abc\n";
    assert s[..|s| - 1] == "abc";
    assert AllChars("abc", Word) by {
      assert "abc"[1..] == "bc" && "bc"[1..] == "c" && "c"[1..] == "";
    }
  }

  // ---------------------------------------------------------------------
  // Email addresses

  /** ^[a-zA-Z0-9._%+-]+@[a-zA-Z0-9.-]+\.[a-zA-Z]{2,} as the regular
      expression reads it: some split local "@" domain "." tld. */
  ghost predicate EmailPattern(s: string)
  {
    exists at, dot :: 0 < at && at + 1 < dot && dot + 2 < |s| && s[at] == '@' && s[dot] == '.'
      && AllChars(s[..at], Local) && AllChars(s[at + 1..dot], Domain) && AllChars(s[dot + 1..], Letter)
  }

  /** The pattern anchored by `$`, which also accepts a final newline. */
  ghost predicate AnchoredEmailPattern(s: string)
  {
    EmailPattern(s) || (|s| > 0 && s[|s| - 1] == '\n' && EmailPattern(s[..|s| - 1]))
  }

  /** The position of the first c in s. */
  function FirstIndex(s: string, c: char): (r: Option<nat>)
    ensures r.None? <==> c !in s
    ensures r.Some? ==> r.value < |s| && s[r.value] == c && c !in s[..r.value]
  {
    if |s| == 0 then None
    else if s[0] == c then Some(0)
    else
      match FirstIndex(s[1..], c)
      case None => None
      case Some(i) =>
        assert s[..i + 1] == [s[0]] + s[1..][..i];
        Some(i + 1)
  }

  /** The position of the last c in s. */
  function LastIndex(s: string, c: char): (r: Option<nat>)
    ensures r.None? <==> c !in s
    ensures r.Some? ==> r.value < |s| && s[r.value] == c && c !in s[r.value + 1..]
  {
    if |s| == 0 then None
    else if s[|s| - 1] == c then Some(|s| - 1)
    else
      match LastIndex(s[..|s| - 1], c)
      case None => None
      case Some(i) =>
        assert s[i + 1..] == s[..|s| - 1][i + 1..] + [s[|s| - 1]];
        Some(i)
  }

  /** The address scanned once: split at the first "@" and the last ".". */
  predicate EmailShape(s: string)
  {
    var at, dot := FirstIndex(s, '@'), LastIndex(s, '.');
    at.Some? && dot.Some? && SplitsAt(s, at.value, dot.value)
  }

  /** A non-empty local part before position at, a non-empty domain
      between at and dot, and at least two letters after dot. */
  predicate SplitsAt(s: string, at: nat, dot: nat)
  {
    0 < at && at + 1 < dot && dot + 2 < |s|
    && AllChars(s[..at], Local) && AllChars(s[at + 1..dot], Domain) && AllChars(s[dot + 1..], Letter)
  }

  /** A c with no c before it is the first c. */
  lemma FirstIndexAt(s: string, c: char, i: nat)
    requires i < |s| && s[i] == c && c !in s[..i]
    ensures FirstIndex(s, c) == Some(i)
  {
    var f := FirstIndex(s, c);
    assert c in s by { assert s[i] == c; }
    if f.value < i {
      assert false;
    } else if f.value > i {
      assert false;
    }
  }

  /** A c with no c after it is the last c. */
  lemma LastIndexAt(s: string, c: char, i: nat)
    requires i < |s| && s[i] == c && c !in s[i + 1..]
    ensures LastIndex(s, c) == Some(i)
  {
    var l := LastIndex(s, c);
    assert c in s by { assert s[i] == c; }
    if l.value > i {
      assert false;
    } else if l.value < i {
      assert false;
    }
  }

  /** The scan accepts exactly the strings the pattern matches: the local
      part cannot hold "@" and the top-level domain cannot hold ".", so
      any match splits at the first "@" and the last ".". */
  lemma EmailShapeIsPattern(s: string)
    ensures EmailShape(s) <==> EmailPattern(s)
  {
    if EmailShape(s) {
      ShapeGivesPattern(s);
    }
    if EmailPattern(s) {
      PatternGivesShape(s);
    }
  }

  lemma ShapeGivesPattern(s: string)
    requires EmailShape(s)
    ensures EmailPattern(s)
  {
    var at, dot := FirstIndex(s, '@').value, LastIndex(s, '.').value;
    assert s[at] == '@' && s[dot] == '.';
  }

  lemma PatternGivesShape(s: string)
    requires EmailPattern(s)
    ensures EmailShape(s)
  {
    var at, dot :| 0 < at && at + 1 < dot && dot + 2 < |s| && s[at] == '@' && s[dot] == '.'
      && AllChars(s[..at], Local) && AllChars(s[at + 1..dot], Domain) && AllChars(s[dot + 1..], Letter);
    AllCharsExcludes(s[..at], Local, '@');
    AllCharsExcludes(s[dot + 1..], Letter, '.');
    FirstIndexAt(s, '@', at);
    LastIndexAt(s, '.', dot);
    assert SplitsAt(s, at, dot);
  }

  /** The anchored scan decides the anchored pattern. */
  lemma AnchoredEmail(s: string)
    ensures AnchoredMatch(s, EmailRule) <==> AnchoredEmailPattern(s)
  {
    EmailShapeIsPattern(s);
    if s != [] {
      EmailShapeIsPattern(s[..|s| - 1]);
    }
  }

  /** The first failing check: missing, not of the address format,
      already registered. */
  function ValidateEmail(email: string, registered: set<string>): (v: Verdict)
    ensures v.ok <==> AnchoredEmailPattern(email) && email !in registered
    ensures v.ok ==> v.message == "Email is valid"
    ensures email == [] ==> v.message == "Email is required"
    ensures email != [] && !AnchoredEmailPattern(email) ==> v.message == "Invalid email format"
    ensures AnchoredEmailPattern(email) && email in registered ==> v.message == "Email already registered"
  {
    AnchoredEmail(email);
    if email == [] then Verdict(false, "Email is required")
    else if !AnchoredMatch(email, EmailRule) then Verdict(false, "Invalid email format")
    else if email in registered then Verdict(false, "Email already registered")
    else Verdict(true, "Email is valid")
  }

  // ---------------------------------------------------------------------
  // Check tables: a row of pass/fail outcomes and one message per row

  /** The message of one check, if it fails. */
  function Unless<M>(ok: bool, message: M): seq<M>
  {
    if ok then [] else [message]
  }

  /** The number of passed checks among the first k. */
  function CountUpTo(passed: seq<bool>, k: nat): (n: nat)
    requires k <= |passed|
    ensures n <= k
  {
    if k == 0 then 0 else CountUpTo(passed, k - 1) + (if passed[k - 1] then 1 else 0)
  }

  /** The messages of the failed checks among the first k, in table order. */
  function FailedUpTo<M>(passed: seq<bool>, messages: seq<M>, k: nat): (errors: seq<M>)
    requires |passed| == |messages| && k <= |passed|
    ensures |errors| == k - CountUpTo(passed, k)
  {
    if k == 0 then [] else FailedUpTo(passed, messages, k - 1) + Unless(passed[k - 1], messages[k - 1])
  }

  /** The messages of all failed checks, in table order. */
  function FailedMessages<M>(passed: seq<bool>, messages: seq<M>): (errors: seq<M>)
    requires |passed| == |messages|
    ensures |errors| == |passed| - CountUpTo(passed, |passed|)
  {
    FailedUpTo(passed, messages, |passed|)
  }

  /** All of the first k checks pass exactly when all k are counted. */
  lemma {:induction false} CountAll(passed: seq<bool>, k: nat)
    requires k <= |passed|
    ensures CountUpTo(passed, k) == k <==> forall i :: 0 <= i < k ==> passed[i]
  {
    if k > 0 {
      CountAll(passed, k - 1);
    }
  }

  /** No message is reported exactly when every check passes. */
  lemma NoneFailed<M>(passed: seq<bool>, messages: seq<M>)
    requires |passed| == |messages|
    ensures FailedMessages(passed, messages) == [] <==> forall i :: 0 <= i < |passed| ==> passed[i]
  {
    CountAll(passed, |passed|);
  }

  /** A message is reported exactly when some check carrying it fails. */
  lemma {:induction false} FailedMembers<M>(passed: seq<bool>, messages: seq<M>, k: nat, e: M)
    requires |passed| == |messages| && k <= |passed|
    ensures e in FailedUpTo(passed, messages, k) <==> exists i :: 0 <= i < k && !passed[i] && messages[i] == e
  {
    if k > 0 {
      FailedMembers(passed, messages, k - 1, e);
    }
  }

  /** The position of the first failed check, or the table length. */
  function FirstFailed(passed: seq<bool>): (k: nat)
    ensures k <= |passed|
    ensures forall j :: 0 <= j < k ==> passed[j]
    ensures k < |passed| ==> !passed[k]
  {
    if |passed| == 0 || !passed[0] then 0
    else
      var k := FirstFailed(passed[1..]);
      assert forall j :: 1 <= j < k + 1 ==> passed[j] == passed[1..][j - 1];
      1 + k
  }

  /** A failed check with only passed checks before it is the first. */
  lemma FirstFailedAt(passed: seq<bool>, k: nat)
    requires k < |passed| && !passed[k] && forall j :: 0 <= j < k ==> passed[j]
    ensures FirstFailed(passed) == k
  {
  }

  /** Among the first k checks something fails exactly when the first
      failure lies among them, and then the first reported message is its
      message. */
  lemma {:induction false} FirstErrorIsFirstFailure<M>(passed: seq<bool>, messages: seq<M>, k: nat)
    requires |passed| == |messages| && k <= |passed|
    ensures FailedUpTo(passed, messages, k) != [] <==> FirstFailed(passed) < k
    ensures FailedUpTo(passed, messages, k) != [] ==> FailedUpTo(passed, messages, k)[0] == messages[FirstFailed(passed)]
  {
    if k > 0 {
      FirstErrorIsFirstFailure(passed, messages, k - 1);
      if FirstFailed(passed) >= k - 1 && !passed[k - 1] {
        FirstFailedAt(passed, k - 1);
      }
    }
  }

  /** One validation step: append the message when the check fails. */
  method Report(errors: seq<string>, ok: bool, message: string) returns (errors': seq<string>)
    ensures errors' == errors + Unless(ok, message)
  {
    errors' := errors;
    if !ok {
      errors' := errors' + [message];
    }
  }

  /** One more row of the table adds its message when the row fails. */
  lemma FailedNext<M>(passed: seq<bool>, messages: seq<M>, k: nat)
    requires |passed| == |messages| && k < |passed|
    ensures FailedUpTo(passed, messages, k + 1) == FailedUpTo(passed, messages, k) + Unless(passed[k], messages[k])
  {
  }

  /** A table of five checks, spelt out. */
  lemma Table5<M>(passed: seq<bool>, messages: seq<M>)
    requires |passed| == 5 && |messages| == 5
    ensures FailedMessages(passed, messages) == Unless(passed[0], messages[0]) + Unless(passed[1], messages[1])
      + Unless(passed[2], messages[2]) + Unless(passed[3], messages[3]) + Unless(passed[4], messages[4])
    ensures CountUpTo(passed, 5) == (if passed[0] then 1 else 0) + (if passed[1] then 1 else 0)
      + (if passed[2] then 1 else 0) + (if passed[3] then 1 else 0) + (if passed[4] then 1 else 0)
  {
    assert FailedUpTo(passed, messages, 1) == Unless(passed[0], messages[0]);
    assert FailedUpTo(passed, messages, 2) == FailedUpTo(passed, messages, 1) + Unless(passed[1], messages[1]);
    assert FailedUpTo(passed, messages, 3) == FailedUpTo(passed, messages, 2) + Unless(passed[2], messages[2]);
    assert FailedUpTo(passed, messages, 4) == FailedUpTo(passed, messages, 3) + Unless(passed[3], messages[3]);
  }

  // ---------------------------------------------------------------------
  // Passwords

  /** The five strength criteria, in the order both password checks use:
      at least 8 characters, an uppercase letter, a lowercase letter, a
      digit, a special character. */
  function Criteria(password: string): (cs: seq<bool>)
    ensures |cs| == 5
  {
    [|password| >= 8, HasChar(password, Upper), HasChar(password, Lower),
     HasChar(password, Digit), HasChar(password, Special)]
  }

  const PasswordMessages: seq<string> := [
    "Password must be at least 8 characters long",
    "Password must contain at least one uppercase letter",
    "Password must contain at least one lowercase letter",
    "Password must contain at least one number",
    "Password must contain at least one special character"
  ]

  /** How many criteria the password meets. */
  function Score(password: string): (n: nat)
    ensures n <= 5
  {
    CountUpTo(Criteria(password), 5)
  }

  /** The score is one point per criterion met; the full score means
      every criterion is met; the empty password scores 0. */
  lemma ScoreSum(password: string)
    ensures Score(password) == (if |password| >= 8 then 1 else 0) + (if HasChar(password, Upper) then 1 else 0)
      + (if HasChar(password, Lower) then 1 else 0) + (if HasChar(password, Digit) then 1 else 0)
      + (if HasChar(password, Special) then 1 else 0)
    ensures Score(password) == 5 <==> forall i :: 0 <= i < 5 ==> Criteria(password)[i]
    ensures password == [] ==> Score(password) == 0
  {
    var cs := Criteria(password);
    Table5(cs, PasswordMessages);
    CountAll(cs, 5);
  }

  /** The first-failure password check: missing, then the first unmet
      criterion; "Password is strong" when all five are met. */
  function ValidatePasswordStrength(password: string): (v: Verdict)
    ensures v.ok <==> password != [] && Score(password) == 5
    ensures v.ok ==> v.message == "Password is strong"
    ensures password == [] ==> v.message == "Password is required"
    ensures password != [] && !v.ok ==>
      FirstFailed(Criteria(password)) < 5 && v.message == PasswordMessages[FirstFailed(Criteria(password))]
  {
    ScoreSum(password);
    var cs := Criteria(password);
    if password == [] then Verdict(false, "Password is required")
    else if |password| < 8 then FirstFailedAt(cs, 0); Verdict(false, PasswordMessages[0])
    else if !HasChar(password, Upper) then FirstFailedAt(cs, 1); Verdict(false, PasswordMessages[1])
    else if !HasChar(password, Lower) then FirstFailedAt(cs, 2); Verdict(false, PasswordMessages[2])
    else if !HasChar(password, Digit) then FirstFailedAt(cs, 3); Verdict(false, PasswordMessages[3])
    else if !HasChar(password, Special) then FirstFailedAt(cs, 4); Verdict(false, PasswordMessages[4])
    else Verdict(true, "Password is strong")
  }

  /** weak up to 2, moderate for 3 and 4, strong above. */
  function StrengthName(score: int): (name: string)
    ensures name == "weak" <==> score <= 2
    ensures name == "moderate" <==> 3 <= score <= 4
    ensures name == "strong" <==> score >= 5
  {
    if score <= 2 then "weak" else if score <= 4 then "moderate" else "strong"
  }

  /** The live strength meter: one point per criterion met. An empty
      password is ("weak", 0) straight away, which is what the count would
      give too. */
  method PasswordStrengthLevel(password: string) returns (level: string, score: nat)
    ensures score == Score(password)
    ensures level == StrengthName(score)
  {
    ScoreSum(password);
    if password == [] {
      return "weak", 0;
    }
    score := 0;
    var feedback: seq<string> := [];
    if |password| >= 8 {
      score := score + 1;
    } else {
      feedback := feedback + ["At least 8 characters"];
    }
    if HasChar(password, Upper) {
      score := score + 1;
    } else {
      feedback := feedback + ["Uppercase letter"];
    }
    if HasChar(password, Lower) {
      score := score + 1;
    } else {
      feedback := feedback + ["Lowercase letter"];
    }
    if HasChar(password, Digit) {
      score := score + 1;
    } else {
      feedback := feedback + ["Number"];
    }
    if HasChar(password, Special) {
      score := score + 1;
    } else {
      feedback := feedback + ["Special character"];
    }
    level := StrengthName(score);
  }

  /** The first-failure check passes exactly when the meter shows strong,
      with the full score of 5. */
  lemma StrongIffValid(password: string)
    ensures ValidatePasswordStrength(password).ok <==> Score(password) == 5
    ensures ValidatePasswordStrength(password).ok <==> StrengthName(Score(password)) == "strong"
  {
    ScoreSum(password);
  }

  /** The errors the all-errors password check reports. */
  function PasswordErrorsOf(password: string): (errors: seq<string>)
    ensures |errors| == 5 - Score(password)
  {
    FailedMessages(Criteria(password), PasswordMessages)
  }

  /** The route's password check: one message per failed criterion, in
      the fixed order length, uppercase, lowercase, digit, special. */
  method PasswordErrors(password: string) returns (errors: seq<string>)
    ensures errors == PasswordErrorsOf(password)
  {
    ghost var cs := Criteria(password);
    errors := [];
    if |password| < 8 {
      errors := errors + [PasswordMessages[0]];
    }
    assert errors == FailedUpTo(cs, PasswordMessages, 1);
    if !HasChar(password, Upper) {
      errors := errors + [PasswordMessages[1]];
    }
    assert errors == FailedUpTo(cs, PasswordMessages, 2);
    if !HasChar(password, Lower) {
      errors := errors + [PasswordMessages[2]];
    }
    assert errors == FailedUpTo(cs, PasswordMessages, 3);
    if !HasChar(password, Digit) {
      errors := errors + [PasswordMessages[3]];
    }
    assert errors == FailedUpTo(cs, PasswordMessages, 4);
    if !HasChar(password, Special) {
      errors := errors + [PasswordMessages[4]];
    }
  }

  /** The route reports nothing exactly when the model check passes, and
      its first error is the model check's message. */
  lemma RouteAgreesWithModel(password: string)
    requires password != []
    ensures PasswordErrorsOf(password) == [] <==> ValidatePasswordStrength(password).ok
    ensures PasswordErrorsOf(password) != [] ==> PasswordErrorsOf(password)[0] == ValidatePasswordStrength(password).message
  {
    FirstErrorIsFirstFailure(Criteria(password), PasswordMessages, 5);
    StrongIffValid(password);
    CountAll(Criteria(password), 5);
  }

  // ---------------------------------------------------------------------
  // The account

  class User {
    var username: string
    var email: string
    /** Stands for the bcrypt hash; the model compares passwords directly. */
    var secret: string
    var firstName: string
    var lastName: string
    var role: string
    var isActive: bool
    var updatedAt: Option<int>

    constructor(username: string, email: string, password: string, firstName: string, lastName: string, role: string)
      ensures this.username == username && this.email == email && this.secret == password
      ensures this.firstName == firstName && this.lastName == lastName && this.role == role
      ensures isActive && updatedAt.None?
    {
      this.username := username;
      this.email := email;
      this.secret := password;
      this.firstName := firstName;
      this.lastName := lastName;
      this.role := role;
      this.isActive := true;
      this.updatedAt := None;
    }

    method SetPassword(password: string)
      modifies this
      ensures secret == password
      ensures username == old(username) && email == old(email) && firstName == old(firstName)
      ensures lastName == old(lastName) && role == old(role) && isActive == old(isActive) && updatedAt == old(updatedAt)
    {
      secret := password;
    }

    /** Stores a validated profile and stamps the update time. */
    method UpdateProfile(first: string, last: string, email: string, username: string, now: int)
      modifies this
      ensures firstName == first && lastName == last && this.email == email && this.username == username
      ensures updatedAt == Some(now)
      ensures secret == old(secret) && role == old(role) && isActive == old(isActive)
    {
      firstName := first;
      lastName := last;
      this.email := email;
      this.username := username;
      updatedAt := Some(now);
    }

    predicate CheckPassword(password: string)
      reads this
    {
      password == secret
    }

    /** first name, a space, last name. */
    function FullName(): (name: string)
      reads this
      ensures |name| == |firstName| + 1 + |lastName|
      ensures name[..|firstName|] == firstName && name[|firstName|] == ' ' && name[|firstName| + 1..] == lastName
    {
      firstName + " " + lastName
    }
  }

  /** Splitting a full name at its first space. */
  function SplitAtSpace(s: string): (parts: (string, string))
    ensures ' ' in s ==> parts.0 + " " + parts.1 == s && ' ' !in parts.0
  {
    match FirstIndex(s, ' ')
    case None => (s, "")
    case Some(i) =>
      assert s == s[..i] + " " + s[i + 1..];
      (s[..i], s[i + 1..])
  }

  /** A first name without spaces is recovered from the full name. */
  lemma FullNameSplits(first: string, last: string)
    requires ' ' !in first
    ensures SplitAtSpace(first + " " + last) == (first, last)
  {
    var s := first + " " + last;
    assert s[|first|] == ' ';
    var i := FirstIndex(s, ' ').value;
    if i < |first| {
      assert false;
    } else if i > |first| {
      assert false;
    }
    assert s[..i] == first;
    assert s[i + 1..] == last;
  }

  // ---------------------------------------------------------------------
  // Changing the password

  datatype ChangeOutcome = Rejected(messages: seq<string>) | Changed

  /** The check order of a password change: currentPassword, newPassword and confirmation
      present; current password correct; every strength criterion met;
      confirmation equal to the new password. The first failure stops the
      change; an empty string stands for a missing form field. */
  function ChangePasswordOutcome(secret: string, currentPassword: string, newPassword: string, confirmation: string): (o: ChangeOutcome)
    ensures o.Changed? <==> currentPassword != [] && newPassword != [] && confirmation != [] && currentPassword == secret
                            && PasswordErrorsOf(newPassword) == [] && newPassword == confirmation
    ensures o.Rejected? ==> |o.messages| >= 1
    ensures currentPassword == [] ==> o == Rejected(["Current password is required"])
    ensures currentPassword != [] && newPassword == [] ==> o == Rejected(["New password is required"])
    ensures currentPassword != [] && newPassword != [] && confirmation == []
            ==> o == Rejected(["Please confirm your new password"])
    ensures currentPassword != [] && currentPassword != secret && newPassword != [] && confirmation != []
            ==> o == Rejected(["Current password is incorrect"])
    // The strength errors come before the match check: a weak new password
    // is reported as weak whether or not the confirmation matches it.
    ensures currentPassword != [] && currentPassword == secret && newPassword != [] && confirmation != []
            && PasswordErrorsOf(newPassword) != []
            ==> o == Rejected(PasswordErrorsOf(newPassword))
    ensures currentPassword != [] && currentPassword == secret && newPassword != [] && confirmation != []
            && PasswordErrorsOf(newPassword) == [] && newPassword != confirmation
            ==> o == Rejected(["New passwords do not match"])
  {
    if currentPassword == [] then Rejected(["Current password is required"])
    else if newPassword == [] then Rejected(["New password is required"])
    else if confirmation == [] then Rejected(["Please confirm your new password"])
    else if currentPassword != secret then Rejected(["Current password is incorrect"])
    else if PasswordErrorsOf(newPassword) != [] then Rejected(PasswordErrorsOf(newPassword))
    else if newPassword != confirmation then Rejected(["New passwords do not match"])
    else Changed
  }

  /** A password that was accepted passes the model's strength check. */
  lemma ChangedPasswordIsStrong(secret: string, currentPassword: string, newPassword: string, confirmation: string)
    requires ChangePasswordOutcome(secret, currentPassword, newPassword, confirmation).Changed?
    ensures ValidatePasswordStrength(newPassword).ok && Score(newPassword) == 5
  {
    StrongIffValid(newPassword);
  }

  /** The password-change form handler: the user's password and update time
      change only when every check passes. */
  method ChangePassword(user: User, currentPassword: string, newPassword: string, confirmation: string, now: int)
    returns (outcome: ChangeOutcome)
    modifies user
    ensures outcome == ChangePasswordOutcome(old(user.secret), currentPassword, newPassword, confirmation)
    ensures outcome.Changed? ==> user.secret == newPassword && user.updatedAt == Some(now)
    ensures outcome.Rejected? ==> user.secret == old(user.secret) && user.updatedAt == old(user.updatedAt)
    ensures user.username == old(user.username) && user.email == old(user.email)
    ensures user.firstName == old(user.firstName) && user.lastName == old(user.lastName)
    ensures user.role == old(user.role) && user.isActive == old(user.isActive)
  {
    if currentPassword == [] {
      return Rejected(["Current password is required"]);
    }
    if newPassword == [] {
      return Rejected(["New password is required"]);
    }
    if confirmation == [] {
      return Rejected(["Please confirm your new password"]);
    }
    if !user.CheckPassword(currentPassword) {
      return Rejected(["Current password is incorrect"]);
    }
    var errors := PasswordErrors(newPassword);
    if errors != [] {
      return Rejected(errors);
    }
    if newPassword != confirmation {
      return Rejected(["New passwords do not match"]);
    }
    user.SetPassword(newPassword);
    user.updatedAt := Some(now);
    outcome := Changed;
  }

  // ---------------------------------------------------------------------
  // Editing the profile

  const ProfileMessages: seq<string> := [
    "First name is required",
    "Last name is required",
    "Email is required",
    "Username is required",
    "Invalid email format",
    "Username must be 3-30 characters, letters, numbers, and underscores only",
    "Email already exists",
    "Username already exists"
  ]

  /** Which of the eight profile checks pass, for stripped form values.
      The formats are checked only for non-empty values, and the duplicate
      checks only for values that differ from the user's own. */
  function ProfileChecks(first: string, last: string, email: string, username: string,
                               currentEmail: string, currentUsername: string,
                               registered: set<string>, taken: set<string>): (passed: seq<bool>)
    ensures |passed| == 8
  {
    [first != [], last != [], email != [], username != [],
     email == [] || AnchoredMatch(email, EmailRule),
     username == [] || AnchoredMatch(username, UsernameRule),
     !(email != currentEmail && email in registered),
     !(username != currentUsername && username in taken)]
  }

  function ProfileErrors(first: string, last: string, email: string, username: string,
                               currentEmail: string, currentUsername: string,
                               registered: set<string>, taken: set<string>): (errors: seq<string>)
  {
    FailedMessages(ProfileChecks(first, last, email, username, currentEmail, currentUsername, registered, taken),
                   ProfileMessages)
  }

  /** No error is reported exactly when every field is present and well
      formed and neither the email nor the username clashes with another
      account. */
  lemma ProfileAccepted(first: string, last: string, email: string, username: string,
                        currentEmail: string, currentUsername: string,
                        registered: set<string>, taken: set<string>)
    ensures ProfileErrors(first, last, email, username, currentEmail, currentUsername, registered, taken) == [] <==>
      && first != [] && last != [] && email != [] && username != []
      && AnchoredEmailPattern(email) && AnchoredMatch(username, UsernameRule)
      && (email == currentEmail || email !in registered)
      && (username == currentUsername || username !in taken)
  {
    var passed := ProfileChecks(first, last, email, username, currentEmail, currentUsername, registered, taken);
    AnchoredEmail(email);
    NoneFailed(passed, ProfileMessages);
    assert passed[0] == (first != []) && passed[1] == (last != []);
    assert passed[2] == (email != []) && passed[3] == (username != []);
    assert passed[4] == (email == [] || AnchoredMatch(email, EmailRule));
    assert passed[5] == (username == [] || AnchoredMatch(username, UsernameRule));
    assert passed[6] == (email == currentEmail || email !in registered);
    assert passed[7] == (username == currentUsername || username !in taken);
    AllOfEight(passed);
  }

  /** Eight checks all pass when each of them does. */
  lemma AllOfEight(passed: seq<bool>)
    requires |passed| == 8
    ensures (forall i :: 0 <= i < 8 ==> passed[i]) <==>
      passed[0] && passed[1] && passed[2] && passed[3] && passed[4] && passed[5] && passed[6] && passed[7]
  {
  }

  /** An empty field gets its "required" message and never a format
      message. */
  lemma FormatOnlyWhenPresent(first: string, last: string, email: string, username: string,
                              currentEmail: string, currentUsername: string,
                              registered: set<string>, taken: set<string>)
    ensures var errors := ProfileErrors(first, last, email, username, currentEmail, currentUsername, registered, taken);
      && (email == [] ==> ProfileMessages[4] !in errors && ProfileMessages[2] in errors)
      && (username == [] ==> ProfileMessages[5] !in errors && ProfileMessages[3] in errors)
  {
    var passed := ProfileChecks(first, last, email, username, currentEmail, currentUsername, registered, taken);
    if email == [] {
      RequiredNotFormat(passed, 2, 4);
    }
    if username == [] {
      RequiredNotFormat(passed, 3, 5);
    }
  }

  /** A failed check's message is reported, and a passed check's message,
      which no other check shares, is not. */
  lemma RequiredNotFormat(passed: seq<bool>, required: nat, format: nat)
    requires |passed| == 8 && required < 8 && format < 8
    requires !passed[required] && passed[format]
    ensures var errors := FailedMessages(passed, ProfileMessages);
      ProfileMessages[required] in errors && ProfileMessages[format] !in errors
  {
    FailedMembers(passed, ProfileMessages, 8, ProfileMessages[required]);
    FailedMembers(passed, ProfileMessages, 8, ProfileMessages[format]);
    forall i | 0 <= i < 8 && i != format
      ensures ProfileMessages[i] != ProfileMessages[format]
    {
      ProfileMessageUnique(i, format);
    }
  }

  /** No two profile messages are the same: they differ in their first
      letter or in their length. */
  lemma ProfileMessageUnique(i: nat, j: nat)
    requires i < 8 && j < 8 && i != j
    ensures ProfileMessages[i] != ProfileMessages[j]
  {
    assert ProfileMessages[i][0] != ProfileMessages[j][0] || |ProfileMessages[i]| != |ProfileMessages[j]|;
  }

  /** The first half of the profile validation: a "required" message for
      each empty field, in the order first name, last name, email,
      username. */
  method RequiredFieldErrors(first: string, last: string, email: string, username: string,
                             currentEmail: string, currentUsername: string,
                             registered: set<string>, taken: set<string>)
    returns (errors: seq<string>)
    ensures errors == FailedUpTo(ProfileChecks(first, last, email, username, currentEmail, currentUsername, registered, taken),
                                 ProfileMessages, 4)
  {
    ghost var cs := ProfileChecks(first, last, email, username, currentEmail, currentUsername, registered, taken);
    assert cs[0] == (first != []) && cs[1] == (last != []) && cs[2] == (email != []) && cs[3] == (username != []);
    errors := [];
    errors := Report(errors, first != [], ProfileMessages[0]);
    FailedNext(cs, ProfileMessages, 0);
    errors := Report(errors, last != [], ProfileMessages[1]);
    FailedNext(cs, ProfileMessages, 1);
    errors := Report(errors, email != [], ProfileMessages[2]);
    FailedNext(cs, ProfileMessages, 2);
    errors := Report(errors, username != [], ProfileMessages[3]);
    FailedNext(cs, ProfileMessages, 3);
  }

  /** The format checks of the profile validation, made only for
      non-empty values: the address pattern, then the username pattern. */
  method FormatErrors(errors: seq<string>, first: string, last: string, email: string, username: string,
                      currentEmail: string, currentUsername: string,
                      registered: set<string>, taken: set<string>)
    returns (errors': seq<string>)
    requires errors == FailedUpTo(ProfileChecks(first, last, email, username, currentEmail, currentUsername, registered, taken),
                                  ProfileMessages, 4)
    ensures errors' == FailedUpTo(ProfileChecks(first, last, email, username, currentEmail, currentUsername, registered, taken),
                                  ProfileMessages, 6)
  {
    ghost var cs := ProfileChecks(first, last, email, username, currentEmail, currentUsername, registered, taken);
    assert cs[4] == !(email != [] && !AnchoredMatch(email, EmailRule));
    assert cs[5] == !(username != [] && !AnchoredMatch(username, UsernameRule));
    errors' := Report(errors, !(email != [] && !AnchoredMatch(email, EmailRule)), ProfileMessages[4]);
    FailedNext(cs, ProfileMessages, 4);
    errors' := Report(errors', !(username != [] && !AnchoredMatch(username, UsernameRule)), ProfileMessages[5]);
    FailedNext(cs, ProfileMessages, 5);
  }

  /** The validation block of the profile form: one message per failed
      check, appended in the order of the table. */
  method ValidateProfile(first: string, last: string, email: string, username: string,
                         currentEmail: string, currentUsername: string,
                         registered: set<string>, taken: set<string>)
    returns (errors: seq<string>)
    ensures errors == ProfileErrors(first, last, email, username, currentEmail, currentUsername, registered, taken)
  {
    ghost var cs := ProfileChecks(first, last, email, username, currentEmail, currentUsername, registered, taken);
    errors := RequiredFieldErrors(first, last, email, username, currentEmail, currentUsername, registered, taken);
    errors := FormatErrors(errors, first, last, email, username, currentEmail, currentUsername, registered, taken);
    assert cs[6] == !(email != currentEmail && email in registered);
    assert cs[7] == !(username != currentUsername && username in taken);
    errors := Report(errors, !(email != currentEmail && email in registered), ProfileMessages[6]);
    FailedNext(cs, ProfileMessages, 6);
    errors := Report(errors, !(username != currentUsername && username in taken), ProfileMessages[7]);
    FailedNext(cs, ProfileMessages, 7);
  }

  /** The profile form handler: stripped values, the errors in check order,
      and the account updated only when there are none. */
  method EditProfile(user: User, firstForm: string, lastForm: string, emailForm: string, usernameForm: string,
                     registered: set<string>, taken: set<string>, now: int)
    returns (errors: seq<string>)
    modifies user
    ensures errors == ProfileErrors(Strip(firstForm), Strip(lastForm), Strip(emailForm), Strip(usernameForm),
                                    old(user.email), old(user.username), registered, taken)
    ensures errors == [] ==>
      && user.firstName == Strip(firstForm) && user.lastName == Strip(lastForm)
      && user.email == Strip(emailForm) && user.username == Strip(usernameForm)
      && user.updatedAt == Some(now)
    ensures errors != [] ==>
      && user.firstName == old(user.firstName) && user.lastName == old(user.lastName)
      && user.email == old(user.email) && user.username == old(user.username)
      && user.updatedAt == old(user.updatedAt)
    ensures user.secret == old(user.secret) && user.role == old(user.role) && user.isActive == old(user.isActive)
  {
    var first, last, email, username := Strip(firstForm), Strip(lastForm), Strip(emailForm), Strip(usernameForm);
    errors := ValidateProfile(first, last, email, username, user.email, user.username, registered, taken);
    if errors != [] {
      return;
    }
    user.UpdateProfile(first, last, email, username, now);
  }
}
