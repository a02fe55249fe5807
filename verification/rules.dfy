/**
 The registration schema: each key's chain of checks produces a list of
 issues, the object parse collects them in key order, and the error map's
 keys are the paths of those issues. `Accepts` states each key's rule
 directly, and `Validate` is proved to agree with it field by field.
 */
module Rules {
  import opened FormModel

  const MaxFileSize: nat := 2 * 1024 * 1024
  const AcceptedImageTypes: seq<string> := ["image/jpeg", "image/png"]

  /** The first code point that a JavaScript string stores as a surrogate pair. */
  const FirstAstral: char := '\U{10000}'

  /**
   A string's `.length` in JavaScript, which is what every `.min(n)` of the
   schema compares: UTF-16 code units, so a character beyond the Basic
   Multilingual Plane counts twice.
   */
  function Utf16Length(s: string): (n: nat)
    ensures |s| <= n <= 2 * |s|
  {
    if |s| == 0 then 0
    else (if s[0] < FirstAstral then 1 else 2) + Utf16Length(s[1..])
  }

  /** Within the Basic Multilingual Plane the JavaScript length is the character count. */
  lemma {:induction false} BmpLength(s: string)
    requires forall i :: 0 <= i < |s| ==> s[i] < FirstAstral
    ensures Utf16Length(s) == |s|
  {
    if |s| > 0 {
      assert forall i :: 0 <= i < |s[1..]| ==> s[1..][i] == s[i + 1];
      BmpLength(s[1..]);
    }
  }

  /** The JavaScript length of a concatenation is the sum of the parts' lengths. */
  lemma {:induction false} Utf16LengthAppend(a: string, b: string)
    ensures Utf16Length(a + b) == Utf16Length(a) + Utf16Length(b)
  {
    if |a| == 0 {
      assert a + b == b;
    } else {
      assert (a + b)[1..] == a[1..] + b;
      Utf16LengthAppend(a[1..], b);
    }
  }

  // ---------------------------------------------------------------------------
  // Password character classes
  // ---------------------------------------------------------------------------

  /** The four bracket expressions the password regexes test for. */
  datatype CharClass = Upper | Lower | Digit | Special

  /** The punctuation accepted by the special-character regex. */
  const SpecialChars: string := "!@#$%^&*(),.?:{}|<>"

  predicate InClass(c: char, k: CharClass) {
    match k
    case Upper => 'A' <= c <= 'Z'
    case Lower => 'a' <= c <= 'z'
    case Digit => '0' <= c <= '9'
    case Special => c in SpecialChars
  }

  /** A regex `test` of a one-character class: scans left to right for a match. */
  function ContainsClass(s: string, k: CharClass): (r: bool)
    ensures r <==> exists c :: c in s && InClass(c, k)
  {
    if |s| == 0 then false
    else if InClass(s[0], k) then true
    else
      assert forall c :: c in s <==> c == s[0] || c in s[1..];
      ContainsClass(s[1..], k)
  }

  /** The password checks, in the order the schema chains them. */
  datatype PasswordRule = TooShort | NoUpper | NoLower | NoDigit | NoSpecial

  const MinPasswordLength: nat := 8

  /** Every password check that fails, in chain order (the checks do not stop at the first failure). */
  function PasswordIssues(p: string): (r: seq<PasswordRule>)
    ensures TooShort in r <==> Utf16Length(p) < MinPasswordLength
    ensures NoUpper in r <==> forall c :: c in p ==> !InClass(c, Upper)
    ensures NoLower in r <==> forall c :: c in p ==> !InClass(c, Lower)
    ensures NoDigit in r <==> forall c :: c in p ==> !InClass(c, Digit)
    ensures NoSpecial in r <==> forall c :: c in p ==> !InClass(c, Special)
  {
    (if Utf16Length(p) < MinPasswordLength then [TooShort] else [])
    + (if ContainsClass(p, Upper) then [] else [NoUpper])
    + (if ContainsClass(p, Lower) then [] else [NoLower])
    + (if ContainsClass(p, Digit) then [] else [NoDigit])
    + (if ContainsClass(p, Special) then [] else [NoSpecial])
  }

  /** A password the schema accepts, stated character by character. */
  predicate StrongPassword(p: string) {
    && Utf16Length(p) >= MinPasswordLength
    && (exists i :: 0 <= i < |p| && 'A' <= p[i] <= 'Z')
    && (exists i :: 0 <= i < |p| && 'a' <= p[i] <= 'z')
    && (exists i :: 0 <= i < |p| && '0' <= p[i] <= '9')
    && (exists i :: 0 <= i < |p| && p[i] in SpecialChars)
  }

  lemma PasswordIssuesEmptyIffStrong(p: string)
    ensures |PasswordIssues(p)| == 0 <==> StrongPassword(p)
  {
    var r := PasswordIssues(p);
    if StrongPassword(p) {
      var a :| 0 <= a < |p| && 'A' <= p[a] <= 'Z';
      var b :| 0 <= b < |p| && 'a' <= p[b] <= 'z';
      var d :| 0 <= d < |p| && '0' <= p[d] <= '9';
      var e :| 0 <= e < |p| && p[e] in SpecialChars;
      assert InClass(p[a], Upper) && InClass(p[b], Lower);
      assert InClass(p[d], Digit) && InClass(p[e], Special);
    } else if |r| == 0 {
      assert TooShort !in r && NoUpper !in r && NoLower !in r;
      assert NoDigit !in r && NoSpecial !in r;
      var a :| a in p && InClass(a, Upper);
      var b :| b in p && InClass(b, Lower);
      var d :| d in p && InClass(d, Digit);
      var e :| e in p && InClass(e, Special);
      var ia :| 0 <= ia < |p| && p[ia] == a;
      var ib :| 0 <= ib < |p| && p[ib] == b;
      var id :| 0 <= id < |p| && p[id] == d;
      var ie :| 0 <= ie < |p| && p[ie] == e;
      assert StrongPassword(p);
    }
  }

  // ---------------------------------------------------------------------------
  // Profile image
  // ---------------------------------------------------------------------------

  /** The three image refinements, in the order the schema chains them. */
  datatype ImageRule = Missing | TooLarge | WrongType

  /**
   Every image refinement that fails. Only the first file is inspected; with no
   file, the size and type refinements read `undefined` and fail as well.
   */
  function ImageIssues(files: seq<ImageFile>): (r: seq<ImageRule>)
    ensures |files| == 0 ==> r == [Missing, TooLarge, WrongType]
    ensures |files| > 0 ==> Missing !in r
    ensures |files| > 0 ==> (TooLarge in r <==> files[0].size > MaxFileSize)
    ensures |files| > 0 ==> (WrongType in r <==> files[0].mimeType !in AcceptedImageTypes)
  {
    (if |files| > 0 then [] else [Missing])
    + (if |files| > 0 && files[0].size <= MaxFileSize then [] else [TooLarge])
    + (if |files| > 0 && files[0].mimeType in AcceptedImageTypes then [] else [WrongType])
  }

  /** An image selection the schema accepts. */
  predicate ImageAccepted(files: seq<ImageFile>) {
    && |files| > 0
    && files[0].size <= MaxFileSize
    && (files[0].mimeType == "image/jpeg" || files[0].mimeType == "image/png")
  }

  lemma ImageIssuesEmptyIffAccepted(files: seq<ImageFile>)
    ensures |ImageIssues(files)| == 0 <==> ImageAccepted(files)
  {
    var r := ImageIssues(files);
    if |r| != 0 {
      assert r[0] in r;
    }
  }

  /** Files after the first never influence the verdict. */
  lemma OnlyFirstFileMatters(files: seq<ImageFile>, more: seq<ImageFile>)
    requires |files| > 0
    ensures ImageIssues(files + more) == ImageIssues(files[..1])
  {
    assert (files + more)[0] == files[..1][0];
  }

  // ---------------------------------------------------------------------------
  // Per-field rules
  // ---------------------------------------------------------------------------

  /** The kind of a schema issue, with the bound its check names. */
  datatype Rule =
    | TooShortText(minLength: nat)
    | BadEmail
    | WeakPassword(password: PasswordRule)
    | TooFewItems(minItems: nat)
    | BelowMin(min: int)
    | AboveMax(max: int)
    | BadImage(image: ImageRule)

  /** A string `.min(n)` check, on the JavaScript length. */
  function MinLength(s: string, n: nat): seq<Rule> {
    if Utf16Length(s) < n then [TooShortText(n)] else []
  }

  function PasswordRules(ps: seq<PasswordRule>): (r: seq<Rule>)
    ensures |r| == |ps|
  {
    seq(|ps|, i requires 0 <= i < |ps| => WeakPassword(ps[i]))
  }

  function ImageRules(rules: seq<ImageRule>): (r: seq<Rule>)
    ensures |r| == |rules|
  {
    seq(|rules|, i requires 0 <= i < |rules| => BadImage(rules[i]))
  }

  /** Each key's rule, stated directly on the field's value. */
  predicate Accepts(isEmail: string -> bool, f: Form, fld: Field) {
    match fld
    case FullName => Utf16Length(f.fullName) >= 3
    case Email => isEmail(f.email)
    case Password => StrongPassword(f.password)
    case Age => f.age >= 18
    case Role => f.role != ""
    case Skills => f.skills != []
    case Experience => f.experience != ""
    case Remote => true
    case StartDate => f.startDate != ""
    case AvaliableHours => 1 <= f.avaliableHours <= 60
    case Bio => Utf16Length(f.bio) >= 10
    case ProfileImage => ImageAccepted(f.profileImage)
    case Newsletter => true
  }

  /** The issues the check chain of one key reports, in chain order. */
  function FieldIssues(isEmail: string -> bool, f: Form, fld: Field): (r: seq<Rule>)
    ensures |r| == 0 <==> Accepts(isEmail, f, fld)
  {
    match fld
    case FullName => MinLength(f.fullName, 3)
    case Email => if isEmail(f.email) then [] else [BadEmail]
    case Password =>
      PasswordIssuesEmptyIffStrong(f.password);
      PasswordRules(PasswordIssues(f.password))
    case Age => if f.age < 18 then [BelowMin(18)] else []
    case Role => MinLength(f.role, 1)
    case Skills => if |f.skills| < 1 then [TooFewItems(1)] else []
    case Experience => MinLength(f.experience, 1)
    case Remote => []
    case StartDate => MinLength(f.startDate, 1)
    case AvaliableHours =>
      (if f.avaliableHours < 1 then [BelowMin(1)] else [])
      + (if f.avaliableHours > 60 then [AboveMax(60)] else [])
    case Bio => MinLength(f.bio, 10)
    case ProfileImage =>
      ImageIssuesEmptyIffAccepted(f.profileImage);
      ImageRules(ImageIssues(f.profileImage))
    case Newsletter => []
  }

  // ---------------------------------------------------------------------------
  // Object parse and error map
  // ---------------------------------------------------------------------------

  /** A schema issue: the key it is reported under and what failed. */
  datatype Issue = Issue(path: Field, rule: Rule)

  function Paths(issues: seq<Issue>): set<Field> {
    set i | i in issues :: i.path
  }

  lemma PathsAppend(a: seq<Issue>, b: seq<Issue>)
    ensures Paths(a + b) == Paths(a) + Paths(b)
  {
    forall fld | fld in Paths(a + b)
      ensures fld in Paths(a) + Paths(b)
    {
      var i :| i in a + b && i.path == fld;
    }
    forall fld | fld in Paths(a) + Paths(b)
      ensures fld in Paths(a + b)
    {
      if fld in Paths(a) {
        var i :| i in a && i.path == fld;
        assert i in a + b;
      } else {
        var i :| i in b && i.path == fld;
        assert i in a + b;
      }
    }
  }

  /** One key's issues, each tagged with the key. */
  function Tag(fld: Field, rules: seq<Rule>): (r: seq<Issue>)
    ensures Paths(r) == if |rules| == 0 then {} else {fld}
  {
    var r := seq(|rules|, i requires 0 <= i < |rules| => Issue(fld, rules[i]));
    assert |rules| != 0 ==> r[0] in r;
    r
  }

  /** Parses the keys of `shape` in order, collecting every issue. */
  function IssuesOver(isEmail: string -> bool, f: Form, shape: seq<Field>): (r: seq<Issue>)
    ensures Paths(r) <= set fld | fld in shape
    ensures forall fld :: fld in shape ==> (fld in Paths(r) <==> !Accepts(isEmail, f, fld))
  {
    if |shape| == 0 then []
    else
      var head := Tag(shape[0], FieldIssues(isEmail, f, shape[0]));
      var rest := IssuesOver(isEmail, f, shape[1..]);
      PathsAppend(head, rest);
      assert forall fld :: fld in shape <==> fld == shape[0] || fld in shape[1..];
      head + rest
  }

  /** Every issue the schema reports for `f`. */
  function SchemaIssues(isEmail: string -> bool, f: Form): (r: seq<Issue>)
    ensures forall fld :: fld in Paths(r) <==> !Accepts(isEmail, f, fld)
  {
    var r := IssuesOver(isEmail, f, Shape);
    ShapeCoversEveryField();
    r
  }

  /**
   The keys of the error map: the fields whose rule fails. The two optional
   booleans are never among them.
   */
  function Validate(isEmail: string -> bool, f: Form): (errors: set<Field>)
    ensures forall fld :: fld in errors <==> !Accepts(isEmail, f, fld)
    ensures Remote !in errors && Newsletter !in errors
  {
    var issues := SchemaIssues(isEmail, f);
    assert Accepts(isEmail, f, Remote) && Accepts(isEmail, f, Newsletter);
    Paths(issues)
  }
}
