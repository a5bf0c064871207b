/** The shared form validator of main.js (`validateForm`) and the email rule it
    has in common with the wizard: the per-field checks and the loop over a
    form's required fields. */
module Rules {
  import opened Wrappers
  import opened Text

  /** The annotation a failing field receives. */
  datatype FieldError = MissingValue | InvalidEmail | InvalidPhone

  /** A non-empty run of characters from `[^\s@]`. */
  predicate EmailPart(x: string) {
    |x| > 0 && forall i | 0 <= i < |x| :: !IsSpace(x[i]) && x[i] != '@'
  }

  /** `/^[^\s@]+@[^\s@]+\.[^\s@]+$/.test(s)`, decided by scanning: everything
      before the first `@` is the local part, everything after it must be free
      of `\s` and `@` and have a dot with at least one character on either side. */
  predicate IsEmail(s: string) {
    var k := IndexOf(s, '@');
    k < |s| && EmailPart(s[..k]) &&
    var r := s[k + 1..];
    EmailPart(r) && |r| >= 3 && '.' in r[1..|r| - 1]
  }

  /** What the regular expression describes: `a@b.c` with three non-empty parts drawn from `[^\s@]`. */
  ghost predicate EmailShape(s: string) {
    exists a, b, c :: EmailPart(a) && EmailPart(b) && EmailPart(c) && s == a + "@" + b + "." + c
  }

  lemma EmailFromShape(s: string, a: string, b: string, c: string)
    requires EmailPart(a) && EmailPart(b) && EmailPart(c) && s == a + "@" + b + "." + c
    ensures IsEmail(s)
  {
    var k := IndexOf(s, '@');
    assert s[|a|] == '@';
    assert forall i | 0 <= i < |a| :: s[i] == a[i];
    assert k == |a|;
    assert s[..k] == a;
    var r := s[k + 1..];
    assert r == b + "." + c;
    assert r[|b|] == '.';
    assert r[1..|r| - 1][|b| - 1] == '.';
  }

  lemma ShapeFromEmail(s: string)
    requires IsEmail(s)
    ensures EmailShape(s)
  {
    var k := IndexOf(s, '@');
    var r := s[k + 1..];
    var m := r[1..|r| - 1];
    var j := IndexOf(m, '.') + 1;
    var a, b, c := s[..k], r[..j], r[j + 1..];
    assert r[j] == '.';
    assert r == b + "." + c;
    assert EmailPart(b) && EmailPart(c);
    assert s == a + "@" + r;
  }

  /** The scanner accepts exactly the strings the regular expression matches. */
  lemma EmailRuleMatchesRegex(s: string)
    ensures IsEmail(s) <==> EmailShape(s)
  {
    if IsEmail(s) {
      ShapeFromEmail(s);
    }
    if EmailShape(s) {
      var a, b, c :| EmailPart(a) && EmailPart(b) && EmailPart(c) && s == a + "@" + b + "." + c;
      EmailFromShape(s, a, b, c);
    }
  }

  function CountOf(s: string, c: char): (n: nat)
    ensures n <= |s|
  {
    if s == [] then 0 else (if s[0] == c then 1 else 0) + CountOf(s[1..], c)
  }

  lemma {:induction false} CountOfAppend(a: string, b: string, c: char)
    ensures CountOf(a + b, c) == CountOf(a, c) + CountOf(b, c)
  {
    if a == [] {
      assert a + b == b;
    } else {
      assert (a + b)[1..] == a[1..] + b;
      CountOfAppend(a[1..], b, c);
    }
  }

  lemma {:induction false} CountOfAbsent(s: string, c: char)
    requires forall i | 0 <= i < |s| :: s[i] != c
    ensures CountOf(s, c) == 0
  {
    if s != [] {
      CountOfAbsent(s[1..], c);
    }
  }

  /** An address the rule accepts has exactly one `@`. */
  lemma EmailHasOneAt(s: string)
    requires IsEmail(s)
    ensures CountOf(s, '@') == 1
  {
    var k := IndexOf(s, '@');
    assert s == s[..k] + "@" + s[k + 1..];
    CountOfAppend(s[..k] + "@", s[k + 1..], '@');
    CountOfAppend(s[..k], "@", '@');
    CountOfAbsent(s[..k], '@');
    CountOfAbsent(s[k + 1..], '@');
  }

  /** The characters of `[\d\s\-\+\(\)]`. */
  predicate IsTelChar(c: char) {
    IsDigit(c) || IsSpace(c) || c == '-' || c == '+' || c == '(' || c == ')'
  }

  /** `/^[\d\s\-\+\(\)]{10,}$/.test(v.replace(/\s/g, ''))` */
  predicate TelRule(v: string) {
    var w := RemoveSpace(v);
    |w| >= 10 && forall i | 0 <= i < |w| :: IsTelChar(w[i])
  }

  /** Whitespace never matters to the tel rule. */
  lemma TelRuleIgnoresSpace(v: string)
    ensures TelRule(v) == TelRule(RemoveSpace(v))
  {
    FilterIdempotent(NotSpace, v);
  }

  /** The tel rule counts characters, not digits: ten hyphens pass. */
  lemma TenHyphensPassTelRule()
    ensures TelRule("----------")
    ensures Digits("----------") == []
  {
    var h := "----------";
    FilterKeepsAll(NotSpace, h);
    FilterDropsAll(IsDigit, h);
  }

  /** Which `<input>` type decides the extra rule. */
  datatype InputType = EmailInput | TelInput | OtherInput

  /** One `input[required]`, `select[required]` or `textarea[required]` of the form. */
  datatype FormField = FormField(kind: InputType, value: string)

  /** The rule `validateForm` applies to one required field: blanks fail first, then the email or tel rule by type. */
  function FieldCheck(f: FormField): Option<FieldError> {
    if Trim(f.value) == [] then Some(MissingValue)
    else if f.kind == EmailInput then (if IsEmail(f.value) then None else Some(InvalidEmail))
    else if f.kind == TelInput then (if TelRule(f.value) then None else Some(InvalidPhone))
    else None
  }

  /** A field made only of whitespace is always reported missing, whatever its type. */
  lemma BlankFieldFails(f: FormField)
    requires IsBlank(f.value)
    ensures FieldCheck(f) == Some(MissingValue)
  {
    TrimBlank(f.value);
  }

  /** `validateForm`: `None` is a form id with no element, which passes. Every
      required field is checked (no early exit); `marks` is the annotation each
      one receives, and the form is valid iff no field received one. */
  method ValidateForm(form: Option<seq<FormField>>) returns (valid: bool, marks: seq<Option<FieldError>>)
    ensures form.None? ==> valid && marks == []
    ensures form.Some? ==> |marks| == |form.value|
    ensures form.Some? ==> forall i | 0 <= i < |marks| :: marks[i] == FieldCheck(form.value[i])
    ensures valid <==> forall i | 0 <= i < |marks| :: marks[i].None?
  {
    if form.None? {
      return true, [];
    }
    var fields := form.value;
    valid, marks := true, [];
    var i := 0;
    while i < |fields|
      invariant 0 <= i <= |fields|
      invariant |marks| == i
      invariant forall j | 0 <= j < i :: marks[j] == FieldCheck(fields[j])
      invariant valid <==> forall j | 0 <= j < i :: marks[j].None?
    {
      var mark := FieldCheck(fields[i]);
      if mark.Some? {
        valid := false;
      }
      marks := marks + [mark];
      i := i + 1;
    }
  }
}
