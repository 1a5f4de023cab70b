/** The landing-page lead form (src/features/projects/demos/LandingLeadFormDemo.tsx): four text
    fields, a validator that produces per-field error messages, and a submit status that moves
    from idle to submitting to success. */
module LeadForm {
  import opened Text

  // ---------------------------------------------------------------------------
  // The e-mail check

  /** A character of `[^\s@]`. */
  predicate PartChar(c: char) {
    !IsSpace(c) && c != '@'
  }

  predicate AllPartChars(s: string) {
    forall k | 0 <= k < |s| :: PartChar(s[k])
  }

  /** `[^\s@]+`: a non-empty run without whitespace or `@`. */
  predicate IsPart(s: string) {
    |s| > 0 && AllPartChars(s)
  }

  /** The pattern `^[^\s@]+@[^\s@]+\.[^\s@]+$` matches `t` with its `@` at `at` and its `.` at
      `dot`: local part, domain and top-level part are each a non-empty run without whitespace
      or `@`. */
  predicate MatchesAt(t: string, at: int, dot: int) {
    && 0 <= at < dot < |t|
    && t[at] == '@' && t[dot] == '.'
    && IsPart(t[..at]) && IsPart(t[at + 1..dot]) && IsPart(t[dot + 1..])
  }

  /** The reference reading of the pattern: some choice of the `@` and the `.` matches. */
  predicate MatchesEmailPattern(t: string) {
    exists at, dot | 0 <= at < dot < |t| :: MatchesAt(t, at, dot)
  }

  /** The position of the first `c` in `s`. */
  function IndexOf(s: string, c: char): (r: Option<nat>)
    ensures r.Some? ==> r.value < |s| && s[r.value] == c && c !in s[..r.value]
    ensures r.None? ==> c !in s
  {
    if |s| == 0 then None
    else if s[0] == c then Some(0)
    else match IndexOf(s[1..], c)
      case None => None
      case Some(i) =>
        assert s[..i + 1] == [s[0]] + s[1..][..i];
        Some(i + 1)
  }

  /** The test `isValidEmail` applies to the trimmed text: a first `@` after a non-empty local
      part, no whitespace or second `@` anywhere, and a `.` inside the domain, neither first nor
      last. */
  predicate AcceptsTrimmed(t: string) {
    match IndexOf(t, '@')
    case None => false
    case Some(at) =>
      var domain := t[at + 1..];
      && at > 0 && AllPartChars(t[..at]) && AllPartChars(domain)
      && |domain| >= 3 && '.' in domain[1..|domain| - 1]
  }

  /** `isValidEmail`. */
  predicate IsValidEmail(email: string) {
    AcceptsTrimmed(Trim(email))
  }

  lemma AllPartCharsSlice(s: string, i: int, j: int)
    requires AllPartChars(s) && 0 <= i <= j <= |s|
    ensures AllPartChars(s[i..j])
  {
    forall k | 0 <= k < j - i ensures PartChar(s[i..j][k]) {
      assert s[i..j][k] == s[i + k];
    }
  }

  /** An accepted text matches the pattern, with the first `@` and a `.` inside the domain. */
  lemma AcceptedMatches(t: string)
    requires AcceptsTrimmed(t)
    ensures MatchesEmailPattern(t)
  {
    var at := IndexOf(t, '@').value;
    var domain := t[at + 1..];
    var inner := domain[1..|domain| - 1];
    var k :| 0 <= k < |inner| && inner[k] == '.';
    var dot := at + 2 + k;
    assert domain[k + 1] == '.';
    assert t[dot] == '.';
    assert t[at + 1..][..k + 1] == t[at + 1..dot];
    assert t[at + 1..][k + 2..] == t[dot + 1..];
    AllPartCharsSlice(domain, 0, k + 1);
    AllPartCharsSlice(domain, k + 2, |domain|);
    assert MatchesAt(t, at, dot);
  }

  /** If `s[i] == c` and no earlier character is `c`, the first `c` of `s` is at `i`. */
  lemma IndexOfFirst(s: string, c: char, i: int)
    requires 0 <= i < |s| && s[i] == c && c !in s[..i]
    ensures IndexOf(s, c) == Some(i)
  {
    assert s[i] in s;
  }

  /** A text the pattern matches is accepted. */
  lemma MatchesAccepted(t: string)
    requires MatchesEmailPattern(t)
    ensures AcceptsTrimmed(t)
  {
    var at, dot :| 0 <= at < dot < |t| && MatchesAt(t, at, dot);
    assert '@' !in t[..at];
    IndexOfFirst(t, '@', at);
    var domain := t[at + 1..];
    var n := dot - at - 1;
    forall k | 0 <= k < |domain| ensures PartChar(domain[k]) {
      if k < n {
        assert domain[k] == t[at + 1..dot][k];
      } else if k > n {
        assert domain[k] == t[dot + 1..][k - n - 1];
      }
    }
    assert domain[1..|domain| - 1][n - 1] == '.';
  }

  /** The check accepts exactly the trimmed texts the pattern matches. */
  lemma ValidEmailIff(email: string)
    ensures IsValidEmail(email) <==> MatchesEmailPattern(Trim(email))
  {
    var t := Trim(email);
    if AcceptsTrimmed(t) {
      AcceptedMatches(t);
    }
    if MatchesEmailPattern(t) {
      MatchesAccepted(t);
    }
  }

  // ---------------------------------------------------------------------------
  // The form and its validation

  datatype Field = Name | Email | Company | Message

  datatype Form = Form(name: string, email: string, company: string, message: string) {
    function Get(f: Field): string {
      match f
      case Name => name
      case Email => email
      case Company => company
      case Message => message
    }

    /** `{ ...prev, [key]: value }`: only the field `f` changes. */
    function Set(f: Field, v: string): (r: Form)
      ensures r.Get(f) == v
      ensures forall g :: g != f ==> r.Get(g) == Get(g)
    {
      match f
      case Name => this.(name := v)
      case Email => this.(email := v)
      case Company => this.(company := v)
      case Message => this.(message := v)
    }
  }

  const EmptyForm := Form("", "", "", "")

  const NameRequired := "Please enter your name."
  const EmailRequired := "Please enter your email."
  const EmailInvalid := "Please enter a valid email address."
  const MessageTooShort := "If you add a message, please include at least 10 characters."

  /** The error `validate` records for field `f`, if any. */
  function ErrorFor(form: Form, f: Field): Option<string> {
    match f
    case Name => if Trim(form.name) == "" then Some(NameRequired) else None
    case Email =>
      if Trim(form.email) == "" then Some(EmailRequired)
      else if !IsValidEmail(form.email) then Some(EmailInvalid)
      else None
    case Company => None
    case Message =>
      var n := Utf16Length(Trim(form.message));
      if 0 < n < 10 then Some(MessageTooShort) else None
  }

  function Lookup(errors: map<Field, string>, f: Field): Option<string> {
    if f in errors then Some(errors[f]) else None
  }

  predicate HasErrors(form: Form) {
    exists f :: ErrorFor(form, f).Some?
  }

  /** `canSubmit`: a non-blank name and a valid e-mail. */
  predicate CanSubmit(form: Form) {
    |Trim(form.name)| > 0 && IsValidEmail(form.email)
  }

  /** `validate`: fills the record of errors field by field. */
  method Validate(form: Form) returns (next: map<Field, string>)
    ensures forall f :: Lookup(next, f) == ErrorFor(form, f)
  {
    next := map[];
    if Trim(form.name) == "" {
      next := next[Name := NameRequired];
    }
    if Trim(form.email) == "" {
      next := next[Email := EmailRequired];
    } else if !IsValidEmail(form.email) {
      next := next[Email := EmailInvalid];
    }
    var n := Utf16Length(Trim(form.message));
    if n > 0 && n < 10 {
      next := next[Message := MessageTooShort];
    }
    forall f ensures Lookup(next, f) == ErrorFor(form, f) {
      match f
      case Name =>
      case Email =>
      case Company =>
      case Message =>
    }
  }

  /** The name error is raised exactly for a blank name; the company is never checked. */
  lemma NameAndCompanyErrors(form: Form)
    ensures ErrorFor(form, Name).Some? <==> AllSpace(form.name)
    ensures ErrorFor(form, Name).Some? ==> ErrorFor(form, Name).value == NameRequired
    ensures ErrorFor(form, Company) == None
  {
    TrimEmptyIff(form.name);
  }

  /** The e-mail error asks for an address exactly when the field is blank, asks for a valid
      one exactly when it is not blank but does not match the pattern, and is absent exactly
      when it matches. */
  lemma EmailErrors(form: Form)
    ensures ErrorFor(form, Email) == Some(EmailRequired) <==> AllSpace(form.email)
    ensures ErrorFor(form, Email) == Some(EmailInvalid) <==>
      !AllSpace(form.email) && !MatchesEmailPattern(Trim(form.email))
    ensures ErrorFor(form, Email) == None <==> MatchesEmailPattern(Trim(form.email))
    ensures ErrorFor(form, Email) in {None, Some(EmailRequired), Some(EmailInvalid)}
  {
    TrimEmptyIff(form.email);
    ValidEmailIff(form.email);
    assert |EmailRequired| == 24 && |EmailInvalid| == 35;
    if Trim(form.email) == "" {
      assert IndexOf(Trim(form.email), '@').None?;
    }
  }

  /** A message is optional, but a non-blank one shorter than ten UTF-16 code units is refused;
      without astral characters that is ten characters. */
  lemma MessageErrors(form: Form)
    ensures ErrorFor(form, Message).Some? <==> 0 < Utf16Length(Trim(form.message)) < 10
    ensures ErrorFor(form, Message).Some? ==> ErrorFor(form, Message).value == MessageTooShort
    ensures ErrorFor(form, Message).Some? <==> !AllSpace(form.message) && Utf16Length(Trim(form.message)) < 10
    ensures (forall k | 0 <= k < |Trim(form.message)| :: !IsAstral(Trim(form.message)[k])) ==>
      (ErrorFor(form, Message).Some? <==> 0 < |Trim(form.message)| < 10)
  {
    TrimEmptyIff(form.message);
  }

  /** Five emoji, each a surrogate pair, make a message of length 10 that passes. */
  const FiveEmoji := "\U{1F600}\U{1F600}\U{1F600}\U{1F600}\U{1F600}"

  lemma FiveEmojiMessageAccepted()
    ensures |FiveEmoji| == 5
    ensures Utf16Length(Trim(FiveEmoji)) == 10
    ensures ErrorFor(EmptyForm.(message := FiveEmoji), Message) == None
  {
    assert TrimStart(FiveEmoji) == FiveEmoji;
    assert TrimEnd(FiveEmoji) == FiveEmoji;
    assert Trim(FiveEmoji) == FiveEmoji;
    assert FiveEmoji[1..] == "\U{1F600}\U{1F600}\U{1F600}\U{1F600}";
  }

  /** Submitting is enabled exactly when validation finds no name and no e-mail error; a
      message error is not part of that test. */
  lemma CanSubmitIff(form: Form)
    ensures CanSubmit(form) <==> ErrorFor(form, Name).None? && ErrorFor(form, Email).None?
    ensures CanSubmit(form) == CanSubmit(form.Set(Message, form.message + "x"))
  {
    var at := IndexOf(Trim(form.email), '@');
    if IsValidEmail(form.email) {
      assert at.Some? && |Trim(form.email)| > 0;
    }
  }

  // ---------------------------------------------------------------------------
  // The component

  datatype Status = Idle | Submitting | Success

  class LeadFormDemo {
    var form: Form
    var errors: map<Field, string>
    var status: Status

    /** Every stored error is the one validation gives for the current value of its field. */
    predicate Valid()
      reads this
    {
      forall f | f in errors :: ErrorFor(form, f) == Some(errors[f])
    }

    constructor ()
      ensures form == EmptyForm && errors == map[] && status == Idle
      ensures Valid()
    {
      form := EmptyForm;
      errors := map[];
      status := Idle;
    }

    /** The submit button is disabled without a name and a valid e-mail, and while sending. */
    predicate SubmitDisabled()
      reads this
    {
      !CanSubmit(form) || status == Submitting
    }

    /** `update(key, value)`: sets one field and clears that field's error only. */
    method Update(key: Field, value: string)
      requires Valid()
      modifies this
      ensures form == old(form).Set(key, value)
      ensures errors == old(errors) - {key}
      ensures status == old(status)
      ensures Valid()
    {
      form := form.Set(key, value);
      errors := errors - {key};
    }

    /** `onSubmit` up to the simulated request: ignored while sending; with errors it shows
        them and stays put; otherwise it starts sending. */
    method OnSubmit()
      requires Valid()
      modifies this
      ensures form == old(form)
      ensures old(status) == Submitting ==> errors == old(errors) && status == Submitting
      ensures old(status) != Submitting && HasErrors(form) ==>
        (forall f :: Lookup(errors, f) == ErrorFor(form, f)) && status == old(status)
      ensures old(status) != Submitting && !HasErrors(form) ==>
        errors == map[] && status == Submitting
      ensures Valid()
    {
      if status == Submitting {
        return;
      }
      var next := Validate(form);
      if next != map[] {
        var k :| k in next;
        assert ErrorFor(form, k).Some? by { assert Lookup(next, k).Some?; }
        errors := next;
        return;
      }
      assert !HasErrors(form) by {
        forall f ensures ErrorFor(form, f).None? {
          assert Lookup(next, f).None?;
        }
      }
      assert errors == map[];
      status := Submitting;
    }

    /** The simulated request finishes: the status becomes success. */
    method CompleteRequest()
      requires Valid()
      modifies this
      ensures status == Success && form == old(form) && errors == old(errors)
      ensures Valid()
    {
      status := Success;
    }

    /** `reset`: empty fields, no errors, idle. */
    method Reset()
      modifies this
      ensures form == EmptyForm && errors == map[] && status == Idle
      ensures Valid()
    {
      form := EmptyForm;
      errors := map[];
      status := Idle;
    }
  }
}
