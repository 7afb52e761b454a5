/**
 * The lead schema: a JSON object with a non-empty `name`, an `email` that
 * passes the email-format check, and a `phone` whose digits, once every
 * other character is stripped, number at least seven.
 *
 * The schema library checks every field, in key order, and collects one
 * issue per failing field; the handler reports the first one.
 */
module LeadSchema {
  import opened Wrappers
  import opened Text

  const MIN_PHONE_DIGITS := 7

  const NAME_REQUIRED := "Name is required"
  const EMAIL_INVALID := "Please enter a valid email address"
  const PHONE_TOO_SHORT := "Phone number must be at least 7 digits"

  /** A JSON value found under one of the schema's keys: a string, or a value of another JSON type. */
  datatype Value = Str(s: string) | NonString(jsonType: string)

  /** A parsed request body as the schema sees it: an object with its three keys, each possibly absent, or any other JSON value. */
  datatype Input =
    | NonObject(jsonType: string)
    | Object(name: Option<Value>, email: Option<Value>, phone: Option<Value>)

  datatype Field = Name | Email | Phone

  /**
   * One failure the schema reports. The two type failures carry what the
   * library was given (`None` for an absent key); their wording is the
   * library's own.
   */
  datatype Issue =
    | NotAnObject(jsonType: string)
    | NotAString(field: Field, received: Option<string>)
    | NameEmpty
    | EmailInvalid
    | PhoneTooShort

  /** The validated data: the name and email as given, the phone normalised. */
  datatype Lead = Lead(name: string, email: string, phone: string)

  /** The phone transform: deletes every character that is not a digit. */
  function NormalizePhone(s: string): (r: string)
    ensures AllDigits(r)
    ensures |r| <= |s|
  {
    if s == [] then []
    else (if IsDigit(s[0]) then [s[0]] else []) + NormalizePhone(s[1..])
  }

  /** The transform keeps every digit, as many times as it occurs, and nothing else. */
  lemma {:induction false} NormalizePhoneCounts(s: string)
    ensures forall c :: multiset(NormalizePhone(s))[c] == if IsDigit(c) then multiset(s)[c] else 0
  {
    if s != [] {
      NormalizePhoneCounts(s[1..]);
      assert s == [s[0]] + s[1..];
    }
  }

  /** Normalising works piecewise, so the digits keep their original order. */
  lemma {:induction false} NormalizePhoneConcat(a: string, b: string)
    ensures NormalizePhone(a + b) == NormalizePhone(a) + NormalizePhone(b)
  {
    if a == [] {
      assert a + b == b;
    } else {
      assert (a + b)[0] == a[0] && (a + b)[1..] == a[1..] + b;
      NormalizePhoneConcat(a[1..], b);
    }
  }

  /** A string is left unchanged by the transform exactly when it is all digits. */
  lemma {:induction false} NormalizePhoneFixedPoint(s: string)
    ensures NormalizePhone(s) == s <==> AllDigits(s)
  {
    if s != [] && AllDigits(s) {
      assert AllDigits(s[1..]);
      NormalizePhoneFixedPoint(s[1..]);
    }
  }

  /** Normalising a normalised phone changes nothing. */
  lemma NormalizePhoneIdempotent(s: string)
    ensures NormalizePhone(NormalizePhone(s)) == NormalizePhone(s)
  {
    NormalizePhoneFixedPoint(NormalizePhone(s));
  }

  /** The check on `name`: a string of at least one character. */
  function CheckName(v: Option<Value>): (r: Result<string, Issue>)
    ensures r.Success? <==> v.Some? && v.value.Str? && v.value.s != ""
    ensures r.Success? ==> v == Some(Str(r.value))
    ensures r.Failure? && v.Some? && v.value.Str? ==> r.error == NameEmpty
    ensures r.Failure? && !(v.Some? && v.value.Str?) ==> r.error.NotAString? && r.error.field == Name
  {
    match v
    case None => Failure(NotAString(Name, None))
    case Some(NonString(t)) => Failure(NotAString(Name, Some(t)))
    case Some(Str(s)) => if |s| >= 1 then Success(s) else Failure(NameEmpty)
  }

  /** The check on `email`: a string accepted by the library's email-format test `isEmail`. */
  function CheckEmail(v: Option<Value>, isEmail: string -> bool): (r: Result<string, Issue>)
    ensures r.Success? <==> v.Some? && v.value.Str? && isEmail(v.value.s)
    ensures r.Success? ==> v == Some(Str(r.value))
    ensures r.Failure? && v.Some? && v.value.Str? ==> r.error == EmailInvalid
    ensures r.Failure? && !(v.Some? && v.value.Str?) ==> r.error.NotAString? && r.error.field == Email
  {
    match v
    case None => Failure(NotAString(Email, None))
    case Some(NonString(t)) => Failure(NotAString(Email, Some(t)))
    case Some(Str(s)) => if isEmail(s) then Success(s) else Failure(EmailInvalid)
  }

  /** The check on `phone`: a string, normalised, then required to hold at least seven digits. */
  function CheckPhone(v: Option<Value>): (r: Result<string, Issue>)
    ensures v.Some? && v.value.Str? ==>
      (r.Success? <==> |NormalizePhone(v.value.s)| >= MIN_PHONE_DIGITS)
    ensures r.Success? ==> v.Some? && v.value.Str? && r.value == NormalizePhone(v.value.s)
    ensures r.Success? ==> AllDigits(r.value) && |r.value| >= MIN_PHONE_DIGITS
    ensures r.Failure? && v.Some? && v.value.Str? ==> r.error == PhoneTooShort
    ensures r.Failure? && !(v.Some? && v.value.Str?) ==> r.error.NotAString? && r.error.field == Phone
  {
    match v
    case None => Failure(NotAString(Phone, None))
    case Some(NonString(t)) => Failure(NotAString(Phone, Some(t)))
    case Some(Str(s)) =>
      var digits := NormalizePhone(s);
      if |digits| >= MIN_PHONE_DIGITS then Success(digits) else Failure(PhoneTooShort)
  }

  /** The issue a field check raised, if any, as a list of at most one. */
  function IssuesOf<T>(r: Result<T, Issue>): seq<Issue> {
    if r.Failure? then [r.error] else []
  }

  /** The position, in the schema's key order, of the key an issue is about; a body that is not an object is about none of them. */
  function KeyIndex(issue: Issue): nat {
    match issue
    case NotAnObject(_) => 0
    case NotAString(Name, _) => 0
    case NotAString(Email, _) => 1
    case NotAString(Phone, _) => 2
    case NameEmpty => 0
    case EmailInvalid => 1
    case PhoneTooShort => 2
  }

  /**
   * Every issue the schema finds, in key order: name, email, phone. A
   * failing check puts its issue in the list, and every issue in the list
   * comes from a failing check.
   */
  function SchemaIssues(input: Input, isEmail: string -> bool): (issues: seq<Issue>)
    ensures |issues| <= 3
    ensures input.NonObject? ==> issues == [NotAnObject(input.jsonType)]
    ensures input.Object? ==>
      forall i, j :: 0 <= i < j < |issues| ==> KeyIndex(issues[i]) < KeyIndex(issues[j])
    ensures input.Object? ==>
      && (CheckName(input.name).Failure? ==> CheckName(input.name).error in issues)
      && (CheckEmail(input.email, isEmail).Failure? ==> CheckEmail(input.email, isEmail).error in issues)
      && (CheckPhone(input.phone).Failure? ==> CheckPhone(input.phone).error in issues)
    ensures input.Object? ==>
      forall i :: 0 <= i < |issues| ==>
        || (CheckName(input.name).Failure? && issues[i] == CheckName(input.name).error)
        || (CheckEmail(input.email, isEmail).Failure? && issues[i] == CheckEmail(input.email, isEmail).error)
        || (CheckPhone(input.phone).Failure? && issues[i] == CheckPhone(input.phone).error)
  {
    match input
    case NonObject(t) => [NotAnObject(t)]
    case Object(name, email, phone) =>
      IssuesOf(CheckName(name)) + IssuesOf(CheckEmail(email, isEmail)) + IssuesOf(CheckPhone(phone))
  }

  /** Validation: the lead when no field fails, otherwise every issue found. */
  function SafeParse(input: Input, isEmail: string -> bool): (r: Result<Lead, seq<Issue>>)
    ensures r.Failure? <==> SchemaIssues(input, isEmail) != []
    ensures r.Failure? ==> r.error == SchemaIssues(input, isEmail)
    ensures r.Success? ==>
      && input.Object?
      && CheckName(input.name) == Success(r.value.name)
      && CheckEmail(input.email, isEmail) == Success(r.value.email)
      && CheckPhone(input.phone) == Success(r.value.phone)
  {
    match input
    case NonObject(_) => Failure(SchemaIssues(input, isEmail))
    case Object(name, email, phone) =>
      match (CheckName(name), CheckEmail(email, isEmail), CheckPhone(phone))
      case (Success(n), Success(e), Success(p)) => Success(Lead(n, e, p))
      case _ => Failure(SchemaIssues(input, isEmail))
  }

  /** The message of an issue; the library words the type failures itself, `typeMessage` stands for it. */
  function Message(issue: Issue, typeMessage: Issue -> string): string {
    match issue
    case NameEmpty => NAME_REQUIRED
    case EmailInvalid => EMAIL_INVALID
    case PhoneTooShort => PHONE_TOO_SHORT
    case _ => typeMessage(issue)
  }

  /** The three messages the schema words itself are distinct, so the reported text tells which rule failed. */
  lemma FixedMessagesIdentifyIssue(a: Issue, b: Issue, typeMessage: Issue -> string)
    requires a == NameEmpty || a == EmailInvalid || a == PhoneTooShort
    requires b == NameEmpty || b == EmailInvalid || b == PhoneTooShort
    requires Message(a, typeMessage) == Message(b, typeMessage)
    ensures a == b
  {
    assert |NAME_REQUIRED| == 16 && |EMAIL_INVALID| == 34 && |PHONE_TOO_SHORT| == 38;
  }

  /** The error text the handler returns: the first issue's message, or a fallback when there is none or it is empty. */
  function FirstMessage(issues: seq<Issue>, typeMessage: Issue -> string): (m: string)
    ensures m != []
    ensures issues != [] && Message(issues[0], typeMessage) != [] ==> m == Message(issues[0], typeMessage)
    ensures issues == [] || Message(issues[0], typeMessage) == "" ==> m == "Validation error"
  {
    if issues == [] || Message(issues[0], typeMessage) == "" then "Validation error"
    else Message(issues[0], typeMessage)
  }

  /** The first issue reported is that of the first failing field, in the order name, email, phone. */
  lemma FirstFailingFieldWins(name: Option<Value>, email: Option<Value>, phone: Option<Value>, isEmail: string -> bool)
    ensures var issues := SchemaIssues(Object(name, email, phone), isEmail);
      && (CheckName(name).Failure? ==>
            issues[0] == CheckName(name).error)
      && (CheckName(name).Success? && CheckEmail(email, isEmail).Failure? ==>
            issues[0] == CheckEmail(email, isEmail).error)
      && (CheckName(name).Success? && CheckEmail(email, isEmail).Success? && CheckPhone(phone).Failure? ==>
            issues[0] == CheckPhone(phone).error)
      && (issues == [] <==>
            CheckName(name).Success? && CheckEmail(email, isEmail).Success? && CheckPhone(phone).Success?)
  {
  }

  /** A submission is valid exactly when the name is non-empty, the email passes and the phone has seven digits or more. */
  lemma ValidExactly(input: Input, isEmail: string -> bool)
    ensures SafeParse(input, isEmail).Success? <==>
      && input.Object?
      && input.name.Some? && input.name.value.Str? && |input.name.value.s| >= 1
      && input.email.Some? && input.email.value.Str? && isEmail(input.email.value.s)
      && input.phone.Some? && input.phone.value.Str?
      && |NormalizePhone(input.phone.value.s)| >= MIN_PHONE_DIGITS
    ensures SafeParse(input, isEmail).Success? ==>
      SafeParse(input, isEmail).value ==
        Lead(input.name.value.s, input.email.value.s, NormalizePhone(input.phone.value.s))
  {
  }

  /** A formatted phone passes once its punctuation is stripped. */
  lemma FormattedPhoneAccepted(phone: string)
    requires phone == "(555) 123-4567"
    ensures CheckPhone(Some(Str(phone))) == Success("5551234567")
  {
    assert phone == "(" + "555" + ") " + "123" + "-" + "4567";
    FormattedPhoneNormalized(phone);
    assert "555" + "123" + "4567" == "5551234567";
  }

  /** Stripping a formatted phone leaves its ten digits. */
  lemma FormattedPhoneNormalized(phone: string)
    requires phone == "(" + "555" + ") " + "123" + "-" + "4567"
    ensures NormalizePhone(phone) == "555" + "123" + "4567"
  {
    NormalizePhoneFixedPoint("4567");
    NormalizePhoneFixedPoint("123");
    NormalizePhoneFixedPoint("555");
    NormalizePhoneConcat("(" + "555" + ") " + "123" + "-", "4567");
    NormalizePhoneConcat("(" + "555" + ") " + "123", "-");
    NormalizePhoneConcat("(" + "555" + ") ", "123");
    NormalizePhoneConcat("(" + "555", ") ");
    NormalizePhoneConcat("(", "555");
  }

  /** A three-digit phone fails with the digit-count message, whatever the other fields hold. */
  lemma ShortPhoneRejected(name: Option<Value>, email: Option<Value>, isEmail: string -> bool, typeMessage: Issue -> string)
    ensures CheckPhone(Some(Str("123"))) == Failure(PhoneTooShort)
    ensures PhoneTooShort in SchemaIssues(Object(name, email, Some(Str("123"))), isEmail)
    ensures Message(PhoneTooShort, typeMessage) == "Phone number must be at least 7 digits"
  {
    NormalizePhoneFixedPoint("123");
  }

  /** An empty name is reported before a bad email and a short phone. */
  lemma EmptyNameReportedFirst(isEmail: string -> bool, typeMessage: Issue -> string)
    ensures var issues := SchemaIssues(Object(Some(Str("")), Some(Str("bad")), Some(Str("1"))), isEmail);
      FirstMessage(issues, typeMessage) == "Name is required"
  {
  }
}
