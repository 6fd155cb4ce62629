/**
 * The "new lead" dialog: its validation schema and the lead record it builds
 * on submit. The created lead's score comes from its status alone.
 */
module LeadForm {
  import opened Wrappers
  import opened Text
  import opened Schema
  import opened Leads
  import LeadCard

  /** The raw form values. `status` is whatever the select holds. */
  datatype FormInput = FormInput(name: string, phone: string, interest: string, status: string, notes: string)

  /** The form's default values. */
  const DefaultInput := FormInput("", "", "", "morno", "")

  /** The phone pattern's class `[\d\s\-()]`. */
  predicate IsPhoneChar(c: char) {
    IsDigit(c) || IsSpace(c) || c == '-' || c == '(' || c == ')'
  }

  const NameChecks := [
    MinLength(2, "Nome deve ter pelo menos 2 caracteres"),
    MaxLength(100, "Nome deve ter no máximo 100 caracteres")]

  const PhoneChecks := [
    MinLength(10, "Telefone deve ter pelo menos 10 dígitos"),
    MaxLength(20, "Telefone deve ter no máximo 20 caracteres"),
    Chars(IsPhoneChar, false, "Telefone deve conter apenas números, espaços e caracteres válidos")]

  const InterestChecks := [
    MinLength(3, "Interesse deve ter pelo menos 3 caracteres"),
    MaxLength(100, "Interesse deve ter no máximo 100 caracteres")]

  const NotesChecks := [MaxLength(500, "Notas devem ter no máximo 500 caracteres")]

  /** The enum issue zod raises for a status outside the three names. */
  function StatusIssues(status: string): seq<Issue> {
    if ParseStatus(status).Some? then []
    else [Issue("status", "Invalid enum value. Expected 'quente' | 'morno' | 'frio', received '" + status + "'")]
  }

  /** The form is accepted when, after trimming, the name has 2..100 characters,
      the phone 10..20 characters all in `[\d\s\-()]`, the interest 3..100,
      the notes at most 500, and the status names one of the three statuses.
      The phone bound counts characters, not digits. */
  predicate Accepts(input: FormInput) {
    var name, phone, interest, notes := Trim(input.name), Trim(input.phone), Trim(input.interest), Trim(input.notes);
    && 2 <= Utf16Length(name) <= 100
    && 10 <= Utf16Length(phone) <= 20 && AllIn(phone, IsPhoneChar)
    && 3 <= Utf16Length(interest) <= 100
    && Utf16Length(notes) <= 500
    && ParseStatus(input.status).Some?
  }

  lemma NameIssuesIff(v: string)
    ensures FieldIssues("name", v, NameChecks, NoEmailCheck) == [] <==> 2 <= Utf16Length(v) <= 100
  {
    assert Passes(NameChecks[0], v, NoEmailCheck) <==> Utf16Length(v) >= 2;
    assert Passes(NameChecks[1], v, NoEmailCheck) <==> Utf16Length(v) <= 100;
  }

  lemma PhoneIssuesIff(v: string)
    ensures FieldIssues("phone", v, PhoneChecks, NoEmailCheck) == [] <==>
              10 <= Utf16Length(v) <= 20 && AllIn(v, IsPhoneChar)
  {
    assert Passes(PhoneChecks[0], v, NoEmailCheck) <==> Utf16Length(v) >= 10;
    assert Passes(PhoneChecks[1], v, NoEmailCheck) <==> Utf16Length(v) <= 20;
    assert Passes(PhoneChecks[2], v, NoEmailCheck) <==> |v| > 0 && AllIn(v, IsPhoneChar);
  }

  lemma InterestIssuesIff(v: string)
    ensures FieldIssues("interest", v, InterestChecks, NoEmailCheck) == [] <==> 3 <= Utf16Length(v) <= 100
  {
    assert Passes(InterestChecks[0], v, NoEmailCheck) <==> Utf16Length(v) >= 3;
    assert Passes(InterestChecks[1], v, NoEmailCheck) <==> Utf16Length(v) <= 100;
  }

  lemma NotesIssuesIff(v: string)
    ensures FieldIssues("notes", v, NotesChecks, NoEmailCheck) == [] <==> Utf16Length(v) <= 500
  {
    assert Passes(NotesChecks[0], v, NoEmailCheck) <==> Utf16Length(v) <= 500;
  }

  /** `leadFormSchema.safeParse`: the issues of all fields, in declaration order. */
  function FormIssues(input: FormInput): (r: seq<Issue>)
    ensures r == [] <==> Accepts(input)
  {
    var name, phone, interest, notes := Trim(input.name), Trim(input.phone), Trim(input.interest), Trim(input.notes);
    NameIssuesIff(name);
    PhoneIssuesIff(phone);
    InterestIssuesIff(interest);
    NotesIssuesIff(notes);
    var a := FieldIssues("name", name, NameChecks, NoEmailCheck);
    var b := FieldIssues("phone", phone, PhoneChecks, NoEmailCheck);
    var c := FieldIssues("interest", interest, InterestChecks, NoEmailCheck);
    var d := StatusIssues(input.status);
    var e := FieldIssues("notes", notes, NotesChecks, NoEmailCheck);
    assert |a + b + c + d + e| == |a| + |b| + |c| + |d| + |e|;
    a + b + c + d + e
  }

  /** `scoreMap`: the score a manually created lead gets for its status. */
  function ScoreFor(s: Status): (score: int)
    ensures s == Quente ==> score == 85
    ensures s == Morno ==> score == 60
    ensures s == Frio ==> score == 35
  {
    match s
    case Quente => 85
    case Morno => 60
    case Frio => 35
  }

  datatype SubmitResult = Created(draft: LeadDraft) | Rejected(issues: seq<Issue>)

  /** Submitting the form: on valid input, `onSubmit` receives the parsed (trimmed)
      values and builds the new lead; otherwise the issues are shown. */
  function Submit(input: FormInput): (r: SubmitResult)
    ensures r.Rejected? <==> !Accepts(input)
    ensures r.Rejected? ==> r.issues == FormIssues(input) && r.issues != []
  {
    if !Accepts(input) then Rejected(FormIssues(input))
    else
      var status := ParseStatus(input.status).value;
      var notes := Trim(input.notes);
      Created(LeadDraft(
        Trim(input.name), Trim(input.phone), ScoreFor(status), status, Some("Agora"),
        Trim(input.interest), Some(if notes == "" then "Lead criado manualmente" else notes), None))
  }

  /** The lead a valid submission builds: the status chosen, the score that
      status maps to, the trimmed fields, contact "Agora", and the notes as its
      history, or a fixed text when they are blank. */
  lemma SubmittedDraft(input: FormInput)
    requires Accepts(input)
    ensures Submit(input).Created?
    ensures var d := Submit(input).draft;
      && Some(d.status) == ParseStatus(input.status)
      && d.score == ScoreFor(d.status)
      && d.name == Trim(input.name) && d.phone == Trim(input.phone) && d.interest == Trim(input.interest)
      && d.lastContact == Some("Agora")
      && d.history == Some(if Trim(input.notes) == "" then "Lead criado manualmente" else Trim(input.notes))
      && d.notes == None
  {
  }

  /** The default status is morno, a valid status. */
  lemma DefaultStatusIsMorno()
    ensures ParseStatus(DefaultInput.status) == Some(Morno)
  {
  }

  /** Every form-created lead's score falls in the lead card's score bucket that
      corresponds to its status: quente 80 and up, morno 60..79, frio below 60. */
  lemma CreatedScoreMatchesCardBucket(input: FormInput)
    requires Submit(input).Created?
    ensures var d := Submit(input).draft;
      LeadCard.ScoreVariantOf(d.score) ==
        match d.status
        case Quente => LeadCard.Success
        case Morno => LeadCard.Warning
        case Frio => LeadCard.HotVariant
  {
  }

  /** The phone bound counts characters: ten or more dashes (up to twenty) pass
      the phone checks although they hold no digit, and the message speaks of
      "dígitos". */
  lemma PhoneNeedsNoDigits(p: string)
    requires 10 <= |p| <= 20 && forall k :: 0 <= k < |p| ==> p[k] == '-'
    ensures forall k :: 0 <= k < |p| ==> !IsDigit(p[k])
    ensures FieldIssues("phone", Trim(p), PhoneChecks, NoEmailCheck) == []
  {
    TrimNoOuterSpace(p);
    PhoneIssuesIff(p);
  }
}
