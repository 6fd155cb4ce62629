/**
 * The profile page: the name schema, loading the stored name, and saving it.
 * The profile table is not part of the model; what the fetch returned and
 * whether the update failed are parameters.
 */
module ProfilePage {
  import opened Wrappers
  import opened Text
  import opened Schema
  import AuthPage

  const TooShort := "Nome deve ter no mínimo 2 caracteres"

  /** The profile's name checks: the sign-up ones, but with the letters pattern
      written `^[...]*$`, which also matches the empty string. */
  const ProfileChecks := [
    MinLength(2, TooShort),
    MaxLength(100, "Nome deve ter no máximo 100 caracteres"),
    Chars(AuthPage.IsNameChar, true, AuthPage.OnlyLetters)]

  /** `profileSchema.safeParse`. Although its pattern admits the empty string,
      the length bound does not, so it accepts exactly the names sign-up accepts. */
  function ProfileIssues(fullName: string): (r: seq<Issue>)
    ensures r == [] <==> AuthPage.NameAccepted(fullName)
    ensures r == [] <==> AuthPage.NameIssues(fullName) == []
    ensures forall k :: 0 <= k < |r| ==> r[k].path == "fullName"
  {
    var n := Trim(fullName);
    var ef := NoEmailCheck;
    assert Passes(ProfileChecks[0], n, ef) <==> Utf16Length(n) >= 2;
    assert Passes(ProfileChecks[1], n, ef) <==> Utf16Length(n) <= 100;
    assert Passes(ProfileChecks[2], n, ef) <==> AllIn(n, AuthPage.IsNameChar);
    FieldIssues("fullName", n, ProfileChecks, ef)
  }

  /** A blank name raises only the length issue here, where sign-up also raises
      the letters issue; the toast shows the length message. */
  lemma BlankNameMessage(fullName: string)
    requires Trim(fullName) == ""
    ensures ProfileIssues(fullName) == [Issue("fullName", TooShort)]
    ensures FirstMessage(ProfileIssues(fullName)) == TooShort
  {
    var cs := ProfileChecks;
    var ef := NoEmailCheck;
    assert Utf16Length("") == 0;
    assert !Passes(cs[0], "", ef) && Passes(cs[1], "", ef) && Passes(cs[2], "", ef);
    assert cs[1..][1..][1..] == [];
    assert FieldIssues("fullName", "", cs[1..][1..], ef) == [];
    assert FieldIssues("fullName", "", cs[1..], ef) == [];
  }

  /** A saved name passes the schema again and saves unchanged. */
  lemma SavedNameIsStable(fullName: string)
    requires ProfileIssues(fullName) == []
    ensures ProfileIssues(Trim(fullName)) == []
    ensures Trim(Trim(fullName)) == Trim(fullName)
  {
    TrimIdempotent(fullName);
  }

  /** What the profile query returned. `Fetched.data` is `None` when no row came
      back, and `Some(None)` when the row's `full_name` is null; `errorCode` is the
      error's code, `None` when there was no error. `Threw` is an exception. */
  datatype FetchResult = Fetched(data: Option<Option<string>>, errorCode: Option<string>) | Threw

  /** The code for "no rows", which is not logged. */
  const NoRows := "PGRST116"

  /** The page's notifications. */
  datatype Notice = Failure(message: string) | Success(message: string)

  class Page {
    var fullName: string
    var loading: bool
    var saving: bool

    constructor()
      ensures fullName == "" && loading && !saving
    {
      fullName, loading, saving := "", true, false;
    }

    /** Typing in the name input. */
    method EditName(name: string)
      modifies this
      ensures fullName == name && loading == old(loading) && saving == old(saving)
    {
      fullName := name;
    }

    /** `fetchProfile`, which runs only with a signed-in user. It returns whether an
        error was logged. A row sets the name, a null name becoming ""; loading
        ends whatever happened. */
    method FetchProfile(signedIn: bool, result: FetchResult) returns (logged: bool)
      modifies this
      ensures !signedIn ==> !logged && fullName == old(fullName) && loading == old(loading)
      ensures signedIn ==> !loading
      ensures signedIn && result.Fetched? ==>
                && (logged <==> result.errorCode.Some? && result.errorCode.value != NoRows)
                && fullName == (if result.data.Some? then result.data.value.GetOr("") else old(fullName))
      ensures signedIn && result.Threw? ==> logged && fullName == old(fullName)
      ensures saving == old(saving)
    {
      if !signedIn {
        return false;
      }
      match result {
        case Threw =>
          logged := true;
        case Fetched(data, errorCode) =>
          logged := errorCode.Some? && errorCode.value != NoRows;
          if data.Some? {
            fullName := data.value.GetOr("");
          }
      }
      loading := false;
    }

    /** `handleSave`. With no user nothing happens. An invalid name shows the first
        issue's message and updates nothing. A valid one is saved trimmed, and
        `saving` is false afterwards whether the update failed or not. The input
        keeps the name as typed. */
    method HandleSave(signedIn: bool, updateFailed: bool) returns (update: Option<string>, notice: Option<Notice>)
      modifies this
      ensures !signedIn ==> update == None && notice == None && saving == old(saving)
      ensures signedIn && ProfileIssues(old(fullName)) != [] ==>
                && update == None && saving == old(saving)
                && notice == Some(Failure(FirstMessage(ProfileIssues(old(fullName)))))
      ensures signedIn && ProfileIssues(old(fullName)) == [] ==>
                && update == Some(Trim(old(fullName))) && !saving
                && notice == Some(if updateFailed then Failure("Erro ao atualizar perfil")
                                  else Success("Perfil atualizado com sucesso!"))
      ensures fullName == old(fullName) && loading == old(loading)
    {
      if !signedIn {
        return None, None;
      }
      var issues := ProfileIssues(fullName);
      if issues != [] {
        return None, Some(Failure(FirstMessage(issues)));
      }
      saving := true;
      update := Some(Trim(fullName));
      if updateFailed {
        notice := Some(Failure("Erro ao atualizar perfil"));
      } else {
        notice := Some(Success("Perfil atualizado com sucesso!"));
      }
      saving := false;
    }
  }

  /** A save that reaches the table always writes a name the schema accepts,
      with no surrounding spaces. */
  method SavedNameAccepted(page: Page, updateFailed: bool) returns (saved: string)
    requires ProfileIssues(page.fullName) == []
    modifies page
    ensures AuthPage.NameAccepted(saved) && Trim(saved) == saved
  {
    SavedNameIsStable(page.fullName);
    var update, notice := page.HandleSave(true, updateFailed);
    saved := update.value;
  }
}
