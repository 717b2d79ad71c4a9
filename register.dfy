/**
 * The registration screen (`src/screens/RegisterScreen.tsx`): a form that is validated
 * field by field, an NPK availability check that must run before registering, and the
 * cascading company/plant pickers.
 */
module Register {
  import opened Wrappers
  import opened JsString
  import opened Records

  /** The keys of the registration form. */
  datatype Field = UserId | Password | Name | Company | Plant | BuCode | Email

  function Get(form: RegistrationData, f: Field): string {
    match f
    case UserId => form.userId
    case Password => form.password
    case Name => form.name
    case Company => form.company
    case Plant => form.plant
    case BuCode => form.buCode
    case Email => form.email
  }

  /** `{ ...prev, [field]: value }`: the named field takes the value and every other
      field keeps its own. */
  function With(form: RegistrationData, f: Field, v: string): (r: RegistrationData)
    ensures Get(r, f) == v
    ensures forall g :: g != f ==> Get(r, g) == Get(form, g)
  {
    match f
    case UserId => form.(userId := v)
    case Password => form.(password := v)
    case Name => form.(name := v)
    case Company => form.(company := v)
    case Plant => form.(plant := v)
    case BuCode => form.(buCode := v)
    case Email => form.(email := v)
  }

  const EmptyForm := RegistrationData("", "", "", "", "", "", "")

  /** The reasons `handleRegister` refuses to send the form, one per check. */
  datatype RegisterError =
    | MissingUserId | MissingPassword | PasswordMismatch | MissingName
    | MissingCompany | MissingPlant | MissingBuCode | NpkNotChecked | NpkTaken

  /** The position of a check in the order `handleRegister` runs them. */
  function Rank(e: RegisterError): nat {
    match e
    case MissingUserId => 0
    case MissingPassword => 1
    case PasswordMismatch => 2
    case MissingName => 3
    case MissingCompany => 4
    case MissingPlant => 5
    case MissingBuCode => 6
    case NpkNotChecked => 7
    case NpkTaken => 8
  }

  /** Whether the check that reports `e` rejects the form. User id, password, name and
      BU code are tested after trimming; the company and plant pickers only against the
      empty string; the password and its confirmation are compared untrimmed. */
  predicate Fails(e: RegisterError, form: RegistrationData, confirm: string, npkExists: Option<bool>) {
    match e
    case MissingUserId => IsBlank(form.userId)
    case MissingPassword => IsBlank(form.password)
    case PasswordMismatch => form.password != confirm
    case MissingName => IsBlank(form.name)
    case MissingCompany => form.company == ""
    case MissingPlant => form.plant == ""
    case MissingBuCode => IsBlank(form.buCode)
    case NpkNotChecked => npkExists == None
    case NpkTaken => npkExists == Some(true)
  }

  /** The validation of `handleRegister`: the first failing check in order, or `None`
      when the form may be sent. */
  function Validate(form: RegistrationData, confirm: string, npkExists: Option<bool>): (r: Option<RegisterError>)
    ensures r.Some? ==> Fails(r.value, form, confirm, npkExists)
    ensures r.Some? ==> forall e :: Rank(e) < Rank(r.value) ==> !Fails(e, form, confirm, npkExists)
    ensures r.None? ==> forall e :: !Fails(e, form, confirm, npkExists)
  {
    if IsBlank(form.userId) then Some(MissingUserId)
    else if IsBlank(form.password) then Some(MissingPassword)
    else if form.password != confirm then Some(PasswordMismatch)
    else if IsBlank(form.name) then Some(MissingName)
    else if form.company == "" then Some(MissingCompany)
    else if form.plant == "" then Some(MissingPlant)
    else if IsBlank(form.buCode) then Some(MissingBuCode)
    else if npkExists == None then Some(NpkNotChecked)
    else if npkExists == Some(true) then Some(NpkTaken)
    else None
  }

  /** A form that passes has a user id, a password equal to its confirmation, and an
      NPK that was checked and found free. */
  lemma AcceptedFormIsChecked(form: RegistrationData, confirm: string, npkExists: Option<bool>)
    requires Validate(form, confirm, npkExists) == None
    ensures !IsBlank(form.userId) && !IsBlank(form.password) && form.password == confirm
    ensures !IsBlank(form.name) && !IsBlank(form.buCode)
    ensures form.company != "" && form.plant != ""
    ensures npkExists == Some(false)
  {
    assert !Fails(NpkNotChecked, form, confirm, npkExists);
    assert !Fails(NpkTaken, form, confirm, npkExists);
    assert !Fails(MissingUserId, form, confirm, npkExists);
    assert !Fails(MissingPassword, form, confirm, npkExists);
    assert !Fails(PasswordMismatch, form, confirm, npkExists);
    assert !Fails(MissingName, form, confirm, npkExists);
    assert !Fails(MissingBuCode, form, confirm, npkExists);
    assert !Fails(MissingCompany, form, confirm, npkExists);
    assert !Fails(MissingPlant, form, confirm, npkExists);
    assert npkExists.Some? && npkExists.value != true;
  }

  /** The e-mail field is optional: it never decides the outcome. */
  lemma EmailIsOptional(form: RegistrationData, confirm: string, npkExists: Option<bool>, email: string)
    ensures Validate(form.(email := email), confirm, npkExists) == Validate(form, confirm, npkExists)
  {
  }

  /** A name of one space is refused, but a company code of one space passes the
      company check: only the typed fields are trimmed. */
  lemma TrimmedAgainstUntrimmed(form: RegistrationData, confirm: string, npkExists: Option<bool>)
    requires form.name == " " && form.company == " "
    ensures Fails(MissingName, form, confirm, npkExists)
    ensures !Fails(MissingCompany, form, confirm, npkExists)
  {
    assert IsWhitespace(' ');
    assert TrimStart(" ") == TrimStart(" "[1..]);
    assert " "[1..] == [];
  }

  /** The result of the NPK check as the screen reports it. */
  datatype NpkCheck =
    | NotAsked      // blank user id: no request
    | NoAnswer      // the request failed; nothing changes
    | Available     // the NPK is free
    | Existing      // the NPK is taken: the dialog offers to update the role instead

  /** The result of pressing Register. */
  datatype RegisterOutcome = Rejected(error: RegisterError) | Registered | NotRegistered

  class RegisterScreen {
    var form: RegistrationData
    var confirmPassword: string
    var companies: seq<Company>
    var plants: seq<Plant>
    var loading: bool
    var loadingCompanies: bool
    var loadingPlants: bool
    /** `null` until the NPK of the current user id has been checked. */
    var npkExists: Option<bool>
    var checkingNpk: bool

    constructor ()
      ensures form == EmptyForm && confirmPassword == ""
      ensures companies == [] && plants == []
      ensures !loading && !loadingCompanies && !loadingPlants && !checkingNpk
      ensures npkExists == None
    {
      form := EmptyForm;
      confirmPassword := "";
      companies := [];
      plants := [];
      loading := false;
      loadingCompanies := false;
      loadingPlants := false;
      npkExists := None;
      checkingNpk := false;
    }

    /** `loadCompanies`, run when the screen mounts: a successful reply with data
        replaces the list; anything else keeps it. */
    method LoadCompanies(reply: Reply<seq<Company>>)
      modifies this`companies, this`loadingCompanies
      ensures companies == (if reply.success && reply.data.Some? then reply.data.value else old(companies))
      ensures !loadingCompanies
    {
      loadingCompanies := true;
      if reply.success && reply.data.Some? {
        companies := reply.data.value;
      }
      loadingCompanies := false;
    }

    /** `loadPlants` for the selected company. */
    method LoadPlants(reply: Reply<seq<Plant>>)
      modifies this`plants, this`loadingPlants
      ensures plants == (if reply.success && reply.data.Some? then reply.data.value else old(plants))
      ensures !loadingPlants
    {
      loadingPlants := true;
      if reply.success && reply.data.Some? {
        plants := reply.data.value;
      }
      loadingPlants := false;
    }

    /** The effect that runs whenever the company changes: a selected company loads its
        plants (the company code asked for is returned); no company empties the plant
        list and the plant choice. */
    method CompanyChanged(reply: Reply<seq<Plant>>) returns (requested: Option<string>)
      modifies this`plants, this`loadingPlants, this`form
      ensures old(form.company) != "" ==> requested == Some(old(form.company)) && form == old(form)
      ensures old(form.company) != "" ==>
        plants == (if reply.success && reply.data.Some? then reply.data.value else old(plants))
      ensures old(form.company) == "" ==> requested == None && plants == [] && form == old(form).(plant := "")
      ensures old(form.company) == "" ==> loadingPlants == old(loadingPlants)
      ensures old(form.company) != "" ==> !loadingPlants
    {
      if form.company != "" {
        requested := Some(form.company);
        LoadPlants(reply);
      } else {
        requested := None;
        plants := [];
        form := form.(plant := "");
      }
    }

    /** `updateFormData`: set one field; editing the user id forgets the NPK check. */
    method UpdateFormData(f: Field, v: string)
      modifies this`form, this`npkExists
      ensures form == With(old(form), f, v)
      ensures npkExists == (if f == UserId then None else old(npkExists))
    {
      form := With(form, f, v);
      if f == UserId {
        npkExists := None;
      }
    }

    method SetConfirmPassword(v: string)
      modifies this`confirmPassword
      ensures confirmPassword == v
    {
      confirmPassword := v;
    }

    /** `handleCheckNpk`: a blank user id is refused without a request; otherwise the
        user id is sent as typed, a successful reply records whether the NPK is taken
        and a failed one changes nothing. */
    method HandleCheckNpk(reply: Reply<string>) returns (sent: Option<string>, result: NpkCheck)
      modifies this`npkExists, this`checkingNpk
      ensures sent == (if IsBlank(form.userId) then None else Some(form.userId))
      ensures IsBlank(form.userId) ==> result == NotAsked && npkExists == old(npkExists)
      ensures IsBlank(form.userId) ==> checkingNpk == old(checkingNpk)
      ensures !IsBlank(form.userId) && !reply.success ==> result == NoAnswer && npkExists == old(npkExists)
      ensures !IsBlank(form.userId) && reply.success ==>
        npkExists == Some(reply.data == Some("userExisted"))
        && result == (if reply.data == Some("userExisted") then Existing else Available)
      ensures !IsBlank(form.userId) ==> !checkingNpk
    {
      if IsBlank(form.userId) {
        return None, NotAsked;
      }
      checkingNpk := true;
      sent := Some(form.userId);
      if reply.success {
        if reply.data == Some("userExisted") {
          npkExists := Some(true);
          result := Existing;
        } else {
          npkExists := Some(false);
          result := Available;
        }
      } else {
        result := NoAnswer;
      }
      checkingNpk := false;
    }

    /** `handleUpdateRole`, offered when the NPK is taken: sends the user id and reports
        success only for the reply `updated`, which moves the app back to the login. */
    method HandleUpdateRole(reply: Reply<string>) returns (sent: string, updated: bool)
      modifies this`loading
      ensures sent == form.userId
      ensures updated <==> reply.success && reply.data == Some("updated")
      ensures !loading
    {
      loading := true;
      sent := form.userId;
      updated := reply.success && reply.data == Some("updated");
      loading := false;
    }

    /** `handleRegister`: the checks run in order and the first that fails is reported
        with nothing sent; a form that passes them is sent as typed, e-mail included,
        and only the reply `addedNewUser` counts as a
        registration. */
    method HandleRegister(reply: Reply<string>) returns (sent: Option<RegistrationData>, outcome: RegisterOutcome)
      modifies this`loading
      ensures Validate(form, confirmPassword, npkExists).Some? ==>
        sent == None && outcome == Rejected(Validate(form, confirmPassword, npkExists).value)
        && loading == old(loading)
      ensures Validate(form, confirmPassword, npkExists).None? ==>
        sent == Some(form) && outcome == (if reply.success && reply.data == Some("addedNewUser") then Registered else NotRegistered)
        && !loading
    {
      if IsBlank(form.userId) { return None, Rejected(MissingUserId); }
      if IsBlank(form.password) { return None, Rejected(MissingPassword); }
      if form.password != confirmPassword { return None, Rejected(PasswordMismatch); }
      if IsBlank(form.name) { return None, Rejected(MissingName); }
      if form.company == "" { return None, Rejected(MissingCompany); }
      if form.plant == "" { return None, Rejected(MissingPlant); }
      if IsBlank(form.buCode) { return None, Rejected(MissingBuCode); }
      if npkExists == None { return None, Rejected(NpkNotChecked); }
      if npkExists == Some(true) { return None, Rejected(NpkTaken); }
      loading := true;
      sent := Some(form);
      if reply.success && reply.data == Some("addedNewUser") {
        outcome := Registered;
      } else {
        outcome := NotRegistered;
      }
      loading := false;
    }
  }
}
