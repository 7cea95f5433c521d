/** The logic of the three-step registration wizard (app/registerScreen.jsx):
    the check of each step, the step counter moved by the Continue and Back
    buttons, the payload the last step submits, and the edit handler that
    clears a server error reported for the edited field. */
module RegisterScreen {
  import opened Wrappers
  import Text
  import UserModel

  datatype Field = StoreName | Proprietor | Email | Phone | Address | Password | ConfirmPassword

  /** The field's key in `formData`, which the server's `errorField` names. */
  function FieldName(f: Field): string {
    match f
    case StoreName => "storeName"
    case Proprietor => "proprietor"
    case Email => "email"
    case Phone => "phone"
    case Address => "address"
    case Password => "password"
    case ConfirmPassword => "confirmPassword"
  }

  /** Different fields have different keys. */
  lemma FieldNamesDistinct(f: Field, g: Field)
    requires f != g
    ensures FieldName(f) != FieldName(g)
  {
  }

  datatype RegisterForm = RegisterForm(
    storeName: string, proprietor: string, email: string, phone: string,
    address: string, password: string, confirmPassword: string)

  const EmptyForm: RegisterForm := RegisterForm("", "", "", "", "", "", "")

  function Get(form: RegisterForm, f: Field): string {
    match f
    case StoreName => form.storeName
    case Proprietor => form.proprietor
    case Email => form.email
    case Phone => form.phone
    case Address => form.address
    case Password => form.password
    case ConfirmPassword => form.confirmPassword
  }

  /** `{ ...prev, [name]: value }`. */
  function Set(form: RegisterForm, f: Field, value: string): (r: RegisterForm)
    ensures Get(r, f) == value
    ensures forall g | g != f :: Get(r, g) == Get(form, g)
  {
    match f
    case StoreName => form.(storeName := value)
    case Proprietor => form.(proprietor := value)
    case Email => form.(email := value)
    case Phone => form.(phone := value)
    case Address => form.(address := value)
    case Password => form.(password := value)
    case ConfirmPassword => form.(confirmPassword := value)
  }

  /** `REGISTRATION_STEPS.length`. */
  const StepCount: int := 3

  /** `validateStep`: step 1 needs a store name and a proprietor, step 2 an
      email and a phone, step 3 a password typed the same twice; each text
      must be non-blank. No other step is valid. */
  predicate ValidateStep(step: int, form: RegisterForm) {
    if step == 1 then Text.Trim(form.storeName) != [] && Text.Trim(form.proprietor) != []
    else if step == 2 then Text.Trim(form.email) != [] && Text.Trim(form.phone) != []
    else if step == 3 then Text.Trim(form.password) != [] && form.password == form.confirmPassword
    else false
  }

  /** The fields the check of a step reads. The address, listed among the
      step-2 fields, is never checked. */
  function CheckedFields(step: int): set<Field> {
    if step == 1 then {StoreName, Proprietor}
    else if step == 2 then {Email, Phone}
    else if step == 3 then {Password, ConfirmPassword}
    else {}
  }

  /** Editing a field a step does not check leaves that step's verdict. */
  lemma ValidateStepReadsOnlyChecked(step: int, form: RegisterForm, f: Field, value: string)
    requires f !in CheckedFields(step)
    ensures ValidateStep(step, Set(form, f, value)) == ValidateStep(step, form)
  {
    var g := Set(form, f, value);
    if step == 1 {
      assert Get(g, StoreName) == Get(form, StoreName) && Get(g, Proprietor) == Get(form, Proprietor);
    } else if step == 2 {
      assert Get(g, Email) == Get(form, Email) && Get(g, Phone) == Get(form, Phone);
    } else if step == 3 {
      assert Get(g, Password) == Get(form, Password) && Get(g, ConfirmPassword) == Get(form, ConfirmPassword);
    }
  }

  /** The Continue button: shown while `step < REGISTRATION_STEPS.length`, and
      disabled while the step is invalid or a request is loading; pressing it
      runs `nextStep`, which advances one step. */
  function Continue(step: int, form: RegisterForm, loading: bool): (r: int)
    ensures r == step + 1 <==> step < StepCount && ValidateStep(step, form) && !loading
    ensures r != step + 1 ==> r == step
    ensures 1 <= step <= StepCount ==> 1 <= r <= StepCount
  {
    if step < StepCount && ValidateStep(step, form) && !loading then step + 1 else step
  }

  /** The Back button: shown only while `step > 1`; pressing it runs
      `prevStep`, which goes back one step. */
  function Back(step: int): (r: int)
    ensures step > 1 ==> r == step - 1
    ensures step <= 1 ==> r == step
    ensures 1 <= step <= StepCount ==> 1 <= r <= StepCount
  {
    if step > 1 then step - 1 else step
  }

  /** Going back after a step forward returns to the step it came from. */
  lemma BackUndoesContinue(step: int, form: RegisterForm, loading: bool)
    requires 1 <= step && Continue(step, form, loading) == step + 1
    ensures Back(Continue(step, form, loading)) == step
  {
  }

  /** From the first step, two presses of Continue reach the last step
      exactly when the first two steps are valid. */
  lemma TwoContinuesReachSecurity(form: RegisterForm)
    ensures Continue(Continue(1, form, false), form, false) == StepCount <==> ValidateStep(1, form) && ValidateStep(2, form)
  {
  }

  /** The body `handleSubmit` sends to `register`: the form without
      `confirmPassword`, with the role `user`. */
  datatype Registration = Registration(
    storeName: string, proprietor: string, email: string, phone: string,
    address: string, role: string, password: string)

  function Payload(form: RegisterForm): (r: Registration)
    ensures r.storeName == form.storeName && r.proprietor == form.proprietor && r.email == form.email
    ensures r.phone == form.phone && r.address == form.address && r.password == form.password
    ensures UserModel.ParseRole(r.role) == Some(UserModel.UserRole)
  {
    Registration(form.storeName, form.proprietor, form.email, form.phone, form.address, "user", form.password)
  }

  /** `handleSubmit`: nothing is sent while the current step is invalid. */
  function Submit(step: int, form: RegisterForm): (r: Option<Registration>)
    ensures r.Some? <==> ValidateStep(step, form)
    ensures r.Some? ==> r.value == Payload(form)
  {
    if ValidateStep(step, form) then Some(Payload(form)) else None
  }

  /** What is submitted from the last step has a non-blank password that was
      confirmed; the confirmation itself is not sent. */
  lemma SubmittedPasswordConfirmed(form: RegisterForm)
    requires Submit(StepCount, form).Some?
    ensures Text.Trim(Submit(StepCount, form).value.password) != []
    ensures Submit(StepCount, form).value.password == form.confirmPassword
  {
  }

  class RegisterWizard {
    var step: int
    var form: RegisterForm
    var error: Option<string>
    var errorField: Option<string>

    /** The counter stays on one of the three steps. */
    predicate Valid()
      reads this
    {
      1 <= step <= StepCount
    }

    constructor ()
      ensures Valid() && step == 1 && form == EmptyForm && error == None && errorField == None
    {
      step := 1;
      form := EmptyForm;
      error := None;
      errorField := None;
    }

    /** `nextStep` itself: advances when the current step is valid, whatever
        step it is on. */
    method NextStep()
      modifies this
      ensures step == if ValidateStep(old(step), form) then old(step) + 1 else old(step)
      ensures form == old(form) && error == old(error) && errorField == old(errorField)
    {
      if !ValidateStep(step, form) {
        return;
      }
      step := step + 1;
    }

    /** `prevStep` itself: goes back one step. */
    method PrevStep()
      modifies this
      ensures step == old(step) - 1
      ensures form == old(form) && error == old(error) && errorField == old(errorField)
    {
      step := step - 1;
    }

    /** Pressing Continue, which is only shown before the last step. */
    method PressContinue(loading: bool)
      requires Valid()
      modifies this
      ensures Valid()
      ensures step == Continue(old(step), form, loading)
      ensures form == old(form) && error == old(error) && errorField == old(errorField)
    {
      if step < StepCount && ValidateStep(step, form) && !loading {
        NextStep();
      }
    }

    /** Pressing Back, which is only shown after the first step. */
    method PressBack()
      requires Valid()
      modifies this
      ensures Valid()
      ensures step == Back(old(step))
      ensures form == old(form) && error == old(error) && errorField == old(errorField)
    {
      if step > 1 {
        PrevStep();
      }
    }

    /** Pressing Complete, shown on the last step and disabled while the step
        is invalid or a request is loading: the payload the request sends. */
    method PressComplete(loading: bool) returns (sent: Option<Registration>)
      requires Valid()
      ensures sent.Some? <==> step == StepCount && !loading && ValidateStep(step, form)
      ensures sent.Some? ==> sent == Submit(step, form)
    {
      if step == StepCount && !loading {
        sent := Submit(step, form);
      } else {
        sent := None;
      }
    }

    /** The error the authentication state reports is copied in, with the
        field it names. */
    method ReportError(message: Option<string>, field: Option<string>)
      modifies this
      ensures message.Some? && message.value != [] ==> error == message && errorField == field
      ensures message.None? || message.value == [] ==> error == old(error) && errorField == old(errorField)
      ensures step == old(step) && form == old(form)
    {
      if message.Some? && message.value != [] {
        error := message;
        errorField := field;
      }
    }

    /** `handleChange`: stores the value, and clears the error only when it
        was reported for this very field. */
    method HandleChange(f: Field, value: string)
      modifies this
      ensures form == Set(old(form), f, value) && step == old(step)
      ensures old(errorField) == Some(FieldName(f)) ==> error == None && errorField == None
      ensures old(errorField) != Some(FieldName(f)) ==> error == old(error) && errorField == old(errorField)
    {
      form := Set(form, f, value);
      if errorField == Some(FieldName(f)) {
        error := None;
        errorField := None;
      }
    }
  }
}
