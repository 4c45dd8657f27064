/**
 * The dashboard's add-user form: five text fields, the per-field validation rules with their
 * messages, editing a field, and the submit handler that posts the form and resets it on success.
 */
module Dashboard {
  import opened Wrappers
  import Text
  import Toasts

  datatype Field = Name | Email | Address | Phone | Age

  datatype FormData = FormData(name: string, email: string, address: string, phone: string, age: string)

  /** The form as it starts and as a successful submit leaves it: every field empty. */
  const EmptyForm: FormData := FormData("", "", "", "", "")

  /** `formData[field]`. */
  function Get(form: FormData, field: Field): string {
    match field
    case Name => form.name
    case Email => form.email
    case Address => form.address
    case Phone => form.phone
    case Age => form.age
  }

  /** `{ ...prev, [field]: value }`: only the named field takes the new value. */
  function WithField(form: FormData, field: Field, value: string): (r: FormData)
    ensures Get(r, field) == value
    ensures forall g :: g != field ==> Get(r, g) == Get(form, g)
  {
    match field
    case Name => form.(name := value)
    case Email => form.(email := value)
    case Address => form.(address := value)
    case Phone => form.(phone := value)
    case Age => form.(age := value)
  }

  /** The messages validation records. */
  datatype Message = Required(field: Field) | EmailIsInvalid | PhoneIsInvalid | AgeNotInRange

  /** The text shown under a field for each message; none is empty, so every entry is truthy. */
  function MessageText(m: Message): (r: string)
    ensures r != []
  {
    match m
    case Required(Name) => "Name is required"
    case Required(Email) => "Email is required"
    case Required(Address) => "Address is required"
    case Required(Phone) => "Phone is required"
    case Required(Age) => "Age is required"
    case EmailIsInvalid => "Email is invalid"
    case PhoneIsInvalid => "Phone number is invalid"
    case AgeNotInRange => "Age must be between 1 and 120"
  }

  /**
   * The test `/\S+@\S+\.\S+/.test(s)`. The pattern is not anchored, so it suffices that `s`
   * contains a non-space, `@`, one or more non-spaces, `.`, and a non-space, side by side.
   * `at` is the position of the `@`, `dot` that of the `.`.
   */
  predicate EmailPattern(s: string) {
    exists at, dot :: 1 <= at && at + 2 <= dot < |s| - 1 && EmailAt(s, at, dot)
  }

  predicate EmailAt(s: string, at: int, dot: int)
    requires 1 <= at && at + 2 <= dot < |s| - 1
  {
    && !Text.IsSpace(s[at - 1]) && s[at] == '@'
    && (forall k :: at < k < dot ==> !Text.IsSpace(s[k]))
    && s[dot] == '.' && !Text.IsSpace(s[dot + 1])
  }

  /** Because the pattern is unanchored, text around a matching address never spoils the match. */
  lemma EmailPatternUnanchored(before: string, s: string, after: string)
    requires EmailPattern(s)
    ensures EmailPattern(before + s + after)
  {
    var at, dot :| 1 <= at && at + 2 <= dot < |s| - 1 && EmailAt(s, at, dot);
    var t := before + s + after;
    var n := |before|;
    assert forall k :: 0 <= k < |s| ==> t[n + k] == s[k];
    assert EmailAt(t, n + at, n + dot);
  }

  /** The test `/^[\d\s\-\+\(\)]+$/.test(s)`: one or more characters, each a digit, white space, `-`, `+`, `(` or `)`. */
  predicate PhonePattern(s: string) {
    |s| > 0 && forall k :: 0 <= k < |s| ==> PhoneChar(s[k])
  }

  predicate PhoneChar(c: char) {
    Text.IsDigit(c) || Text.IsSpace(c) || c == '-' || c == '+' || c == '(' || c == ')'
  }

  /** The value of a string of decimal digits. */
  function DecimalValue(digits: string): nat
    requires forall k :: 0 <= k < |digits| ==> Text.IsDigit(digits[k])
  {
    if digits == [] then 0
    else
      assert Text.IsDigit(digits[|digits| - 1]);
      10 * DecimalValue(digits[..|digits| - 1]) + (digits[|digits| - 1] as int - '0' as int)
  }

  /**
   * `Number(s)` for the ages the model admits: surrounding white space is ignored and what remains
   * must be a non-empty run of decimal digits; anything else is `NaN` (`None`).
   */
  function AgeNumber(s: string): Option<nat> {
    var t := Text.Trim(s);
    if t != [] && forall k :: 0 <= k < |t| ==> Text.IsDigit(t[k]) then Some(DecimalValue(t)) else None
  }

  /** The rule a non-blank value must pass, field by field; name and address only have to be non-blank. */
  predicate FormatOk(field: Field, value: string) {
    match field
    case Name => true
    case Address => true
    case Email => EmailPattern(value)
    case Phone => PhonePattern(value)
    case Age => AgeNumber(value).Some? && 1 <= AgeNumber(value).value <= 120
  }

  /** The message the format rule of a field reports; name and address have no format rule. */
  function FormatMessage(field: Field): Message {
    match field
    case Email => EmailIsInvalid
    case Phone => PhoneIsInvalid
    case Age => AgeNotInRange
    case _ => Required(field)
  }

  /** Empty after trimming. */
  predicate IsBlank(value: string) {
    Text.Trim(value) == []
  }

  /**
   * The rule set for one field: a blank value gets the "required" message, which takes
   * precedence over the format rule; a non-blank value that breaks its format rule gets the
   * format message; any other value has no error.
   */
  function FieldError(field: Field, value: string): (r: Option<Message>)
    ensures r.None? <==> !IsBlank(value) && FormatOk(field, value)
    ensures r == Some(Required(field)) <==> IsBlank(value)
    ensures r.Some? && !IsBlank(value) ==> r.value == FormatMessage(field) && !FormatOk(field, value)
  {
    if IsBlank(value) then Some(Required(field))
    else if !FormatOk(field, value) then Some(FormatMessage(field))
    else None
  }

  /** `newErrors.field = message` when the field has an error; otherwise the map is left alone. */
  function RecordError(m: map<Field, Message>, field: Field, value: string): map<Field, Message> {
    match FieldError(field, value)
    case Some(message) => m[field := message]
    case None => m
  }

  /** The error map `validateForm` builds, field after field. */
  function FormErrors(form: FormData): map<Field, Message> {
    var m1 := RecordError(map[], Name, form.name);
    var m2 := RecordError(m1, Email, form.email);
    var m3 := RecordError(m2, Address, form.address);
    var m4 := RecordError(m3, Phone, form.phone);
    RecordError(m4, Age, form.age)
  }

  /**
   * The error map has an entry exactly for the fields that have an error, holding that field's
   * message: each field is judged on its own value, whatever the other fields hold.
   */
  lemma FormErrorsSpec(form: FormData)
    ensures forall f :: f in FormErrors(form) <==> FieldError(f, Get(form, f)).Some?
    ensures forall f :: f in FormErrors(form) ==> FormErrors(form)[f] == FieldError(f, Get(form, f)).value
  {
    var m1 := RecordError(map[], Name, form.name);
    var m2 := RecordError(m1, Email, form.email);
    var m3 := RecordError(m2, Address, form.address);
    var m4 := RecordError(m3, Phone, form.phone);
    var m5 := RecordError(m4, Age, form.age);
    forall f ensures (f in m5 <==> FieldError(f, Get(form, f)).Some?)
      && (f in m5 ==> m5[f] == FieldError(f, Get(form, f)).value)
    {
      match f
      case Name =>
        assert Name in m5 <==> Name in m1;
      case Email =>
      case Address =>
      case Phone =>
      case Age =>
    }
  }

  /** A form passes validation exactly when every field is non-blank and passes its format rule. */
  lemma ValidIffAllFieldsOk(form: FormData)
    ensures FormErrors(form) == map[] <==> forall f :: !IsBlank(Get(form, f)) && FormatOk(f, Get(form, f))
  {
    FormErrorsSpec(form);
    if FormErrors(form) != map[] {
      var f :| f in FormErrors(form);
    }
  }

  /** A non-blank email is invalid exactly when the unanchored address pattern finds no match. */
  lemma EmailRule(form: FormData)
    ensures Email in FormErrors(form) && FormErrors(form)[Email] == EmailIsInvalid
      <==> !IsBlank(form.email) && !EmailPattern(form.email)
  {
    FormErrorsSpec(form);
  }

  /** A non-blank phone is invalid exactly when it holds a character outside digits, white space and `-+()`. */
  lemma PhoneRule(form: FormData)
    ensures Phone in FormErrors(form) && FormErrors(form)[Phone] == PhoneIsInvalid
      <==> !IsBlank(form.phone) && exists k :: 0 <= k < |form.phone| && !PhoneChar(form.phone[k])
  {
    FormErrorsSpec(form);
  }

  /** A non-blank age is out of range exactly when it is not a number or lies outside 1 to 120. */
  lemma AgeRule(form: FormData)
    ensures Age in FormErrors(form) && FormErrors(form)[Age] == AgeNotInRange
      <==> !IsBlank(form.age) && (AgeNumber(form.age).None? || AgeNumber(form.age).value < 1 || AgeNumber(form.age).value > 120)
  {
    FormErrorsSpec(form);
  }

  /** Surrounding white space does not change the age read from the field. */
  lemma AgeIgnoresSurroundingSpace(s: string)
    ensures AgeNumber(s) == AgeNumber(Text.Trim(s))
  {
    Text.TrimIdempotent(s);
  }

  /** Two readings of the age field: padded digits are a number, digits split by a space are not. */
  lemma AgeExamples()
    ensures AgeNumber(" 42 ") == Some(42)
    ensures AgeNumber("4 2") == None
  {
    assert Text.TrimStart(" 42 ") == "42 ";
    assert Text.TrimEnd("42 ") == "42";
    assert DecimalValue("4") == 4;
    assert DecimalValue("42") == 42 by {
      assert "42"[..1] == "4";
    }
    assert Text.TrimStart("4 2") == "4 2";
    assert Text.TrimEnd("4 2") == "4 2";
    assert !Text.IsDigit("4 2"[1]);
  }

  /** Name and address are wrong only when blank, and then they read "required". */
  lemma NameAndAddressOnlyRequired(form: FormData, f: Field)
    requires f == Name || f == Address
    ensures f in FormErrors(form) <==> IsBlank(Get(form, f))
    ensures f in FormErrors(form) ==> FormErrors(form)[f] == Required(f)
  {
    FormErrorsSpec(form);
  }

  /**
   * `handleInputChange`'s error update: the field's entry is cleared (the source sets it to
   * `undefined`, modelled as removing it) when it has one; every other entry stays.
   */
  function ClearError(errors: map<Field, Message>, field: Field): (r: map<Field, Message>)
    ensures field !in r
    ensures forall g :: g != field ==> (g in r <==> g in errors) && (g in r ==> r[g] == errors[g])
  {
    if field in errors then errors - {field} else errors
  }

  /** The message shown after a submit that fails validation. */
  const FixErrorsMessage: string := "Please fix the errors in the form"
  const AddedMessage: string := "User added successfully!"
  const AddFailedMessage: string := "Error while adding user"

  /** The server's answer to `POST /api/users`; an empty message stands for a missing one. */
  datatype PostOutcome = Created(message: string) | Rejected(message: string)

  /** `a || b` on strings: the empty string is falsy. */
  function OrElse(a: string, b: string): (r: string)
    ensures r == if a == [] then b else a
    ensures r != [] <==> a != [] || b != []
  {
    if a == [] then b else a
  }

  /** The dashboard component's form state and the toasts it reports to. */
  class AddUserForm {
    var formData: FormData
    var errors: map<Field, Message>
    var isSubmitting: bool
    /** The provider `useToast` found. */
    const toasts: Toasts.ToastProvider

    constructor (toasts: Toasts.ToastProvider)
      ensures formData == EmptyForm && errors == map[] && !isSubmitting && this.toasts == toasts
    {
      formData := EmptyForm;
      errors := map[];
      isSubmitting := false;
      this.toasts := toasts;
    }

    /** `handleInputChange`: store the typed value and clear that field's error, if it had one. */
    method HandleInputChange(field: Field, value: string)
      modifies this
      ensures formData == WithField(old(formData), field, value)
      ensures errors == ClearError(old(errors), field)
      ensures isSubmitting == old(isSubmitting)
    {
      formData := WithField(formData, field, value);
      if field in errors && MessageText(errors[field]) != "" {
        errors := errors - {field};
      }
    }

    /** `validateForm`: rebuild the error map field by field and report whether it is empty. */
    method ValidateForm() returns (ok: bool)
      modifies `errors
      ensures errors == FormErrors(formData)
      ensures ok <==> errors == map[]
    {
      var newErrors := FormErrors(formData);
      errors := newErrors;
      ok := |newErrors.Keys| == 0;
    }

    /**
     * `handleAddUser`: validate; on failure show the fix-the-errors toast and stop. Otherwise post
     * the form; on success show the server's message (or the default) and reset the form and its
     * errors; on rejection show the server's message (or the default) and keep the form.
     * `toastId` stands for the random id the provider draws.
     */
    method HandleAddUser(post: FormData -> PostOutcome, toastId: string)
      modifies this, toasts
      ensures FormErrors(old(formData)) == map[] ==> !isSubmitting
      ensures FormErrors(old(formData)) != map[] ==> isSubmitting == old(isSubmitting)
      ensures var submitted := old(formData);
        if FormErrors(submitted) != map[] then
          && formData == submitted && errors == FormErrors(submitted)
          && toasts.toasts == old(toasts.toasts) + [Toasts.ToastItem(toastId, FixErrorsMessage, "error")]
        else match post(submitted)
          case Created(m) =>
            && formData == EmptyForm && errors == map[]
            && toasts.toasts == old(toasts.toasts) + [Toasts.ToastItem(toastId, OrElse(m, AddedMessage), "success")]
          case Rejected(m) =>
            && formData == submitted && errors == map[]
            && toasts.toasts == old(toasts.toasts) + [Toasts.ToastItem(toastId, OrElse(m, AddFailedMessage), "error")]
    {
      var ok := ValidateForm();
      if !ok {
        toasts.ShowToast(toastId, FixErrorsMessage, "error");
        return;
      }
      isSubmitting := true;
      var outcome := post(formData);
      match outcome {
        case Created(m) =>
          toasts.ShowToast(toastId, OrElse(m, AddedMessage), "success");
          formData := EmptyForm;
          errors := map[];
        case Rejected(m) =>
          toasts.ShowToast(toastId, OrElse(m, AddFailedMessage), "error");
      }
      isSubmitting := false;
    }
  }
}
