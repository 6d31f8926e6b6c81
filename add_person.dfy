/**
 * The "Add Family Member" form: its validation, the person it submits, and the edit
 * handlers that clear a field's error. The form's error object maps a field name to its
 * message, or to `null` once the field has been edited again.
 */
module AddPerson {
  import opened Wrappers
  import opened JsValues
  import Validation

  /** `validateForm`'s `newErrors`, built one field at a time. `isValidDate` stands for `new Date`. */
  method BuildErrors(firstName: string, birthDate: string, deathDate: string, isValidDate: string -> bool)
    returns (newErrors: map<string, string>)
    ensures newErrors.Keys <= {"firstName", "birthDate", "deathDate"}
    ensures "firstName" in newErrors <==> Validation.ValidateRequired(firstName, "First name").Some?
    ensures "firstName" in newErrors ==> newErrors["firstName"] == Validation.ValidateRequired(firstName, "First name").value
    ensures "birthDate" in newErrors <==> birthDate != "" && Validation.ValidateDate(birthDate, isValidDate).Some?
    ensures "birthDate" in newErrors ==> newErrors["birthDate"] == Validation.ValidateDate(birthDate, isValidDate).value
    ensures "deathDate" in newErrors <==> deathDate != "" && Validation.ValidateDate(deathDate, isValidDate).Some?
    ensures "deathDate" in newErrors ==> newErrors["deathDate"] == Validation.ValidateDate(deathDate, isValidDate).value
  {
    newErrors := map[];
    var firstNameError := Validation.ValidateRequired(firstName, "First name");
    if firstNameError.Some? {
      newErrors := newErrors["firstName" := firstNameError.value];
    }
    if birthDate != "" {
      var birthDateError := Validation.ValidateDate(birthDate, isValidDate);
      if birthDateError.Some? {
        newErrors := newErrors["birthDate" := birthDateError.value];
      }
    }
    if deathDate != "" {
      var deathDateError := Validation.ValidateDate(deathDate, isValidDate);
      if deathDateError.Some? {
        newErrors := newErrors["deathDate" := deathDateError.value];
      }
    }
  }

  /** The form is acceptable: a first name, and each date either empty or a valid date. */
  predicate FormAcceptable(firstName: string, birthDate: string, deathDate: string, isValidDate: string -> bool)
  {
    && Validation.ValidateRequired(firstName, "First name").None?
    && Validation.ValidateDate(birthDate, isValidDate).None?
    && Validation.ValidateDate(deathDate, isValidDate).None?
  }

  /**
   * `validateForm`'s result, `Object.keys(newErrors).length === 0`, holds exactly when the
   * form is acceptable: leaving a date empty is never an error.
   */
  method IsFormValid(firstName: string, birthDate: string, deathDate: string, isValidDate: string -> bool)
    returns (valid: bool, newErrors: map<string, string>)
    ensures valid <==> FormAcceptable(firstName, birthDate, deathDate, isValidDate)
    ensures valid <==> newErrors == map[]
    ensures newErrors.Keys <= {"firstName", "birthDate", "deathDate"}
    ensures "firstName" in newErrors <==> Validation.ValidateRequired(firstName, "First name").Some?
    ensures "firstName" in newErrors ==> newErrors["firstName"] == Validation.ValidateRequired(firstName, "First name").value
    ensures "birthDate" in newErrors <==> birthDate != "" && Validation.ValidateDate(birthDate, isValidDate).Some?
    ensures "birthDate" in newErrors ==> newErrors["birthDate"] == Validation.ValidateDate(birthDate, isValidDate).value
    ensures "deathDate" in newErrors <==> deathDate != "" && Validation.ValidateDate(deathDate, isValidDate).Some?
    ensures "deathDate" in newErrors ==> newErrors["deathDate"] == Validation.ValidateDate(deathDate, isValidDate).value
  {
    newErrors := BuildErrors(firstName, birthDate, deathDate, isValidDate);
    valid := |newErrors.Keys| == 0;
    if !valid {
      var k :| k in newErrors;
    }
  }

  /** `s || null` for a text field. */
  function TextOrNull(s: string): (v: Value)
    ensures s == "" ==> v == Null
    ensures s != "" ==> v == Text(s)
  {
    Or(Text(s), Null)
  }

  /** `newPerson`: the first name as typed, every other empty field as `null`. */
  function NewPerson(firstName: string, lastName: string, birthDate: string, deathDate: string, notes: string)
    : (person: map<string, Value>)
    ensures person.Keys == {"first_name", "last_name", "birth_date", "death_date", "notes"}
    ensures person["first_name"] == Text(firstName)
    ensures person["last_name"] == TextOrNull(lastName)
    ensures person["birth_date"] == TextOrNull(birthDate)
    ensures person["death_date"] == TextOrNull(deathDate)
    ensures person["notes"] == TextOrNull(notes)
  {
    var last, birth, death, note := TextOrNull(lastName), TextOrNull(birthDate), TextOrNull(deathDate), TextOrNull(notes);
    map["first_name" := Text(firstName), "last_name" := last, "birth_date" := birth,
        "death_date" := death, "notes" := note]
  }

  /** The error shown under a field: `errors[field]` when it is a non-empty message. */
  predicate ErrorShown(errors: map<string, Option<string>>, field: string)
  {
    field in errors && errors[field].Some? && errors[field].value != ""
  }

  /** `if (errors[field]) setErrors({ ...errors, [field]: null })` */
  function ClearFieldError(errors: map<string, Option<string>>, field: string): (e: map<string, Option<string>>)
    ensures !ErrorShown(e, field)
    ensures forall k :: k != field ==> (k in e <==> k in errors) && (k in errors ==> e[k] == errors[k])
    ensures !ErrorShown(errors, field) ==> e == errors
  {
    if ErrorShown(errors, field) then errors[field := None] else errors
  }

  /** `setErrors(newErrors)`: every recorded message, as a shown error. */
  function AsShown(newErrors: map<string, string>): (e: map<string, Option<string>>)
    ensures e.Keys == newErrors.Keys
    ensures forall k :: k in e ==> e[k] == Some(newErrors[k])
  {
    map k | k in newErrors :: Some(newErrors[k])
  }

  /**
   * `errors` is what `setErrors(newErrors)` leaves after a validation of these fields: a shown
   * message under exactly the fields whose validator failed, and no other key.
   */
  predicate RecordsValidation(errors: map<string, Option<string>>, firstName: string, birthDate: string,
                              deathDate: string, isValidDate: string -> bool)
  {
    && errors.Keys <= {"firstName", "birthDate", "deathDate"}
    && ("firstName" in errors <==> Validation.ValidateRequired(firstName, "First name").Some?)
    && ("firstName" in errors ==> errors["firstName"] == Validation.ValidateRequired(firstName, "First name"))
    && ("birthDate" in errors <==> birthDate != "" && Validation.ValidateDate(birthDate, isValidDate).Some?)
    && ("birthDate" in errors ==> errors["birthDate"] == Validation.ValidateDate(birthDate, isValidDate))
    && ("deathDate" in errors <==> deathDate != "" && Validation.ValidateDate(deathDate, isValidDate).Some?)
    && ("deathDate" in errors ==> errors["deathDate"] == Validation.ValidateDate(deathDate, isValidDate))
  }

  /** The form's state, updated in place by its handlers. */
  class PersonForm {
    var firstName: string
    var lastName: string
    var birthDate: string
    var deathDate: string
    var notes: string
    var errors: map<string, Option<string>>

    /** Every field empty, no errors. */
    constructor ()
      ensures firstName == "" && lastName == "" && birthDate == "" && deathDate == "" && notes == ""
      ensures errors == map[]
    {
      firstName, lastName, birthDate, deathDate, notes := "", "", "", "", "";
      errors := map[];
    }

    /** `validateForm`: record the new errors and report whether there were none. */
    method ValidateForm(isValidDate: string -> bool) returns (valid: bool)
      modifies this
      ensures valid <==> FormAcceptable(firstName, birthDate, deathDate, isValidDate)
      ensures valid <==> errors == map[]
      ensures firstName == old(firstName) && lastName == old(lastName) && birthDate == old(birthDate)
      ensures deathDate == old(deathDate) && notes == old(notes)
      ensures errors.Keys <= {"firstName", "birthDate", "deathDate"}
      ensures forall k :: k in errors ==> errors[k].Some?
      ensures RecordsValidation(errors, firstName, birthDate, deathDate, isValidDate)
    {
      var newErrors;
      valid, newErrors := IsFormValid(firstName, birthDate, deathDate, isValidDate);
      errors := AsShown(newErrors);
      assert errors.Keys == newErrors.Keys;
      if !valid {
        var k :| k in newErrors;
        assert k in errors;
      }
    }

    /** `handleAddPerson`: the person sent to `createPerson`, or nothing when the form is invalid. */
    method HandleAddPerson(isValidDate: string -> bool) returns (sent: Option<map<string, Value>>)
      modifies this
      ensures sent.None? <==> !FormAcceptable(firstName, birthDate, deathDate, isValidDate)
      ensures sent.Some? ==> sent.value == NewPerson(firstName, lastName, birthDate, deathDate, notes)
      ensures RecordsValidation(errors, firstName, birthDate, deathDate, isValidDate)
      ensures firstName == old(firstName) && lastName == old(lastName) && birthDate == old(birthDate)
      ensures deathDate == old(deathDate) && notes == old(notes)
    {
      var valid := ValidateForm(isValidDate);
      if !valid {
        return None;
      }
      sent := Some(NewPerson(firstName, lastName, birthDate, deathDate, notes));
    }

    /** The first-name input: take the text and clear only that field's error. */
    method EditFirstName(text: string)
      modifies this
      ensures firstName == text && errors == ClearFieldError(old(errors), "firstName")
      ensures lastName == old(lastName) && birthDate == old(birthDate) && deathDate == old(deathDate) && notes == old(notes)
    {
      firstName := text;
      errors := ClearFieldError(errors, "firstName");
    }

    /** The birth-date input: take the text and clear only that field's error. */
    method EditBirthDate(text: string)
      modifies this
      ensures birthDate == text && errors == ClearFieldError(old(errors), "birthDate")
      ensures firstName == old(firstName) && lastName == old(lastName) && deathDate == old(deathDate) && notes == old(notes)
    {
      birthDate := text;
      errors := ClearFieldError(errors, "birthDate");
    }

    /** The death-date input: take the text and clear only that field's error. */
    method EditDeathDate(text: string)
      modifies this
      ensures deathDate == text && errors == ClearFieldError(old(errors), "deathDate")
      ensures firstName == old(firstName) && lastName == old(lastName) && birthDate == old(birthDate) && notes == old(notes)
    {
      deathDate := text;
      errors := ClearFieldError(errors, "deathDate");
    }

    /** The last-name input: errors are left alone. */
    method EditLastName(text: string)
      modifies this
      ensures lastName == text && errors == old(errors)
      ensures firstName == old(firstName) && birthDate == old(birthDate) && deathDate == old(deathDate) && notes == old(notes)
    {
      lastName := text;
    }

    /** The notes input: errors are left alone. */
    method EditNotes(text: string)
      modifies this
      ensures notes == text && errors == old(errors)
      ensures firstName == old(firstName) && lastName == old(lastName) && birthDate == old(birthDate) && deathDate == old(deathDate)
    {
      notes := text;
    }
  }
}
