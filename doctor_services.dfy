/** The doctor service: the field-by-field validator of a doctor record,
    the doctor collection (create, update, delete, get one) and the stored
    "become a doctor" requests with their per-email limit. */
module DoctorServices {
  import opened Wrappers
  import opened JsValues

  /** TValidationErrorType */
  datatype ErrorType = RequiredError | TypeError

  /** What UserServices.validateUser answers; that service is not part of this model. */
  datatype UserValidation = UserValidation(success: bool, errors: map<string, ErrorType>)

  /** The collaborators the validator consults and this model does not define:
      UserServices.validateUser (given the record and needUnique),
      Types.ObjectId.isValid, and the key names of the TSpeciality enum. */
  datatype Environment = Environment(
    validateUser: (JsVal, bool) -> UserValidation,
    isValidObjectId: JsVal -> bool,
    specialityKeys: set<string>)

  /** TValidateDoctor: on success the source sends no errors; here they are then empty. */
  datatype Validation = Validation(success: bool, errors: map<string, ErrorType>)

  /** The fields checked as required strings. */
  const StringFields: set<string> :=
    {"education", "yearEducation", "blankSeries", "blankNumber", "issueDate"}

  /** Every field the doctor-level checks look at, in the order they are checked. */
  const DoctorFields: seq<string> :=
    ["education", "yearEducation", "blankSeries", "blankNumber", "issueDate", "speciality",
     "beginDoctorDate", "experience", "rating", "whosFavourite", "clientsReviews",
     "clientsConsultations", "sheldure"]

  // ---------------------------------------------------------------------
  // The rule of each field, as a specification
  // ---------------------------------------------------------------------

  /** education, yearEducation, blankSeries, blankNumber, issueDate:
      falsy is missing, anything but a string is the wrong type. */
  function StringRule(v: JsVal): Option<ErrorType>
  {
    if Falsy(v) then Some(RequiredError)
    else if !v.Str? then Some(TypeError)
    else None
  }

  /** `Object.keys(TSpeciality).includes(v)` */
  predicate IsSpecialityKey(v: JsVal, env: Environment)
  {
    v.Str? && v.s in env.specialityKeys
  }

  /** speciality: only undefined and null are missing, so `[]` passes. */
  ghost function SpecialityRule(v: JsVal, env: Environment): Option<ErrorType>
  {
    if IsNullish(v) then Some(RequiredError)
    else if !v.Arr? then Some(TypeError)
    else if exists i :: 0 <= i < |v.elems| && !IsSpecialityKey(v.elems[i], env) then Some(TypeError)
    else None
  }

  /** beginDoctorDate: a truthy value that is not a Date is the wrong type. */
  function DateRule(v: JsVal): Option<ErrorType>
  {
    if Falsy(v) then Some(RequiredError)
    else if !v.DateV? then Some(TypeError)
    else None
  }

  /** experience: falsy (so also 0) is missing; a non-number or a negative one is the wrong type. */
  function ExperienceRule(v: JsVal): Option<ErrorType>
  {
    if Falsy(v) then Some(RequiredError)
    else if !IsNumber(v) then Some(TypeError)
    else if v.n < 0.0 then Some(TypeError)
    else None
  }

  /** rating: falsy (so also 0) is missing; a non-number or one outside [0, 5] is the wrong type. */
  function RatingRule(v: JsVal): Option<ErrorType>
  {
    if Falsy(v) then Some(RequiredError)
    else if !IsNumber(v) then Some(TypeError)
    else if v.n < 0.0 || v.n > 5.0 then Some(TypeError)
    else None
  }

  /** whosFavourite: falsy is missing; a non-array or one holding an invalid ObjectId is the wrong type. */
  ghost function FavouritesRule(v: JsVal, env: Environment): Option<ErrorType>
  {
    if Falsy(v) then Some(RequiredError)
    else if !v.Arr? then Some(TypeError)
    else if exists i :: 0 <= i < |v.elems| && !env.isValidObjectId(v.elems[i]) then Some(TypeError)
    else None
  }

  /** clientsReviews, clientsConsultations: undefined and null are missing, a non-array is the wrong type. */
  function PresentArrayRule(v: JsVal): Option<ErrorType>
  {
    if IsNullish(v) then Some(RequiredError)
    else if !v.Arr? then Some(TypeError)
    else None
  }

  /** sheldure: falsy is missing, a non-array is the wrong type. */
  function TruthyArrayRule(v: JsVal): Option<ErrorType>
  {
    if Falsy(v) then Some(RequiredError)
    else if !v.Arr? then Some(TypeError)
    else None
  }

  /** The rule applied to the i-th field of DoctorFields. */
  ghost function RuleAt(i: nat, v: JsVal, env: Environment): Option<ErrorType>
  {
    if i < 5 then StringRule(v)
    else if i == 5 then SpecialityRule(v, env)
    else if i == 6 then DateRule(v)
    else if i == 7 then ExperienceRule(v)
    else if i == 8 then RatingRule(v)
    else if i == 9 then FavouritesRule(v, env)
    else if i < 12 then PresentArrayRule(v)
    else TruthyArrayRule(v)
  }

  /** `errors[field] = e` when the field's rule reports `e`; nothing otherwise. */
  function Record(errors: map<string, ErrorType>, field: string, rule: Option<ErrorType>): map<string, ErrorType>
  {
    if rule.Some? then errors[field := rule.value] else errors
  }

  /** The errors reported by checking the first k fields one after another. */
  ghost function ErrorsUpTo(k: nat, doctor: JsVal, env: Environment): map<string, ErrorType>
    requires k <= |DoctorFields|
  {
    if k == 0 then map[]
    else
      var f := DoctorFields[k - 1];
      Record(ErrorsUpTo(k - 1, doctor, env), f, RuleAt(k - 1, Get(doctor, f), env))
  }

  /** The doctor-level errors of a record. */
  ghost function FieldErrors(doctor: JsVal, env: Environment): map<string, ErrorType>
  {
    ErrorsUpTo(|DoctorFields|, doctor, env)
  }

  /** No field name is listed twice. */
  lemma DoctorFieldsDistinct()
    ensures forall i, j :: 0 <= i < j < |DoctorFields| ==> DoctorFields[i] != DoctorFields[j]
  {
  }

  /** Checking the first k fields reports the i-th field (i < k) exactly when its own
      rule fails, with that rule's error, and reports no other key. */
  lemma {:induction false} ErrorsUpToAt(k: nat, doctor: JsVal, env: Environment, i: nat)
    requires k <= |DoctorFields| && i < |DoctorFields|
    ensures var f := DoctorFields[i];
      (f in ErrorsUpTo(k, doctor, env) <==> i < k && RuleAt(i, Get(doctor, f), env).Some?) &&
      (f in ErrorsUpTo(k, doctor, env) ==> ErrorsUpTo(k, doctor, env)[f] == RuleAt(i, Get(doctor, f), env).value)
  {
    DoctorFieldsDistinct();
    if k > 0 {
      ErrorsUpToAt(k - 1, doctor, env, i);
    }
  }

  /** Only field names are reported. */
  lemma {:induction false} ErrorsUpToKeys(k: nat, doctor: JsVal, env: Environment)
    requires k <= |DoctorFields|
    ensures forall f :: f in ErrorsUpTo(k, doctor, env) ==> f in DoctorFields[..k]
  {
    if k > 0 {
      ErrorsUpToKeys(k - 1, doctor, env);
      assert DoctorFields[..k] == DoctorFields[..k - 1] + [DoctorFields[k - 1]];
    }
  }

  /** What `validate(doctor, needUnique)` answers. */
  ghost function ValidationSpec(doctor: JsVal, needUnique: bool, env: Environment): Validation
  {
    if Falsy(doctor) then Validation(false, map[])
    else
      var user := env.validateUser(doctor, needUnique);
      if !user.success then Validation(false, user.errors)
      else
        var errors := FieldErrors(doctor, env);
        Validation(errors == map[], errors)
  }

  /** An independent statement of a well-formed doctor record: what every
      doctor-level check accepts. */
  ghost predicate WellFormedDoctor(d: JsVal, env: Environment)
  {
    && (forall f :: f in StringFields ==> Get(d, f).Str? && Get(d, f).s != "")
    && Get(d, "speciality").Arr?
    && (forall e :: e in Get(d, "speciality").elems ==> IsSpecialityKey(e, env))
    && Get(d, "beginDoctorDate") == DateV
    && Get(d, "experience").Num? && Get(d, "experience").n > 0.0
    && Get(d, "rating").Num? && 0.0 < Get(d, "rating").n <= 5.0
    && Get(d, "whosFavourite").Arr?
    && (forall e :: e in Get(d, "whosFavourite").elems ==> env.isValidObjectId(e))
    && Get(d, "clientsReviews").Arr?
    && Get(d, "clientsConsultations").Arr?
    && Get(d, "sheldure").Arr?
  }

  // ---------------------------------------------------------------------
  // validate, one block of checks per field
  // ---------------------------------------------------------------------

  /** The block for education, yearEducation, blankSeries, blankNumber and issueDate. */
  method CheckStringField(doctor: JsVal, env: Environment, i: nat, errors: map<string, ErrorType>)
    returns (updated: map<string, ErrorType>)
    requires i < 5
    ensures updated == Record(errors, DoctorFields[i], RuleAt(i, Get(doctor, DoctorFields[i]), env))
  {
    var field := DoctorFields[i];
    updated := errors;
    var v := Get(doctor, field);
    if Falsy(v) {
      updated := updated[field := RequiredError];
    } else if !v.Str? {
      updated := updated[field := TypeError];
    }
  }

  /** The block for speciality: a loop over the array that stops at the first unknown key. */
  method CheckSpeciality(doctor: JsVal, env: Environment, errors: map<string, ErrorType>)
    returns (updated: map<string, ErrorType>)
    ensures updated == Record(errors, DoctorFields[5], RuleAt(5, Get(doctor, DoctorFields[5]), env))
  {
    updated := errors;
    var v := Get(doctor, "speciality");
    if !v.Undef? && !v.Null? {
      if !v.Arr? {
        updated := updated["speciality" := TypeError];
      } else {
        var i := 0;
        while i < |v.elems|
          invariant 0 <= i <= |v.elems|
          invariant updated == errors
          invariant forall j :: 0 <= j < i ==> IsSpecialityKey(v.elems[j], env)
        {
          if !IsSpecialityKey(v.elems[i], env) {
            updated := updated["speciality" := TypeError];
            break;
          }
          i := i + 1;
        }
      }
    } else {
      updated := updated["speciality" := RequiredError];
    }
  }

  /** The block for beginDoctorDate. */
  method CheckBeginDoctorDate(doctor: JsVal, env: Environment, errors: map<string, ErrorType>)
    returns (updated: map<string, ErrorType>)
    ensures updated == Record(errors, DoctorFields[6], RuleAt(6, Get(doctor, DoctorFields[6]), env))
  {
    updated := errors;
    var v := Get(doctor, "beginDoctorDate");
    if !Falsy(v) {
      if !v.DateV? {
        updated := updated["beginDoctorDate" := TypeError];
      }
    } else {
      updated := updated["beginDoctorDate" := RequiredError];
    }
  }

  /** The block for experience. */
  method CheckExperience(doctor: JsVal, env: Environment, errors: map<string, ErrorType>)
    returns (updated: map<string, ErrorType>)
    ensures updated == Record(errors, DoctorFields[7], RuleAt(7, Get(doctor, DoctorFields[7]), env))
  {
    updated := errors;
    var v := Get(doctor, "experience");
    if !Falsy(v) {
      if !IsNumber(v) {
        updated := updated["experience" := TypeError];
      } else if v.n < 0.0 {
        updated := updated["experience" := TypeError];
      }
    } else {
      updated := updated["experience" := RequiredError];
    }
  }

  /** The block for rating. */
  method CheckRating(doctor: JsVal, env: Environment, errors: map<string, ErrorType>)
    returns (updated: map<string, ErrorType>)
    ensures updated == Record(errors, DoctorFields[8], RuleAt(8, Get(doctor, DoctorFields[8]), env))
  {
    updated := errors;
    var v := Get(doctor, "rating");
    if !Falsy(v) {
      if !IsNumber(v) {
        updated := updated["rating" := TypeError];
      } else if v.n < 0.0 || v.n > 5.0 {
        updated := updated["rating" := TypeError];
      }
    } else {
      updated := updated["rating" := RequiredError];
    }
  }

  /** The block for whosFavourite: a loop that stops at the first invalid ObjectId. */
  method CheckWhosFavourite(doctor: JsVal, env: Environment, errors: map<string, ErrorType>)
    returns (updated: map<string, ErrorType>)
    ensures updated == Record(errors, DoctorFields[9], RuleAt(9, Get(doctor, DoctorFields[9]), env))
  {
    updated := errors;
    var v := Get(doctor, "whosFavourite");
    if !Falsy(v) {
      if !v.Arr? {
        updated := updated["whosFavourite" := TypeError];
      } else {
        var i := 0;
        while i < |v.elems|
          invariant 0 <= i <= |v.elems|
          invariant updated == errors
          invariant forall j :: 0 <= j < i ==> env.isValidObjectId(v.elems[j])
        {
          if !env.isValidObjectId(v.elems[i]) {
            updated := updated["whosFavourite" := TypeError];
            break;
          }
          i := i + 1;
        }
      }
    } else {
      updated := updated["whosFavourite" := RequiredError];
    }
  }

  /** The block for clientsReviews and clientsConsultations. */
  method CheckPresentArray(doctor: JsVal, env: Environment, i: nat, errors: map<string, ErrorType>)
    returns (updated: map<string, ErrorType>)
    requires i == 10 || i == 11
    ensures updated == Record(errors, DoctorFields[i], RuleAt(i, Get(doctor, DoctorFields[i]), env))
  {
    var field := DoctorFields[i];
    updated := errors;
    var v := Get(doctor, field);
    if !v.Undef? && !v.Null? {
      if !v.Arr? {
        updated := updated[field := TypeError];
      }
    } else {
      updated := updated[field := RequiredError];
    }
  }

  /** The block for sheldure. */
  method CheckSheldure(doctor: JsVal, env: Environment, errors: map<string, ErrorType>)
    returns (updated: map<string, ErrorType>)
    ensures updated == Record(errors, DoctorFields[12], RuleAt(12, Get(doctor, DoctorFields[12]), env))
  {
    updated := errors;
    var v := Get(doctor, "sheldure");
    if !Falsy(v) {
      if !v.Arr? {
        updated := updated["sheldure" := TypeError];
      }
    } else {
      updated := updated["sheldure" := RequiredError];
    }
  }

  /** The doctor-level part of validate: every field's block, in the source's order. */
  method DoctorChecks(doctor: JsVal, env: Environment) returns (errors: map<string, ErrorType>)
    ensures errors == FieldErrors(doctor, env)
  {
    errors := map[];
    errors := CheckStringField(doctor, env, 0, errors);
    assert errors == ErrorsUpTo(1, doctor, env);
    errors := CheckStringField(doctor, env, 1, errors);
    assert errors == ErrorsUpTo(2, doctor, env);
    errors := CheckStringField(doctor, env, 2, errors);
    assert errors == ErrorsUpTo(3, doctor, env);
    errors := CheckStringField(doctor, env, 3, errors);
    assert errors == ErrorsUpTo(4, doctor, env);
    errors := CheckStringField(doctor, env, 4, errors);
    assert errors == ErrorsUpTo(5, doctor, env);
    errors := CheckSpeciality(doctor, env, errors);
    assert errors == ErrorsUpTo(6, doctor, env);
    errors := CheckBeginDoctorDate(doctor, env, errors);
    assert errors == ErrorsUpTo(7, doctor, env);
    errors := CheckExperience(doctor, env, errors);
    assert errors == ErrorsUpTo(8, doctor, env);
    errors := CheckRating(doctor, env, errors);
    assert errors == ErrorsUpTo(9, doctor, env);
    errors := CheckWhosFavourite(doctor, env, errors);
    assert errors == ErrorsUpTo(10, doctor, env);
    errors := CheckPresentArray(doctor, env, 10, errors);
    assert errors == ErrorsUpTo(11, doctor, env);
    errors := CheckPresentArray(doctor, env, 11, errors);
    assert errors == ErrorsUpTo(12, doctor, env);
    errors := CheckSheldure(doctor, env, errors);
    assert errors == ErrorsUpTo(13, doctor, env);
  }

  /** DoctorServices.validate: a falsy record fails with no errors, a record the
      user-level check rejects fails with that check's errors, and otherwise the
      doctor-level checks fill the errors dictionary field by field. */
  method Validate(doctor: JsVal, needUnique: bool := true, env: Environment) returns (r: Validation)
    ensures r == ValidationSpec(doctor, needUnique, env)
    ensures Falsy(doctor) ==> r == Validation(false, map[])
    ensures !Falsy(doctor) && !env.validateUser(doctor, needUnique).success ==>
              r == Validation(false, env.validateUser(doctor, needUnique).errors)
    ensures !Falsy(doctor) && env.validateUser(doctor, needUnique).success ==>
              r.errors == FieldErrors(doctor, env) && (r.success <==> r.errors == map[])
  {
    if Falsy(doctor) {
      return Validation(false, map[]);
    }
    var response := env.validateUser(doctor, needUnique);
    if !response.success {
      return Validation(false, response.errors);
    }

    var errors := DoctorChecks(doctor, env);
    if |errors| == 0 {
      return Validation(true, map[]);
    } else {
      return Validation(false, errors);
    }
  }

  // ---------------------------------------------------------------------
  // What validate promises, field by field
  // ---------------------------------------------------------------------

  /** education, yearEducation, blankSeries, blankNumber, issueDate: a falsy value
      (also "") is missing, any other non-string is the wrong type, and only a
      non-empty string passes. */
  lemma StringFieldErrors(d: JsVal, env: Environment, i: nat)
    requires i < 5
    ensures var f := DoctorFields[i]; var v := Get(d, f); var errors := FieldErrors(d, env);
      && (f in errors && errors[f] == RequiredError <==> Falsy(v))
      && (f in errors && errors[f] == TypeError <==> !Falsy(v) && !v.Str?)
      && (f !in errors <==> v.Str? && v.s != "")
  {
    ErrorsUpToAt(|DoctorFields|, d, env, i);
  }

  /** speciality: only undefined and null are missing; a non-array or an array
      holding a name that is not a TSpeciality key is the wrong type; `[]` passes. */
  lemma SpecialityErrors(d: JsVal, env: Environment)
    ensures var v := Get(d, "speciality"); var errors := FieldErrors(d, env);
      && ("speciality" in errors && errors["speciality"] == RequiredError <==> IsNullish(v))
      && ("speciality" in errors && errors["speciality"] == TypeError <==>
            !IsNullish(v) && (!v.Arr? || exists e :: e in v.elems && !IsSpecialityKey(e, env)))
      && ("speciality" !in errors <==> v.Arr? && forall e :: e in v.elems ==> IsSpecialityKey(e, env))
      && (v == Arr([]) ==> "speciality" !in errors)
  {
    ErrorsUpToAt(|DoctorFields|, d, env, 5);
  }

  /** beginDoctorDate: falsy is missing, a truthy non-Date is the wrong type. */
  lemma BeginDoctorDateErrors(d: JsVal, env: Environment)
    ensures var v := Get(d, "beginDoctorDate"); var errors := FieldErrors(d, env);
      && ("beginDoctorDate" in errors && errors["beginDoctorDate"] == RequiredError <==> Falsy(v))
      && ("beginDoctorDate" !in errors <==> v == DateV)
  {
    ErrorsUpToAt(|DoctorFields|, d, env, 6);
  }

  /** experience: falsy, so also 0, is missing; a non-number or a negative number
      is the wrong type; only a positive number passes. */
  lemma ExperienceErrors(d: JsVal, env: Environment)
    ensures var v := Get(d, "experience"); var errors := FieldErrors(d, env);
      && ("experience" in errors && errors["experience"] == RequiredError <==> Falsy(v))
      && ("experience" in errors && errors["experience"] == TypeError <==>
            !Falsy(v) && (!v.Num? || v.n < 0.0))
      && ("experience" !in errors <==> v.Num? && v.n > 0.0)
      && (v == Num(0.0) ==> errors["experience"] == RequiredError)
  {
    ErrorsUpToAt(|DoctorFields|, d, env, 7);
  }

  /** rating: falsy, so also 0, is missing; a non-number or one outside [0, 5] is
      the wrong type; only a number in (0, 5] passes. */
  lemma RatingErrors(d: JsVal, env: Environment)
    ensures var v := Get(d, "rating"); var errors := FieldErrors(d, env);
      && ("rating" in errors && errors["rating"] == RequiredError <==> Falsy(v))
      && ("rating" in errors && errors["rating"] == TypeError <==>
            !Falsy(v) && (!v.Num? || v.n < 0.0 || v.n > 5.0))
      && ("rating" !in errors <==> v.Num? && 0.0 < v.n <= 5.0)
  {
    ErrorsUpToAt(|DoctorFields|, d, env, 8);
  }

  /** whosFavourite: falsy is missing; a non-array or an array holding an invalid
      ObjectId is the wrong type. */
  lemma WhosFavouriteErrors(d: JsVal, env: Environment)
    ensures var v := Get(d, "whosFavourite"); var errors := FieldErrors(d, env);
      && ("whosFavourite" in errors && errors["whosFavourite"] == RequiredError <==> Falsy(v))
      && ("whosFavourite" in errors && errors["whosFavourite"] == TypeError <==>
            !Falsy(v) && (!v.Arr? || exists e :: e in v.elems && !env.isValidObjectId(e)))
      && ("whosFavourite" !in errors <==> v.Arr? && forall e :: e in v.elems ==> env.isValidObjectId(e))
  {
    ErrorsUpToAt(|DoctorFields|, d, env, 9);
  }

  /** clientsReviews and clientsConsultations are missing only when undefined or
      null; sheldure is missing when falsy; otherwise each must be an array. */
  lemma ArrayFieldErrors(d: JsVal, env: Environment)
    ensures var errors := FieldErrors(d, env);
      && ("clientsReviews" in errors && errors["clientsReviews"] == RequiredError <==> IsNullish(Get(d, "clientsReviews")))
      && ("clientsReviews" !in errors <==> Get(d, "clientsReviews").Arr?)
      && ("clientsConsultations" in errors && errors["clientsConsultations"] == RequiredError <==>
            IsNullish(Get(d, "clientsConsultations")))
      && ("clientsConsultations" !in errors <==> Get(d, "clientsConsultations").Arr?)
      && ("sheldure" in errors && errors["sheldure"] == RequiredError <==> Falsy(Get(d, "sheldure")))
      && ("sheldure" !in errors <==> Get(d, "sheldure").Arr?)
  {
    ErrorsUpToAt(|DoctorFields|, d, env, 10);
    ErrorsUpToAt(|DoctorFields|, d, env, 11);
    ErrorsUpToAt(|DoctorFields|, d, env, 12);
  }

  /** A record with no doctor-level errors is well formed. */
  lemma NoFieldErrorsWellFormed(d: JsVal, env: Environment)
    requires FieldErrors(d, env) == map[]
    ensures WellFormedDoctor(d, env)
  {
    StringFieldErrors(d, env, 0);
    StringFieldErrors(d, env, 1);
    StringFieldErrors(d, env, 2);
    StringFieldErrors(d, env, 3);
    StringFieldErrors(d, env, 4);
    SpecialityErrors(d, env);
    BeginDoctorDateErrors(d, env);
    ExperienceErrors(d, env);
    RatingErrors(d, env);
    WhosFavouriteErrors(d, env);
    ArrayFieldErrors(d, env);
  }

  /** A well-formed record has no doctor-level errors. */
  lemma WellFormedNoFieldErrors(d: JsVal, env: Environment)
    requires WellFormedDoctor(d, env)
    ensures FieldErrors(d, env) == map[]
  {
    StringFieldErrors(d, env, 0);
    StringFieldErrors(d, env, 1);
    StringFieldErrors(d, env, 2);
    StringFieldErrors(d, env, 3);
    StringFieldErrors(d, env, 4);
    SpecialityErrors(d, env);
    BeginDoctorDateErrors(d, env);
    ExperienceErrors(d, env);
    RatingErrors(d, env);
    WhosFavouriteErrors(d, env);
    ArrayFieldErrors(d, env);
    ErrorsUpToKeys(|DoctorFields|, d, env);
    assert DoctorFields[..|DoctorFields|] == DoctorFields;
  }

  /** The doctor-level checks report nothing exactly for a well-formed record. */
  lemma NoFieldErrorsIff(d: JsVal, env: Environment)
    ensures FieldErrors(d, env) == map[] <==> WellFormedDoctor(d, env)
  {
    if FieldErrors(d, env) == map[] {
      NoFieldErrorsWellFormed(d, env);
    }
    if WellFormedDoctor(d, env) {
      WellFormedNoFieldErrors(d, env);
    }
  }

  /** validate succeeds exactly for a truthy record that the user-level check
      accepts and whose doctor fields are all well formed. */
  lemma ValidationSucceedsIff(d: JsVal, needUnique: bool, env: Environment)
    ensures ValidationSpec(d, needUnique, env).success <==>
              !Falsy(d) && env.validateUser(d, needUnique).success && WellFormedDoctor(d, env)
  {
    NoFieldErrorsIff(d, env);
  }

  /** Only an object can pass validation: on any other value every field reads as undefined. */
  lemma ValidatedDoctorIsObject(d: JsVal, needUnique: bool, env: Environment)
    ensures ValidationSpec(d, needUnique, env).success ==> d.Obj?
  {
    if ValidationSpec(d, needUnique, env).success {
      NoFieldErrorsIff(d, env);
      assert Get(d, "education").Str?;
    }
  }

  // ---------------------------------------------------------------------
  // The doctor collection and the "become a doctor" requests
  // ---------------------------------------------------------------------

  /** The failures the service reports, each with its error code. */
  datatype ServiceError =
    | NotValidatedError(errors: map<string, ErrorType>)
    | UpdatedDoctorIsNull
    | NoDoctorFound
    | RequestsLimitError
    | InvalidError
  {
    function Code(): string
    {
      match this
      case NotValidatedError(_) => "not_validated_error"
      case UpdatedDoctorIsNull => "updated_doctor_is_null"
      case NoDoctorFound => "no_doctor_found"
      case RequestsLimitError => "requests_limit_error"
      case InvalidError => "invalid_error"
    }
  }

  /** A stored doctor as the service hands it back: its id and its record. */
  datatype Doctor = Doctor(id: string, record: JsVal)

  /** At most this many requests per email. */
  const MaxRequestsPerEmail: nat := 3

  /** `request.email` */
  function EmailOf(request: JsVal): JsVal
  {
    Get(request, "email")
  }

  /** `BecomeDoctorRequest.find({ email }).length`: the stored requests carrying this email. */
  function RequestCount(requests: seq<JsVal>, email: JsVal): (n: nat)
    ensures n <= |requests|
    ensures n == 0 <==> forall i :: 0 <= i < |requests| ==> EmailOf(requests[i]) != email
  {
    if requests == [] then 0
    else (if EmailOf(requests[0]) == email then 1 else 0) + RequestCount(requests[1..], email)
  }

  /** Appending a request adds one to the count of its own email and leaves every other count alone. */
  lemma {:induction false} RequestCountAppend(requests: seq<JsVal>, request: JsVal, email: JsVal)
    ensures RequestCount(requests + [request], email)
              == RequestCount(requests, email) + if EmailOf(request) == email then 1 else 0
  {
    if requests != [] {
      assert (requests + [request])[1..] == requests[1..] + [request];
      RequestCountAppend(requests[1..], request, email);
    }
  }

  /** The `id` a record names, when it is a string. */
  function IdOf(data: JsVal): Option<string>
  {
    var id := Get(data, "id");
    if id.Str? then Some(id.s) else None
  }

  /** `findOneAndUpdate(filter, data)`: the fields `data` names are set, every other stored field is kept. */
  function Merged(stored: JsVal, data: JsVal): (r: JsVal)
    ensures stored.Obj? && data.Obj? ==>
      && r.Obj?
      && r.fields.Keys == stored.fields.Keys + data.fields.Keys
      && (forall k :: k in data.fields ==> r.fields[k] == data.fields[k])
      && (forall k :: k in stored.fields && k !in data.fields ==> r.fields[k] == stored.fields[k])
  {
    if stored.Obj? && data.Obj? then Obj(stored.fields + data.fields) else data
  }

  /** The collections the service works on: doctors by id and the stored requests. */
  class DoctorDatabase {
    var doctors: map<string, JsVal>
    var becomeDoctorRequests: seq<JsVal>

    /** Every stored request has an email and no email has more than three requests. */
    ghost predicate Valid()
      reads this
    {
      && (forall i :: 0 <= i < |becomeDoctorRequests| ==> !Falsy(EmailOf(becomeDoctorRequests[i])))
      && (forall e :: RequestCount(becomeDoctorRequests, e) <= MaxRequestsPerEmail)
    }

    constructor ()
      ensures doctors == map[] && becomeDoctorRequests == [] && Valid()
    {
      doctors := map[];
      becomeDoctorRequests := [];
    }

    /** DoctorServices.create: stores the record under a new id only when it validates. */
    method Create(data: JsVal, newId: string, env: Environment) returns (r: Result<Doctor, ServiceError>)
      requires newId !in doctors
      modifies this
      ensures becomeDoctorRequests == old(becomeDoctorRequests)
      ensures var v := ValidationSpec(data, true, env);
        if v.success then r == Success(Doctor(newId, data)) && doctors == old(doctors)[newId := data]
        else r == Failure(NotValidatedError(v.errors)) && doctors == old(doctors)
    {
      var response := Validate(data, true, env);
      if !response.success {
        return Failure(NotValidatedError(response.errors));
      }
      doctors := doctors[newId := data];
      return Success(Doctor(newId, data));
    }

    /** DoctorServices.update: validates without the uniqueness check, then merges
        the record into the stored doctor its id names. */
    method Update(data: JsVal, env: Environment) returns (r: Result<Doctor, ServiceError>)
      modifies this
      ensures becomeDoctorRequests == old(becomeDoctorRequests)
      ensures var v := ValidationSpec(data, false, env);
        !v.success ==> r == Failure(NotValidatedError(v.errors)) && doctors == old(doctors)
      ensures var v := ValidationSpec(data, false, env);
        v.success && (IdOf(data).None? || IdOf(data).value !in old(doctors)) ==>
          r == Failure(UpdatedDoctorIsNull) && doctors == old(doctors)
      ensures var v := ValidationSpec(data, false, env);
        v.success && IdOf(data).Some? && IdOf(data).value in old(doctors) ==>
          var id := IdOf(data).value;
          var updated := Merged(old(doctors)[id], data);
          r == Success(Doctor(id, updated)) && doctors == old(doctors)[id := updated]
    {
      var validation := Validate(data, false, env);
      if !validation.success {
        return Failure(NotValidatedError(validation.errors));
      }
      var id := IdOf(data);
      if id.None? || id.value !in doctors {
        return Failure(UpdatedDoctorIsNull);
      }
      var updated := Merged(doctors[id.value], data);
      doctors := doctors[id.value := updated];
      return Success(Doctor(id.value, updated));
    }

    /** DoctorServices.delete: removes the doctor with this id and returns it. */
    method Delete(id: string) returns (r: Result<Doctor, ServiceError>)
      modifies this
      ensures becomeDoctorRequests == old(becomeDoctorRequests)
      ensures id !in old(doctors) ==> r == Failure(NoDoctorFound) && doctors == old(doctors)
      ensures id in old(doctors) ==>
        r == Success(Doctor(id, old(doctors)[id])) && doctors == old(doctors) - {id}
    {
      if id !in doctors {
        return Failure(NoDoctorFound);
      }
      var removed := doctors[id];
      doctors := doctors - {id};
      return Success(Doctor(id, removed));
    }

    /** DoctorServices.getOne: an invalid ObjectId and an unknown id both give no_doctor_found. */
    function GetOne(id: string, env: Environment): (r: Result<Doctor, ServiceError>)
      reads this
      ensures r.Success? <==> env.isValidObjectId(Str(id)) && id in doctors
      ensures r.Success? ==> r.value == Doctor(id, doctors[id])
      ensures r.Failure? ==> r.error == NoDoctorFound
    {
      if !env.isValidObjectId(Str(id)) then Failure(NoDoctorFound)
      else if id !in doctors then Failure(NoDoctorFound)
      else Success(Doctor(id, doctors[id]))
    }

    /** DoctorServices.saveBecomeDoctorRequest: a request without an email is ignored,
        a fourth request for one email is refused, any other request is stored. */
    method SaveBecomeDoctorRequest(request: JsVal) returns (r: Result<(), ServiceError>)
      modifies this
      ensures doctors == old(doctors)
      ensures IsNullish(request) ==>
        r == Failure(InvalidError) && becomeDoctorRequests == old(becomeDoctorRequests)
      ensures !IsNullish(request) && Falsy(EmailOf(request)) ==>
        r == Success(()) && becomeDoctorRequests == old(becomeDoctorRequests)
      ensures !IsNullish(request) && !Falsy(EmailOf(request)) &&
              RequestCount(old(becomeDoctorRequests), EmailOf(request)) >= MaxRequestsPerEmail ==>
        r == Failure(RequestsLimitError) && becomeDoctorRequests == old(becomeDoctorRequests)
      ensures !IsNullish(request) && !Falsy(EmailOf(request)) &&
              RequestCount(old(becomeDoctorRequests), EmailOf(request)) < MaxRequestsPerEmail ==>
        r == Success(()) && becomeDoctorRequests == old(becomeDoctorRequests) + [request]
      ensures old(Valid()) ==> Valid()
    {
      if IsNullish(request) {
        // reading `request.email` throws; the catch answers invalid_error
        return Failure(InvalidError);
      }
      var email := EmailOf(request);
      if !Falsy(email) {
        var founded := RequestCount(becomeDoctorRequests, email);
        if founded >= MaxRequestsPerEmail {
          return Failure(RequestsLimitError);
        }
      } else {
        return Success(());
      }
      ghost var before := becomeDoctorRequests;
      becomeDoctorRequests := becomeDoctorRequests + [request];
      forall e | true
        ensures RequestCount(becomeDoctorRequests, e) == RequestCount(before, e) + if email == e then 1 else 0
      {
        RequestCountAppend(before, request, e);
      }
      return Success(());
    }
  }
}
