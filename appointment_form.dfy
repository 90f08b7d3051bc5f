/**
 * The appointment form of src/components/appointments/AppointmentForm.tsx: the
 * validation schema, the patient option list with its placeholder for an edited
 * appointment whose patient is not listed, the request bodies, the submit
 * procedure and the date-time formatter of its picker.
 */
module AppointmentForm {
  import opened Types
  import opened Text
  import opened Timestamp
  import opened JsonObject
  import opened Api
  import opened FormEffects

  /**
   * The form's values. `dateTime` is bound to a picker, not to an input, and is
   * undefined until one is picked on a new appointment.
   */
  datatype AppointmentFormValues = AppointmentFormValues(patientCpf: string, dateTime: Option<string>, description: string)

  predicate PatientCpfValid(cpf: string) {
    11 <= Utf16Length(cpf)
  }

  predicate DescriptionValid(description: string) {
    5 <= Utf16Length(description)
  }

  /**
   * The issues the schema reports: a CPF shorter than 11 ("CPF obrigatório"),
   * an undefined date-time (zod's "Required"), a description shorter than 5
   * ("Descrição obrigatória"). Any defined date-time string is accepted.
   */
  function AppointmentErrors(v: AppointmentFormValues): (errors: seq<FieldError>)
    ensures errors == [] <==> PatientCpfValid(v.patientCpf) && v.dateTime.Some? && DescriptionValid(v.description)
    ensures FieldError("patientCpf", "CPF obrigatório") in errors <==> !PatientCpfValid(v.patientCpf)
    ensures FieldError("dateTime", "Required") in errors <==> v.dateTime.None?
    ensures FieldError("description", "Descrição obrigatória") in errors <==> !DescriptionValid(v.description)
  {
    (if PatientCpfValid(v.patientCpf) then [] else [FieldError("patientCpf", "CPF obrigatório")])
    + (if v.dateTime.Some? then [] else [FieldError("dateTime", "Required")])
    + (if DescriptionValid(v.description) then [] else [FieldError("description", "Descrição obrigatória")])
  }

  /**
   * `defaultValues` (and the effect's `reset`): the edited appointment's fields,
   * a falsy date-time read as ''; a new appointment starts with empty inputs and
   * no date-time.
   */
  function DefaultValues(initial: Option<Appointment>): (v: AppointmentFormValues)
    ensures initial.None? ==> v == AppointmentFormValues("", None, "")
    ensures initial.Some? ==>
      v == AppointmentFormValues(initial.value.patientCpf, Some(initial.value.dateTime), initial.value.description)
  {
    match initial
    case None => AppointmentFormValues("", None, "")
    case Some(a) => AppointmentFormValues(a.patientCpf, Some(if a.dateTime != "" then a.dateTime else ""), a.description)
  }

  // ---------------------------------------------------------------------------
  // Patient options

  predicate HasCpf(patients: seq<Patient>, cpf: string) {
    exists i :: 0 <= i < |patients| && patients[i].cpf == cpf
  }

  /**
   * The option added for an appointment whose patient is not listed: its CPF,
   * the embedded patient's name or else the CPF as name, empty text fields, inactive.
   */
  function Placeholder(a: Appointment): (p: Patient)
    ensures p.cpf == a.patientCpf && !p.isActive
    ensures a.patient.Some? && a.patient.value.name != "" ==> p.name == a.patient.value.name
    ensures (a.patient.None? || a.patient.value.name == "") ==> p.name == a.patientCpf
    ensures p.birthDate == "" && p.gender == "" && p.zipCode == "" && p.city == ""
      && p.district == "" && p.address == "" && p.complement.None?
  {
    var name := if a.patient.Some? && a.patient.value.name != "" then a.patient.value.name else a.patientCpf;
    Patient(a.patientCpf, name, "", "", "", "", "", "", None, false, None, None)
  }

  /**
   * The option list after the effect: with an edited appointment and a loaded
   * list that lacks its patient, the placeholder goes first.
   */
  function WithPlaceholder(patients: seq<Patient>, initial: Option<Appointment>): seq<Patient> {
    if initial.Some? && |patients| > 0 && !HasCpf(patients, initial.value.patientCpf)
    then [Placeholder(initial.value)] + patients
    else patients
  }

  /**
   * The effect changes the list only when there is an edited appointment and a
   * non-empty list, and then only by putting the placeholder in front; afterwards
   * the appointment's patient is always listed.
   */
  lemma WithPlaceholderShape(patients: seq<Patient>, initial: Option<Appointment>)
    ensures var r := WithPlaceholder(patients, initial);
      (r == patients || r == [Placeholder(initial.value)] + patients)
      && (initial.None? || patients == [] ==> r == patients)
      && (initial.Some? && HasCpf(patients, initial.value.patientCpf) ==> r == patients)
      && (initial.Some? && patients != [] ==> HasCpf(r, initial.value.patientCpf))
      && r[|r| - |patients|..] == patients
  {
    var r := WithPlaceholder(patients, initial);
    if r != patients {
      assert r[0].cpf == initial.value.patientCpf;
    }
  }

  /** Re-running the effect on its own result changes nothing: the placeholder is added at most once. */
  lemma WithPlaceholderIdempotent(patients: seq<Patient>, initial: Option<Appointment>)
    ensures WithPlaceholder(WithPlaceholder(patients, initial), initial) == WithPlaceholder(patients, initial)
  {
    WithPlaceholderShape(patients, initial);
  }

  // ---------------------------------------------------------------------------
  // Bodies

  function DateTimeField(v: AppointmentFormValues): Object {
    if v.dateTime.Some? then [("dateTime", JString(v.dateTime.value))] else []
  }

  /** The parsed values as an object, in the schema's order. */
  function ValuesObject(v: AppointmentFormValues): Object {
    [("patientCpf", JString(v.patientCpf))] + (DateTimeField(v) + [("description", JString(v.description))])
  }

  lemma ValuesObjectKeys(v: AppointmentFormValues)
    ensures Keys(ValuesObject(v)) == ["patientCpf"] + (if v.dateTime.Some? then ["dateTime"] else []) + ["description"]
    ensures DistinctKeys(ValuesObject(v))
  {
    var d, last := DateTimeField(v), [("description", JString(v.description))];
    KeysCons(("description", JString(v.description)), []);
    assert last == [("description", JString(v.description))] + [];
    KeysAppend(d, last);
    if v.dateTime.Some? {
      KeysCons(("dateTime", JString(v.dateTime.value)), last);
    } else {
      assert d + last == last;
    }
    KeysCons(("patientCpf", JString(v.patientCpf)), d + last);
  }

  /** `{ ...data, isActive: initialData.isActive }` */
  function UpdateBody(initial: Appointment, data: AppointmentFormValues): Object {
    Spread(ValuesObject(data), [("isActive", JBool(initial.isActive))])
  }

  /** `{ ...data, isActive: true }` */
  function CreateBody(data: AppointmentFormValues): Object {
    Spread(ValuesObject(data), [("isActive", JBool(true))])
  }

  lemma ValuesWithActive(data: AppointmentFormValues, active: bool)
    ensures Spread(ValuesObject(data), [("isActive", JBool(active))]) == ValuesObject(data) + [("isActive", JBool(active))]
    ensures DistinctKeys(ValuesObject(data) + [("isActive", JBool(active))])
    ensures "id" !in Keys(ValuesObject(data) + [("isActive", JBool(active))])
  {
    var a, b := ValuesObject(data), [("isActive", JBool(active))];
    ValuesObjectKeys(data);
    assert Keys(b) == ["isActive"];
    SpreadDisjoint(a, b);
    KeysAppend(a, b);
    SpreadCopy(a);
    AssignDistinct(a, b);
  }

  /**
   * The body the edit sends: the appointment's `id`, the form's values, and the
   * edited appointment's own `isActive`, whatever the form holds.
   */
  lemma UpdateBodySent(initial: Appointment, data: AppointmentFormValues)
    ensures BodyOf(UpdateAppointment(initial.id, UpdateBody(initial, data)))
      == Some([("id", JString(initial.id))] + ValuesObject(data) + [("isActive", JBool(initial.isActive))])
  {
    ValuesWithActive(data, initial.isActive);
    var body := UpdateBody(initial, data);
    assert body == ValuesObject(data) + [("isActive", JBool(initial.isActive))];
    assert [("id", JString(initial.id))] + body
      == [("id", JString(initial.id))] + ValuesObject(data) + [("isActive", JBool(initial.isActive))];
  }

  /** A create body is the form's values followed by `isActive: true`. */
  lemma CreateBodyActive(data: AppointmentFormValues)
    ensures CreateBody(data) == ValuesObject(data) + [("isActive", JBool(true))]
  {
    ValuesWithActive(data, true);
  }

  // ---------------------------------------------------------------------------
  // Submit

  const UpdatedMessage := "Atendimento atualizado com sucesso!"
  const CreatedMessage := "Atendimento cadastrado com sucesso!"
  const FailureFallback := "Erro ao cadastrar atendimento"

  /** The edit path: the update under the appointment's id and its report. */
  function UpdateEffects(initial: Appointment, data: AppointmentFormValues, write: Settled<()>): seq<Effect> {
    WriteTrace(UpdateAppointment(initial.id, UpdateBody(initial, data)), write, UpdatedMessage, FailureFallback, false)
  }

  /** The create path: the new appointment and its report, with a reset on success. */
  function CreateEffects(data: AppointmentFormValues, write: Settled<()>): seq<Effect> {
    WriteTrace(CreateAppointment(CreateBody(data)), write, CreatedMessage, FailureFallback, true)
  }

  /**
   * An edit sends the update first, never resets the form, shows one toast, an
   * error one exactly when the update failed, and calls `onSuccess` exactly when it succeeded.
   */
  lemma UpdateOutcome(initial: Appointment, data: AppointmentFormValues, write: Settled<()>)
    ensures var e := UpdateEffects(initial, data, write);
      e[0] == Called(UpdateAppointment(initial.id, UpdateBody(initial, data)))
      && ResetForm !in e
      && (NotifiedSuccess in e <==> write.Resolved?)
      && (forall i :: 0 <= i < |e| && e[i].Showed? ==> (e[i].toast.destructive <==> write.Rejected?))
      && (write.Rejected? ==> Showed(ErrorToast(write.message, FailureFallback)) in e)
      && (write.Resolved? ==> Showed(SuccessToast(UpdatedMessage)) in e)
  {
    WriteTraceOutcome(UpdateAppointment(initial.id, UpdateBody(initial, data)), write, UpdatedMessage, FailureFallback, false);
  }

  /**
   * A create sends the new appointment first; the form is reset and `onSuccess`
   * called exactly when the creation succeeded, and the one toast is an error
   * toast exactly when it failed.
   */
  lemma CreateOutcome(data: AppointmentFormValues, write: Settled<()>)
    ensures var e := CreateEffects(data, write);
      e[0] == Called(CreateAppointment(CreateBody(data)))
      && (ResetForm in e <==> write.Resolved?)
      && (NotifiedSuccess in e <==> write.Resolved?)
      && (forall i :: 0 <= i < |e| && e[i].Showed? ==> (e[i].toast.destructive <==> write.Rejected?))
      && (write.Rejected? ==> Showed(ErrorToast(write.message, FailureFallback)) in e)
      && (write.Resolved? ==> Showed(SuccessToast(CreatedMessage)) in e)
  {
    WriteTraceOutcome(CreateAppointment(CreateBody(data)), write, CreatedMessage, FailureFallback, true);
  }

  /** The edit branch of `onSubmit`: update under the appointment's id, keeping its `isActive`. */
  method SubmitUpdate(initial: Appointment, data: AppointmentFormValues, write: Settled<()>) returns (effects: seq<Effect>)
    ensures effects == UpdateEffects(initial, data, write)
  {
    var update := UpdateAppointment(initial.id, UpdateBody(initial, data));
    effects := AwaitWrite(update, write, UpdatedMessage, FailureFallback, false);
  }

  /** The create branch of `onSubmit`: create the appointment active; `created` says whether to reset. */
  method SubmitCreate(data: AppointmentFormValues, write: Settled<()>) returns (effects: seq<Effect>, created: bool)
    ensures effects == CreateEffects(data, write)
    ensures created <==> write.Resolved?
  {
    var create := CreateAppointment(CreateBody(data));
    effects := AwaitWrite(create, write, CreatedMessage, FailureFallback, true);
    created := write.Resolved?;
  }

  /** `formatLocalDateTime(date)`: '' for no date, else `YYYY-MM-DDTHH:mm`. */
  function FormatLocalDateTime(date: Option<LocalDateTime>): string {
    if date.None? then "" else FormatMinutes(date.value)
  }

  /**
   * The picker's string is empty exactly when no date is picked, and otherwise
   * reads back as the picked reading up to the minute.
   */
  lemma FormatLocalDateTimeReadsBack(date: Option<LocalDateTime>)
    requires date.Some? ==> Valid(date.value)
    ensures FormatLocalDateTime(date) == "" <==> date.None?
    ensures date.Some? ==> ParseMinutes(FormatLocalDateTime(date)) == Some(date.value.(seconds := 0))
  {
    if date.Some? {
      ParseFormatMinutes(date.value);
    }
  }

  // ---------------------------------------------------------------------------
  // The mounted form

  /** One mounted appointment form: its props, its patient options and its input values. */
  class AppointmentFormState {
    const mode: Mode
    const initialData: Option<Appointment>
    var patients: seq<Patient>
    var values: AppointmentFormValues

    constructor (mode: Mode, initialData: Option<Appointment>)
      ensures this.mode == mode && this.initialData == initialData
      ensures patients == [] && values == DefaultValues(initialData)
    {
      this.mode := mode;
      this.initialData := initialData;
      patients := [];
      values := DefaultValues(initialData);
    }

    /** The mount effect: ask for the active patients, then store what arrives. */
    method LoadPatients(fetched: seq<Patient>) returns (call: ApiCall)
      modifies this
      ensures call == ApiCall(PatientsEndpoint(Some(PatientFilters(None, None, Some(true)))), None)
      ensures patients == fetched && values == old(values)
    {
      call := GetPatients(Some(PatientFilters(None, None, Some(true))));
      patients := fetched;
    }

    /** The user edits the inputs. */
    method Input(v: AppointmentFormValues)
      modifies this
      ensures values == v && patients == old(patients)
    {
      values := v;
    }

    /**
     * The effect on `initialData` and `patients`: with an edited appointment and a
     * loaded list, put the placeholder in front if the patient is missing, and
     * reset the inputs to the appointment.
     */
    method SyncWithInitialData()
      modifies this
      ensures patients == WithPlaceholder(old(patients), initialData)
      ensures values == if initialData.Some? && |old(patients)| > 0 then DefaultValues(initialData) else old(values)
    {
      if initialData.Some? && |patients| > 0 {
        var a := initialData.value;
        if !HasCpf(patients, a.patientCpf) {
          patients := [Placeholder(a)] + patients;
        }
        values := AppointmentFormValues(a.patientCpf, Some(if a.dateTime != "" then a.dateTime else ""), a.description);
      }
    }

    /**
     * `handleSubmit(onSubmit)`: invalid values stop at the schema; otherwise edit
     * or create, and reset the inputs once an appointment is created.
     */
    method Submit(write: Settled<()>) returns (errors: seq<FieldError>, effects: seq<Effect>)
      modifies this
      ensures patients == old(patients)
      ensures errors == AppointmentErrors(old(values))
      ensures errors != [] ==> effects == [] && values == old(values)
      ensures errors == [] && mode == EditMode && initialData.Some? ==>
        effects == UpdateEffects(initialData.value, old(values), write) && values == old(values)
      ensures errors == [] && !(mode == EditMode && initialData.Some?) ==>
        effects == CreateEffects(old(values), write)
        && values == (if write.Resolved? then DefaultValues(initialData) else old(values))
    {
      errors := AppointmentErrors(values);
      if errors != [] {
        return errors, [];
      }
      if mode == EditMode && initialData.Some? {
        effects := SubmitUpdate(initialData.value, values, write);
        return;
      }
      var created;
      effects, created := SubmitCreate(values, write);
      if created {
        values := DefaultValues(initialData);
      }
    }
  }

  /** Running the placeholder effect a second time, as the changed list triggers, leaves the list as it was. */
  method SyncTwice(form: AppointmentFormState)
    modifies form
    ensures form.patients == WithPlaceholder(old(form.patients), form.initialData)
  {
    form.SyncWithInitialData();
    form.SyncWithInitialData();
    WithPlaceholderIdempotent(old(form.patients), form.initialData);
  }
}
