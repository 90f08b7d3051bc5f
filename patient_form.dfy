/**
 * The patient form of src/components/patients/PatientForm.tsx: the validation
 * schema, the initial values taken from the patient being edited, the request
 * bodies, and the submit procedure (update in edit mode; duplicate check then
 * create otherwise).
 */
module PatientForm {
  import opened Types
  import opened Text
  import opened JsonObject
  import opened Api
  import opened FormEffects

  /** The values the schema accepts; `complement` is the only optional field. */
  datatype PatientFormValues = PatientFormValues(
    cpf: string, name: string, birthDate: string, gender: string, zipCode: string,
    city: string, district: string, address: string, complement: Option<string>)

  /** `z.string().min(11).max(14)`; lengths are JavaScript lengths (UTF-16 code units). */
  predicate CpfValid(cpf: string) {
    11 <= Utf16Length(cpf) <= 14
  }

  predicate NameValid(name: string) {
    2 <= Utf16Length(name)
  }

  /**
   * The issues the schema reports. A CPF shorter than 11 is "CPF obrigatório",
   * longer than 14 "CPF inválido"; a name shorter than 2 is "Nome obrigatório".
   * Every other field accepts any string.
   */
  function PatientErrors(v: PatientFormValues): (errors: seq<FieldError>)
    ensures errors == [] <==> CpfValid(v.cpf) && NameValid(v.name)
    ensures FieldError("cpf", "CPF obrigatório") in errors <==> Utf16Length(v.cpf) < 11
    ensures FieldError("cpf", "CPF inválido") in errors <==> Utf16Length(v.cpf) > 14
    ensures FieldError("name", "Nome obrigatório") in errors <==> !NameValid(v.name)
    ensures forall e :: e in errors ==> e.field == "cpf" || e.field == "name"
  {
    var n := Utf16Length(v.cpf);
    (if n < 11 then [FieldError("cpf", "CPF obrigatório")]
     else if n > 14 then [FieldError("cpf", "CPF inválido")]
     else [])
    + (if NameValid(v.name) then [] else [FieldError("name", "Nome obrigatório")])
  }

  /** `birthDate ? birthDate.split('T')[0] : ''` */
  function BirthDateInput(birthDate: string): (r: string)
    ensures r <= birthDate && Lacks(r, 'T')
    ensures |r| < |birthDate| ==> birthDate[|r|] == 'T'
  {
    if birthDate != "" then BeforeFirst(birthDate, 'T') else ""
  }

  /** Cutting an already cut date changes nothing. */
  lemma BirthDateInputIdempotent(birthDate: string)
    ensures BirthDateInput(BirthDateInput(birthDate)) == BirthDateInput(birthDate)
  {
    var r := BirthDateInput(birthDate);
    if r != "" {
      IndexOfAbsent(r, 'T');
      assert r[..|r|] == r;
    }
  }

  /** A date-time `d` + "T" + time reads as the date `d`. */
  lemma BirthDateInputOfDateTime(date: string, time: string)
    requires Lacks(date, 'T')
    ensures BirthDateInput(date + "T" + time) == date
  {
    IndexOfAppend(date, 'T', time);
    assert (date + "T" + time)[..|date|] == date;
  }

  /**
   * `defaultValues`: the edited patient's fields with `birthDate` cut at 'T'
   * (its `gender || ''` is the gender itself), or every field empty.
   */
  function DefaultValues(initial: Option<Patient>): (v: PatientFormValues)
    ensures initial.None? ==> v == PatientFormValues("", "", "", "", "", "", "", "", Some(""))
    ensures initial.Some? ==> var p := initial.value;
      v.cpf == p.cpf && v.name == p.name && v.birthDate == BirthDateInput(p.birthDate)
      && v.gender == p.gender && v.zipCode == p.zipCode && v.city == p.city
      && v.district == p.district && v.address == p.address && v.complement == p.complement
  {
    match initial
    case None => PatientFormValues("", "", "", "", "", "", "", "", Some(""))
    case Some(p) =>
      PatientFormValues(p.cpf, p.name, BirthDateInput(p.birthDate), if p.gender != "" then p.gender else "",
        p.zipCode, p.city, p.district, p.address, p.complement)
  }

  /** The keys of the values object, in the schema's order. */
  function ValueKeys(v: PatientFormValues): seq<string> {
    ["cpf", "name", "birthDate", "gender", "zipCode", "city", "district", "address"]
      + (if v.complement.Some? then ["complement"] else [])
  }

  function ComplementField(v: PatientFormValues): Object {
    if v.complement.Some? then [("complement", JString(v.complement.value))] else []
  }

  /** The parsed values as the object handed to the API (an absent `complement` has no key). */
  function ValuesObject(v: PatientFormValues): Object {
    [("cpf", JString(v.cpf))] + ([("name", JString(v.name))] + ([("birthDate", JString(v.birthDate))]
      + ([("gender", JString(v.gender))] + ([("zipCode", JString(v.zipCode))] + ([("city", JString(v.city))]
      + ([("district", JString(v.district))] + ([("address", JString(v.address))] + ComplementField(v))))))))
  }

  /** The last four fixed fields and the optional complement. */
  lemma TailKeys(v: PatientFormValues)
    ensures var t := [("zipCode", JString(v.zipCode))] + ([("city", JString(v.city))]
      + ([("district", JString(v.district))] + ([("address", JString(v.address))] + ComplementField(v))));
      Keys(t) == ["zipCode", "city", "district", "address"] + Keys(ComplementField(v))
      && DistinctKeys(t)
      && Keys(ComplementField(v)) == (if v.complement.Some? then ["complement"] else [])
  {
    var t8 := ComplementField(v);
    if v.complement.Some? {
      KeysCons(("complement", JString(v.complement.value)), []);
      assert t8 == [("complement", JString(v.complement.value))] + [];
    }
    var t7 := [("address", JString(v.address))] + t8;
    KeysCons(("address", JString(v.address)), t8);
    var t6 := [("district", JString(v.district))] + t7;
    KeysCons(("district", JString(v.district)), t7);
    var t5 := [("city", JString(v.city))] + t6;
    KeysCons(("city", JString(v.city)), t6);
    KeysCons(("zipCode", JString(v.zipCode)), t5);
  }

  /** The values object has the schema's keys, in order, each once. */
  lemma ValuesObjectKeys(v: PatientFormValues)
    ensures Keys(ValuesObject(v)) == ValueKeys(v) && DistinctKeys(ValuesObject(v))
  {
    var t4 := [("zipCode", JString(v.zipCode))] + ([("city", JString(v.city))]
      + ([("district", JString(v.district))] + ([("address", JString(v.address))] + ComplementField(v))));
    TailKeys(v);
    var kc := Keys(ComplementField(v));
    var k4 := ["zipCode", "city", "district", "address"] + kc;
    assert "gender" !in k4 && "birthDate" !in k4 && "name" !in k4 && "cpf" !in k4;
    var t3 := [("gender", JString(v.gender))] + t4;
    KeysCons(("gender", JString(v.gender)), t4);
    var t2 := [("birthDate", JString(v.birthDate))] + t3;
    KeysCons(("birthDate", JString(v.birthDate)), t3);
    var t1 := [("name", JString(v.name))] + t2;
    KeysCons(("name", JString(v.name)), t2);
    KeysCons(("cpf", JString(v.cpf)), t1);
    assert Keys(ValuesObject(v)) == ["cpf", "name", "birthDate", "gender"] + k4;
  }

  /** `{ ...data, cpf: initialData.cpf }` */
  function UpdateBody(initial: Patient, data: PatientFormValues): Object {
    Spread(ValuesObject(data), [("cpf", JString(initial.cpf))])
  }

  /**
   * The update body keeps the form's keys in their order and every value the
   * form holds, except `cpf`, which is the edited patient's whatever the form says.
   */
  lemma UpdateBodyPinsCpf(initial: Patient, data: PatientFormValues, k: string)
    ensures Keys(UpdateBody(initial, data)) == ValueKeys(data) && DistinctKeys(UpdateBody(initial, data))
    ensures Get(UpdateBody(initial, data), "cpf") == Some(JString(initial.cpf))
    ensures k != "cpf" ==> Get(UpdateBody(initial, data), k) == Get(ValuesObject(data), k)
  {
    var a, b := ValuesObject(data), [("cpf", JString(initial.cpf))];
    ValuesObjectKeys(data);
    assert Keys(b) == ["cpf"];
    SpreadOverrideKeys(a, b);
    SpreadGet(a, b, k);
    SpreadGet(a, b, "cpf");
  }

  /** `{ ...data, isActive: true }` */
  function CreateBody(data: PatientFormValues): Object {
    Spread(ValuesObject(data), [("isActive", JBool(true))])
  }

  /** A create body is the form's values followed by `isActive: true`. */
  lemma CreateBodyActive(data: PatientFormValues)
    ensures CreateBody(data) == ValuesObject(data) + [("isActive", JBool(true))]
    ensures Get(CreateBody(data), "isActive") == Some(JBool(true))
  {
    var a, b := ValuesObject(data), [("isActive", JBool(true))];
    ValuesObjectKeys(data);
    assert Keys(b) == ["isActive"];
    SpreadDisjoint(a, b);
    SpreadGet(a, b, "isActive");
  }

  function DuplicateFilter(cpf: string): PatientFilters {
    PatientFilters(None, Some(cpf), None)
  }

  /** The lookup `getPatients({ cpf })` issues before a create. */
  function DuplicateCheck(cpf: string): ApiCall {
    ApiCall(PatientsEndpoint(Some(DuplicateFilter(cpf))), None)
  }

  /** The duplicate check asks the patient list for exactly the entered CPF. */
  lemma DuplicateCheckQuery(cpf: string)
    requires cpf != ""
    ensures PatientQuery(Some(DuplicateFilter(cpf))) == [("cpf", cpf)]
    ensures RouteOf(DuplicateCheck(cpf)) == List(Patients, [("cpf", cpf)])
  {
    ListRoute(Patients, PatientQuery(Some(DuplicateFilter(cpf))));
  }

  const UpdatedMessage := "Paciente atualizado com sucesso!"
  const CreatedMessage := "Paciente cadastrado com sucesso!"
  const DuplicateMessage := "CPF já cadastrado!"
  const FailureFallback := "Erro ao cadastrar paciente"

  /** The trace of the edit path: the update under the original CPF and its report. */
  function UpdateEffects(initial: Patient, data: PatientFormValues, write: Settled<()>): seq<Effect> {
    WriteTrace(UpdatePatient(initial.cpf, UpdateBody(initial, data)), write, UpdatedMessage, FailureFallback, false)
  }

  /**
   * An edit sends the update first, never resets the form, shows one toast, an
   * error one exactly when the update failed, and calls `onSuccess` exactly when it succeeded.
   */
  lemma UpdateOutcome(initial: Patient, data: PatientFormValues, write: Settled<()>)
    ensures var e := UpdateEffects(initial, data, write);
      e[0] == Called(UpdatePatient(initial.cpf, UpdateBody(initial, data)))
      && ResetForm !in e
      && (NotifiedSuccess in e <==> write.Resolved?)
      && (forall i :: 0 <= i < |e| && e[i].Showed? ==> (e[i].toast.destructive <==> write.Rejected?))
      && (write.Rejected? ==> Showed(ErrorToast(write.message, FailureFallback)) in e)
      && (write.Resolved? ==> Showed(SuccessToast(UpdatedMessage)) in e)
  {
    WriteTraceOutcome(UpdatePatient(initial.cpf, UpdateBody(initial, data)), write, UpdatedMessage, FailureFallback, false);
  }

  /**
   * The create path for a given lookup call and create call: the lookup; then
   * an error toast if it threw, the duplicate toast if it found a patient, and
   * otherwise the create call and its report, with a reset on success.
   */
  function CreateTrace(check: ApiCall, create: ApiCall, lookup: Settled<seq<Patient>>, write: Settled<()>): seq<Effect> {
    [Called(check)]
      + match lookup
        case Rejected(m) => [Showed(ErrorToast(m, FailureFallback))]
        case Resolved(existing) =>
          if |existing| > 0 then [Showed(Toast("Erro", DuplicateMessage, true))]
          else WriteTrace(create, write, CreatedMessage, FailureFallback, true)
  }

  function CreateEffects(data: PatientFormValues, lookup: Settled<seq<Patient>>, write: Settled<()>): seq<Effect> {
    CreateTrace(DuplicateCheck(data.cpf), CreatePatient(CreateBody(data)), lookup, write)
  }

  /**
   * The create path always starts with the lookup; it makes the create call
   * exactly when the lookup found no patient, and resets the form and calls
   * `onSuccess` exactly when the create call then succeeded. The one toast
   * shown is an error toast exactly when nothing was created.
   */
  lemma CreateTraceOutcome(check: ApiCall, create: ApiCall, lookup: Settled<seq<Patient>>, write: Settled<()>)
    requires check != create
    ensures var e, none := CreateTrace(check, create, lookup, write), lookup.Resolved? && |lookup.value| == 0;
      e[0] == Called(check)
      && (Called(create) in e <==> none)
      && (ResetForm in e <==> none && write.Resolved?)
      && (NotifiedSuccess in e <==> ResetForm in e)
      && (forall i :: 0 <= i < |e| && e[i].Showed? ==> (e[i].toast.destructive <==> ResetForm !in e))
      && (forall i, j :: 0 <= i < j < |e| && e[i].Showed? ==> !e[j].Showed?)
      && (lookup.Rejected? ==> Showed(ErrorToast(lookup.message, FailureFallback)) in e)
      && (lookup.Resolved? && |lookup.value| > 0 ==> Showed(Toast("Erro", DuplicateMessage, true)) in e)
  {
    var e := CreateTrace(check, create, lookup, write);
    if lookup.Rejected? {
      assert e == [Called(check), Showed(ErrorToast(lookup.message, FailureFallback))];
    } else if |lookup.value| > 0 {
      assert e == [Called(check), Showed(Toast("Erro", DuplicateMessage, true))];
    } else {
      var w := WriteTrace(create, write, CreatedMessage, FailureFallback, true);
      WriteTraceOutcome(create, write, CreatedMessage, FailureFallback, true);
      assert e == [Called(check)] + w;
      assert forall i :: 1 <= i < |e| ==> e[i] == w[i - 1];
    }
  }

  /** The lookup and the create are different calls: one lists, the other posts. */
  lemma CreateOutcome(data: PatientFormValues, lookup: Settled<seq<Patient>>, write: Settled<()>)
    ensures var e := CreateEffects(data, lookup, write);
      e[0] == Called(DuplicateCheck(data.cpf))
      && (Called(CreatePatient(CreateBody(data))) in e <==> lookup.Resolved? && |lookup.value| == 0)
      && (ResetForm in e <==> lookup.Resolved? && |lookup.value| == 0 && write.Resolved?)
  {
    var check, create := DuplicateCheck(data.cpf), CreatePatient(CreateBody(data));
    assert check.options.None? && create.options.Some?;
    CreateTraceOutcome(check, create, lookup, write);
  }

  /** The edit branch of `onSubmit`: update under the original CPF, then report. */
  method SubmitUpdate(initial: Patient, data: PatientFormValues, write: Settled<()>) returns (effects: seq<Effect>)
    ensures effects == UpdateEffects(initial, data, write)
  {
    var update := UpdatePatient(initial.cpf, UpdateBody(initial, data));
    effects := AwaitWrite(update, write, UpdatedMessage, FailureFallback, false);
  }

  /** The create branch of `onSubmit`; `created` says whether the form is to be reset. */
  method SubmitCreate(data: PatientFormValues, lookup: Settled<seq<Patient>>, write: Settled<()>)
    returns (effects: seq<Effect>, created: bool)
    ensures effects == CreateEffects(data, lookup, write)
    ensures created <==> lookup.Resolved? && |lookup.value| == 0 && write.Resolved?
  {
    var check := GetPatients(Some(DuplicateFilter(data.cpf)));
    effects := [Called(check)];
    if lookup.Rejected? {
      return effects + [Showed(ErrorToast(lookup.message, FailureFallback))], false;
    }
    if |lookup.value| > 0 {
      return effects + [Showed(Toast("Erro", DuplicateMessage, true))], false;
    }
    var report := AwaitWrite(CreatePatient(CreateBody(data)), write, CreatedMessage, FailureFallback, true);
    return effects + report, write.Resolved?;
  }

  /** One mounted patient form: its props and the values its inputs hold. */
  class PatientFormState {
    const mode: Mode
    const initialData: Option<Patient>
    var values: PatientFormValues

    constructor (mode: Mode, initialData: Option<Patient>)
      ensures this.mode == mode && this.initialData == initialData
      ensures values == DefaultValues(initialData)
    {
      this.mode := mode;
      this.initialData := initialData;
      values := DefaultValues(initialData);
    }

    /** The user edits the inputs. */
    method Input(v: PatientFormValues)
      modifies this
      ensures values == v
    {
      values := v;
    }

    /** The effect on `initialData`: reset the inputs to the edited patient, date cut at 'T'. */
    method SyncWithInitialData()
      modifies this
      ensures values == if initialData.Some? then DefaultValues(initialData) else old(values)
    {
      if initialData.Some? {
        var p := initialData.value;
        values := PatientFormValues(p.cpf, p.name, BirthDateInput(p.birthDate), p.gender,
          p.zipCode, p.city, p.district, p.address, p.complement);
      }
    }

    /**
     * `handleSubmit(onSubmit)`: invalid values stop at the schema and nothing
     * else happens. Otherwise, in edit mode with a patient, update it; else run
     * the create path, and reset the inputs to their defaults once the patient
     * is created.
     */
    method Submit(lookup: Settled<seq<Patient>>, write: Settled<()>)
      returns (errors: seq<FieldError>, effects: seq<Effect>)
      modifies this
      ensures errors == PatientErrors(old(values))
      ensures errors != [] ==> effects == [] && values == old(values)
      ensures errors == [] && mode == EditMode && initialData.Some? ==>
        effects == UpdateEffects(initialData.value, old(values), write) && values == old(values)
      ensures errors == [] && !(mode == EditMode && initialData.Some?) ==>
        effects == CreateEffects(old(values), lookup, write)
        && values == (if ResetForm in effects then DefaultValues(initialData) else old(values))
    {
      errors := PatientErrors(values);
      if errors != [] {
        return errors, [];
      }
      if mode == EditMode && initialData.Some? {
        effects := SubmitUpdate(initialData.value, values, write);
        return;
      }
      var created;
      effects, created := SubmitCreate(values, lookup, write);
      CreateOutcome(old(values), lookup, write);
      if created {
        values := DefaultValues(initialData);
      }
    }
  }
}
