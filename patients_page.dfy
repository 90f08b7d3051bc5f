/**
 * The filter form of the patients page (src/pages/Patients.tsx): a draft
 * `form` the inputs edit and the `filters` the patient list is queried with,
 * which only a submit changes. Each handler is the state updater it passes to
 * `setForm` or `setFilters`.
 */
module PatientsPage {
  import opened Types
  import opened FilterForm
  import opened FormUrlEncoded
  import opened Api

  datatype PageState = PageState(filters: PatientFilters, form: PatientFilters)

  /** Both start as `{}`. */
  const Initial := PageState(NoPatientFilters, NoPatientFilters)

  /** The text inputs, by their element ids `name` and `cpf`. */
  datatype TextField = Name | Cpf

  function FieldOf(form: PatientFilters, field: TextField): Option<string> {
    match field
    case Name => form.name
    case Cpf => form.cpf
  }

  /** `setForm(prev => ({ ...prev, [id]: value }))` */
  function HandleChange(s: PageState, field: TextField, value: string): PageState {
    match field
    case Name => s.(form := s.form.(name := Some(value)))
    case Cpf => s.(form := s.form.(cpf := Some(value)))
  }

  /** A text input's change sets its own key to the typed string and leaves every other key and the active filters alone. */
  lemma HandleChangeTouchesOneKey(s: PageState, field: TextField, value: string, other: TextField)
    ensures var r := HandleChange(s, field, value);
      FieldOf(r.form, field) == Some(value)
      && (other != field ==> FieldOf(r.form, other) == FieldOf(s.form, other))
      && r.form.isActive == s.form.isActive && r.filters == s.filters
  {
  }

  /** `value={form.name || ''}` */
  function DisplayedText(form: PatientFilters, field: TextField): string {
    var v := FieldOf(form, field);
    if v.Some? then v.value else ""
  }

  /** `setForm(prev => ({ ...prev, isActive: <the select's option read as a status> }))` */
  function HandleStatus(s: PageState, value: string): (r: PageState)
    ensures r.form.isActive == StatusFromSelect(value)
    ensures r.form.name == s.form.name && r.form.cpf == s.form.cpf && r.filters == s.filters
  {
    s.(form := s.form.(isActive := StatusFromSelect(value)))
  }

  /** The `value` prop the status select is given for the draft's status. */
  function StatusValue(s: PageState): string {
    StatusSelectValue(s.form.isActive)
  }

  /** The select's option values, 'Ativo' then 'Inativo'; this page shows no "all" option. */
  const StatusOptions: seq<string> := ["true", "false"]

  /**
   * A pick always sets a status and the select's value becomes that option;
   * once a status is picked the draft cannot return to no status. The select's
   * value reads back as the draft's status.
   */
  lemma StatusDisplayRoundTrip(s: PageState, value: string)
    requires value in StatusOptions
    ensures StatusValue(HandleStatus(s, value)) == value
    ensures HandleStatus(s, value).form.isActive == Some(value == "true")
    ensures StatusFromSelect(StatusValue(s)) == s.form.isActive
  {
    SelectRoundTrip(value);
    StatusRoundTrip(s.form.isActive);
  }

  /**
   * The page opens with the patient list unfiltered, GET /patients with no
   * query, while the select's value '' is none of its options.
   */
  lemma InitialListsAll()
    ensures RouteOf(ApiCall(PatientsEndpoint(Some(Initial.filters)), None)) == List(Patients, [])
    ensures StatusValue(Initial) == "" && StatusValue(Initial) !in StatusOptions
  {
    ListRoute(Patients, []);
  }

  /** `setFilters(form)` */
  function HandleSubmit(s: PageState): PageState {
    s.(filters := s.form)
  }

  /** After a submit the list's filters are exactly the draft, which itself is kept. */
  lemma HandleSubmitCopies(s: PageState)
    ensures HandleSubmit(s).filters == s.form && HandleSubmit(s).form == s.form
    ensures PatientsEndpoint(Some(HandleSubmit(s).filters)) == PatientsEndpoint(Some(s.form))
  {
  }

  /**
   * A text field cleared to '' stays in the draft as '' (and shows as empty),
   * yet once submitted it is left out of the query, which is then the same as if
   * it had never been typed in.
   */
  lemma ClearedFieldOmitted(s: PageState, field: TextField)
    ensures var r := HandleSubmit(HandleChange(s, field, ""));
      FieldOf(r.form, field) == Some("") && DisplayedText(r.form, field) == ""
      && GetParam(PatientQuery(Some(r.filters)), match field case Name => "name" case Cpf => "cpf") == None
      && PatientsEndpoint(Some(r.filters)) == PatientsEndpoint(Some(match field
           case Name => s.form.(name := None)
           case Cpf => s.form.(cpf := None)))
  {
    var r := HandleSubmit(HandleChange(s, field, ""));
    var cleared := match field case Name => s.form.(name := None) case Cpf => s.form.(cpf := None);
    PatientQueryShape(Some(r.filters));
    PatientsEndpointEqual(Some(r.filters), Some(cleared));
  }
}
