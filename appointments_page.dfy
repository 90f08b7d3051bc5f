/**
 * The filter form of the appointments page (src/pages/Appointments.tsx): the
 * draft `form` and the active `filters`, the CPF input, the status select, the
 * two date-time pickers and their minute-precision formatter, and submit.
 */
module AppointmentsPage {
  import opened Types
  import opened Timestamp
  import opened FilterForm
  import opened FormUrlEncoded
  import opened Api

  datatype PageState = PageState(filters: AppointmentFilters, form: AppointmentFilters)

  /** Both start as `{}`. */
  const Initial := PageState(NoAppointmentFilters, NoAppointmentFilters)

  /** `setForm(prev => ({ ...prev, [id]: value }))` for the one text input, whose id is `patientCpf`. */
  function HandleChange(s: PageState, value: string): (r: PageState)
    ensures r.form.patientCpf == Some(value)
    ensures r.form.start == s.form.start && r.form.end == s.form.end
      && r.form.isActive == s.form.isActive && r.filters == s.filters
  {
    s.(form := s.form.(patientCpf := Some(value)))
  }

  /** `setForm(prev => ({ ...prev, isActive: <the select's option read as a status> }))` */
  function HandleStatus(s: PageState, value: string): (r: PageState)
    ensures r.form.isActive == StatusFromSelect(value)
    ensures r.form.start == s.form.start && r.form.end == s.form.end
      && r.form.patientCpf == s.form.patientCpf && r.filters == s.filters
  {
    s.(form := s.form.(isActive := StatusFromSelect(value)))
  }

  /** The `value` prop the status select is given for the draft's status. */
  function StatusValue(s: PageState): string {
    StatusSelectValue(s.form.isActive)
  }

  /** The select's option values: "Todos" (`showAllOption`), 'Ativo' and 'Inativo'. */
  const StatusOptions: seq<string> := ["", "true", "false"]

  /**
   * A pick sets the draft's status, "Todos" clearing it, and the select's value
   * becomes that option; the select's value reads back as the draft's status.
   */
  lemma StatusDisplayRoundTrip(s: PageState, value: string)
    requires value in StatusOptions
    ensures StatusValue(HandleStatus(s, value)) == value
    ensures StatusFromSelect(StatusValue(s)) == s.form.isActive
  {
    SelectRoundTrip(value);
    StatusRoundTrip(s.form.isActive);
  }

  /**
   * The page opens with the appointment list unfiltered, GET /appointments with
   * no query, and the select on "Todos".
   */
  lemma InitialListsAll()
    ensures RouteOf(ApiCall(AppointmentsEndpoint(Some(Initial.filters)), None)) == List(Appointments, [])
    ensures StatusValue(Initial) == StatusOptions[0]
  {
    ListRoute(Appointments, []);
  }

  /** `formatLocalDateTime(date)`: undefined for no date, else `YYYY-MM-DDTHH:mm`. */
  function FormatLocalDateTime(date: Option<LocalDateTime>): Option<string> {
    if date.None? then None else Some(FormatMinutes(date.value))
  }

  /**
   * The formatter gives undefined exactly for no date, and its string reads back
   * as the picked reading up to the minute.
   */
  lemma FormatLocalDateTimeReadsBack(date: Option<LocalDateTime>)
    requires date.Some? ==> Valid(date.value)
    ensures FormatLocalDateTime(date).None? <==> date.None?
    ensures date.Some? ==> ParseMinutes(FormatLocalDateTime(date).value) == Some(date.value.(seconds := 0))
  {
    if date.Some? {
      ParseFormatMinutes(date.value);
    }
  }

  datatype DateField = Start | End

  /** `setForm(prev => ({ ...prev, [field]: formatLocalDateTime(date) }))` */
  function HandleDate(s: PageState, field: DateField, date: Option<LocalDateTime>): PageState {
    match field
    case Start => s.(form := s.form.(start := FormatLocalDateTime(date)))
    case End => s.(form := s.form.(end := FormatLocalDateTime(date)))
  }

  /**
   * A picker sets only its own bound; clearing it leaves the bound undefined,
   * so a submitted query then carries no such key.
   */
  lemma HandleDateTouchesOneBound(s: PageState, field: DateField, date: Option<LocalDateTime>)
    ensures var r := HandleDate(s, field, date);
      (field == Start ==> r.form.start == FormatLocalDateTime(date) && r.form.end == s.form.end)
      && (field == End ==> r.form.end == FormatLocalDateTime(date) && r.form.start == s.form.start)
      && r.form.patientCpf == s.form.patientCpf && r.form.isActive == s.form.isActive && r.filters == s.filters
    ensures date.None? ==>
      GetParam(AppointmentQuery(Some(HandleSubmit(HandleDate(s, field, date)).filters)),
        match field case Start => "start" case End => "end") == None
  {
    AppointmentQueryShape(Some(HandleSubmit(HandleDate(s, field, date)).filters));
  }

  /** `setFilters(form)` */
  function HandleSubmit(s: PageState): PageState {
    s.(filters := s.form)
  }

  /** After a submit the list's filters are exactly the draft, which itself is kept. */
  lemma HandleSubmitCopies(s: PageState)
    ensures HandleSubmit(s).filters == s.form && HandleSubmit(s).form == s.form
    ensures AppointmentsEndpoint(Some(HandleSubmit(s).filters)) == AppointmentsEndpoint(Some(s.form))
  {
  }

  /** A picked start reaches the query as the formatted minute, which reads back as the picked reading. */
  lemma PickedStartInQuery(s: PageState, t: LocalDateTime)
    requires Valid(t)
    ensures var q := AppointmentQuery(Some(HandleSubmit(HandleDate(s, Start, Some(t))).filters));
      GetParam(q, "start") == Some(FormatMinutes(t))
      && ParseMinutes(GetParam(q, "start").value) == Some(t.(seconds := 0))
  {
    var f := HandleSubmit(HandleDate(s, Start, Some(t))).filters;
    FormatMinutesLayout(t);
    assert f.start == Some(FormatMinutes(t));
    assert FormatMinutes(t) != "";
    AppointmentQueryShape(Some(f));
    ParseFormatMinutes(t);
  }
}
