/**
 * The status select shared by the patient and appointment filter forms
 * (src/pages/Patients.tsx, src/pages/Appointments.tsx): the option string it
 * emits read as a tri-state filter, and the string it displays for one.
 */
module FilterForm {
  import opened Types

  /** `value === '' ? undefined : value === 'true'` */
  function StatusFromSelect(value: string): (status: Option<bool>)
    ensures status.None? <==> value == ""
    ensures status == Some(true) <==> value == "true"
    ensures status == Some(false) <==> value != "" && value != "true"
  {
    if value == "" then None else Some(value == "true")
  }

  /** `isActive === undefined ? '' : isActive ? 'true' : 'false'` */
  function StatusSelectValue(status: Option<bool>): (value: string)
    ensures value in {"", "true", "false"}
  {
    match status
    case None => ""
    case Some(b) => if b then "true" else "false"
  }

  /** Displaying a status and reading the displayed option back gives the same status. */
  lemma StatusRoundTrip(status: Option<bool>)
    ensures StatusFromSelect(StatusSelectValue(status)) == status
  {
  }

  /**
   * Reading an option and displaying the result gives the option back for the
   * three options the select offers; any other string is displayed as 'false'.
   */
  lemma SelectRoundTrip(value: string)
    ensures value in {"", "true", "false"} ==> StatusSelectValue(StatusFromSelect(value)) == value
    ensures value !in {"", "true", "false"} ==> StatusSelectValue(StatusFromSelect(value)) == "false"
  {
  }
}
