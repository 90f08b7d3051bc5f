/**
 * The records the front end exchanges with the remote service (src/types/index.ts).
 * Optional TypeScript properties (`x?: T`) become `Option<T>`: `None` is an absent
 * property, `Some(v)` a present one.
 */
module Types {

  datatype Option<+T> = None | Some(value: T) {
    function GetOr(default: T): T {
      match this
      case Some(v) => v
      case None => default
    }
  }

  /** A patient, identified by its CPF (the Brazilian taxpayer number). */
  datatype Patient = Patient(
    cpf: string,
    name: string,
    birthDate: string,
    gender: string,
    zipCode: string,
    city: string,
    district: string,
    address: string,
    complement: Option<string>,
    isActive: bool,
    createdAt: Option<string>,
    updatedAt: Option<string>)

  /** An appointment, identified by a server-assigned id, tied to a patient by CPF. */
  datatype Appointment = Appointment(
    id: string,
    patientCpf: string,
    patient: Option<Patient>,
    dateTime: string,
    description: string,
    isActive: bool,
    createdAt: Option<string>,
    updatedAt: Option<string>)

  /** Criteria for listing patients; every field optional. */
  datatype PatientFilters = PatientFilters(
    name: Option<string>,
    cpf: Option<string>,
    isActive: Option<bool>)

  /** Criteria for listing appointments; every field optional. */
  datatype AppointmentFilters = AppointmentFilters(
    start: Option<string>,
    end: Option<string>,
    patientCpf: Option<string>,
    isActive: Option<bool>)

  const NoPatientFilters := PatientFilters(None, None, None)
  const NoAppointmentFilters := AppointmentFilters(None, None, None, None)

  /**
   * JavaScript truthiness of an optional string property: present and not the
   * empty string. This is the test `if (filters?.name)` applies.
   */
  predicate Truthy(s: Option<string>) {
    s.Some? && s.value != ""
  }
}
