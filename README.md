# ACME-UI front end: API client, forms and filter pages

This project models the logic of the ACME-UI front end, a React client for a
clinic's patient and appointment service. The model covers five parts:

- **The API client** (`src/services/api.ts`).
  - `request` sends `ApiBaseUrl + endpoint` with the JSON content type and sorts the reply into an error, the empty object or a parsed body.
  - Every operation builds its call: path, HTTP method, body and query. `getPatients` and `getAppointments` append their filters one by one to a `URLSearchParams`, and `getRecentActiveAppointments` formats its lower bound as a local `YYYY-MM-DDTHH:mm:ss` string.
  - Each call is checked against `RouteOf`, which reads a call the way the service's routing table does. The query string is checked against the application/x-www-form-urlencoded serializer (WHATWG URL Standard, section 5.2) and a reader that inverts it.
- **The patient form** (`src/components/patients/PatientForm.tsx`).
  - The zod schema is modelled as the list of field errors it reports.
  - The initial values have the birth date cut at `T`.
  - The update body pins the CPF and the create body adds `isActive: true`.
  - `onSubmit` is modelled on both its paths: update, or a duplicate-CPF lookup followed by a create, with the toasts, the reset and the `onSuccess` call.
- **The appointment form** (`src/components/appointments/AppointmentForm.tsx`).
  - The schema, the initial values, the patient option list and its placeholder for an unlisted patient, both bodies, `onSubmit`, and the picker's minute-precision formatter.
- **The filter pages** (`src/pages/Patients.tsx`, `src/pages/Appointments.tsx`).
  - The draft `form` and the active `filters`, the text, status and date handlers, the status select's display value, and submit.

Three things are inputs rather than effects:

- An HTTP reply is an input of `Request`.
- A form's awaited API results (`Settled` values) are inputs of its submit methods. The submit methods return the trace of what the handler does: API calls made, toasts shown, form reset, `onSuccess` called.
- The clock reading and the local calendar reading of `Date` are inputs of `GetRecentActiveAppointments`.

Modules, in dependency order:

- `Types`: the records of `src/types/index.ts`.
- `Text`: decimal strings, `padStart(2, '0')`, JavaScript string length.
- `Timestamp`: the two local timestamp layouts and their readers.
- `FormUrlEncoded`: `URLSearchParams`.
- `JsonObject`: ordered JavaScript objects and object spread.
- `Api`.
- `FormEffects`: the shared submit trace.
- `PatientForm`, `AppointmentForm`.
- `FilterForm`: the status select.
- `PatientsPage`, `AppointmentsPage`.

The code at src/services/api.ts:7-13 builds a merged `headers` object, but the trailing `...options` replaces it whenever the caller passes `headers`. This is the one row under "Findings". `Request` uses the merged, corrected `Init`. `Api.InitAgreesWithoutHeaders` proves that `Init` agrees with the code as written for every call the client makes, since none passes headers.

## Model

| member | source | states |
|---|---|---|
| Api.InitAsWrittenDropsContentType | src/services/api.ts:7-13 | As written, with `...options` spread after `headers`, a caller that passes its own headers sends no `Content-Type` at all |
| Api.Init | src/services/api.ts:7-13 | The corrected merge. `Content-Type` is always sent, and is `application/json` unless the caller sets it. Every caller header arrives unchanged. Method and body are passed through |
| Api.InitAgreesWithoutHeaders | src/services/api.ts:7-13 | Without caller headers, which covers every call in the client, the corrected and the as-written init objects are equal |
| Api.Request | src/services/api.ts:5-28 | Fetches the API root plus the endpoint. A network failure propagates. A 400 fails with the body text, read with `text()`. Any other non-2xx status fails with `API Error: <status> <statusText>`, body unread. A 204 gives `{}` without parsing. Every other 2xx is parsed as JSON |
| Api.CreateRoute | src/services/api.ts:41-46 | A create call is a POST to the collection path with the given body, and reaches the service's create route |
| Api.UpdateRoute | src/services/api.ts:48-53 | A PUT to `/<resource>/<key>` reaches the update route for exactly that key, with the given body, when the key is a segment the URL parser leaves intact (`SafeSegment`) and does not end in a space or a C0 control, which the parser strips from the end of the URL (`SafeFinalSegment`) |
| Api.DeactivateRoute | src/services/api.ts:55-59 | A body-less PATCH to `/<resource>/<key>/deactivate` reaches the deactivate route for exactly that key, under the same `SafeSegment` condition |
| Api.DashboardRoute | src/services/api.ts:61-63 | A GET of `/<resource>/dashboard` reaches the dashboard route, without a body |
| Api.PatientCalls | src/services/api.ts:41-63 | Each patient operation reaches its own route with its own body. Update and deactivate address the given CPF when it is non-empty, is not `.` or `..`, and has none of `/ ? # % \` and no tab, LF or CR; the update also needs a last character above the space |
| Api.UpdateAppointmentBody | src/services/api.ts:84-89 | `{ id, ...appointment }` is the `id` field followed by the payload's fields unchanged, when the payload has distinct keys and none named `id` |
| Api.AppointmentCalls | src/services/api.ts:77-99 | Each appointment operation reaches its own route. A deactivate is addressed to exactly the path id when it is a `SafeSegment` key, an update when it is a `SafeFinalSegment` key, and the update's body carries that same id |
| Api.QuerySuffix | src/services/api.ts:37 | The suffix is empty exactly when no pair was appended, and is otherwise `?` followed by the serialized pairs |
| Api.QuerySuffixInjective | src/services/api.ts:37 | Different pair lists never give the same suffix |
| Api.ListRoute | src/services/api.ts:37-38 | A list call reaches the list route, and the service reads back exactly the pairs that were appended, in order |
| Api.GetPatients | src/services/api.ts:31-39 | Builds the patient list URL by successive appends. The service reads it as a list of patients filtered by exactly the patient query |
| Api.PatientQueryShape | src/services/api.ts:32-35 | The only keys are name, cpf and isActive, in that order, each at most once. `name` and `cpf` are sent exactly when truthy, with their own values. `isActive` is sent whenever defined, `false` as `"false"` |
| Api.PatientsEndpointEqual | src/services/api.ts:31-38 | Two patient filters give the same URL exactly when they agree once empty strings are read as absent fields |
| Api.GetAppointments | src/services/api.ts:66-75 | Builds the appointment list URL by successive appends. The service reads it as a list of appointments filtered by exactly the appointment query |
| Api.AppointmentQueryShape | src/services/api.ts:67-71 | The only keys are start, end, patientCpf and isActive, in that order, each at most once, under the same omission rules |
| Api.AppointmentsEndpointEqual | src/services/api.ts:66-74 | Two appointment filters give the same URL exactly when they agree once empty strings are read as absent fields |
| Api.RecentLowerBound | src/services/api.ts:104 | The lower bound lies exactly `hours` times 3 600 000 ms before the clock reading |
| Api.GetRecentActiveAppointments | src/services/api.ts:101-113 | Appends `start`, the lower bound's local reading formatted to the second, then `isActive=true`. The call always carries a `?` and reaches the appointment list route with exactly those two pairs |
| Api.RecentQueryIsAppointmentQuery | src/services/api.ts:106-111 | The recent query equals the appointment query for that `start` and `isActive: true`. Its `start` value reads back as the exact lower bound, to the second |
| Text.NatToString | src/services/api.ts:106 | `n.toString()` is a non-empty digit string with no leading zero. It has one digit exactly below 10 and at most two below 100 |
| Text.PadStart2 | src/services/api.ts:106 | `padStart(2, '0')` leaves strings of length two or more alone and left-fills shorter ones with zeros to length two |
| Text.PadTwoDigits | src/services/api.ts:106 | `pad(n)` for n below 100 is two digits that read back as n, with a leading zero below 10 |
| Text.ParseIntToString | src/services/api.ts:107 | The unpadded year is a decimal integer string that reads back as the year, negative years included |
| Text.Utf16Length | src/components/patients/PatientForm.tsx:15-16 | String length as zod measures it, in UTF-16 code units: between the number of characters and twice that |
| Text.Utf16LengthBmp | src/components/patients/PatientForm.tsx:15-16 | For text made only of characters from the Basic Multilingual Plane, that length is the number of characters |
| Text.BeforeFirst | src/components/patients/PatientForm.tsx:46 | `split(sep)[0]` is the longest prefix that lacks the separator. The separator follows it unless the string ends first |
| Timestamp.FormatMinutesLayout | src/pages/Appointments.tsx:31-32 | `YYYY-MM-DDTHH:mm` is the unpadded year, then `-`, `-`, `T`, `:` at fixed places, separating month index + 1, day, hours and minutes, each in exactly two digits |
| Timestamp.ParseFormatMinutes | src/components/appointments/AppointmentForm.tsx:87-91 | The minute-precision string reads back as every component of the reading except the seconds |
| Timestamp.ParseFormatSeconds | src/services/api.ts:106-107 | The second-precision string reads back as the full reading |
| Timestamp.FormatSecondsInjective | src/services/api.ts:107 | Different readings never give the same second-precision string |
| FormUrlEncoded.SearchParams.constructor | src/services/api.ts:32 | `new URLSearchParams()` holds no pairs |
| FormUrlEncoded.SearchParams.Append | src/services/api.ts:33-35 | `append` adds its pair at the end and changes nothing else |
| FormUrlEncoded.GetParam | src/services/api.ts:33-35 | Reading a key finds a value exactly when some appended pair has that key |
| FormUrlEncoded.EncodeUnreserved | src/services/api.ts:37 | ASCII letters, digits and `*-._` are serialized as themselves |
| FormUrlEncoded.DecodeEncode | src/services/api.ts:37 | Percent-decoding reverses the encoding of every name and value: UTF-8 bytes as `%XX`, space as `+` |
| FormUrlEncoded.SerializeEmpty | src/services/api.ts:37 | The serialized query is empty exactly when no pair was appended |
| FormUrlEncoded.SerializeLacksDelimiters | src/services/api.ts:37-38 | The serialized query contains no `?`, `#` or `/`, so it cannot change the path it is appended to |
| FormUrlEncoded.ParseSerialize | src/services/api.ts:37 | Parsing the serialized query gives back every pair, in order |
| FormUrlEncoded.SerializeInjective | src/services/api.ts:37 | Different pair lists never serialize to the same query |
| JsonObject.SpreadGet | src/components/patients/PatientForm.tsx:76-79 | In `{ ...a, ...b }` a key takes `b`'s value when `b` has it, and `a`'s otherwise |
| JsonObject.SpreadOverrideKeys | src/components/patients/PatientForm.tsx:76-79 | Spreading fields whose keys `a` already has keeps `a`'s keys and their order |
| JsonObject.SpreadDisjoint | src/components/patients/PatientForm.tsx:90 | Spreading new keys appends them after `a`'s fields |
| FormEffects.SuccessToast | src/components/patients/PatientForm.tsx:80 | A success toast has the title "Sucesso", the given text, and is not destructive |
| FormEffects.ErrorToast | src/components/patients/PatientForm.tsx:95 | An error toast has the title "Erro" and is destructive. It shows the error's message, or the fallback when the message is empty |
| FormEffects.WriteTraceOutcome | src/components/appointments/AppointmentForm.tsx:67-85 | An awaited write makes one call, first, and shows exactly one toast. The toast is an error toast exactly when the write threw. The form is reset only on success of a resetting path, and `onSuccess` is called exactly on success |
| FormEffects.AwaitWrite | src/components/appointments/AppointmentForm.tsx:68-84 | Awaiting a write inside the `try`/`catch` produces that write's trace |
| PatientForm.PatientErrors | src/components/patients/PatientForm.tsx:14-24 | The values pass exactly when the CPF has 11 to 14 code units and the name has at least 2. "CPF obrigatório" is reported exactly below 11, "CPF inválido" exactly above 14, "Nome obrigatório" exactly for a short name. No other field is checked |
| PatientForm.BirthDateInput | src/components/patients/PatientForm.tsx:46 | The birth-date input is the prefix of the stored value before its first `T`, or `''` for an empty value |
| PatientForm.BirthDateInputIdempotent | src/components/patients/PatientForm.tsx:46 | Cutting an already cut date changes nothing |
| PatientForm.BirthDateInputOfDateTime | src/components/patients/PatientForm.tsx:46 | A stored `<date>T<time>` shows as `<date>` |
| PatientForm.DefaultValues | src/components/patients/PatientForm.tsx:44-58 | An edited patient's fields, with the birth date cut. Without a patient, every field is empty, the complement included |
| PatientForm.ValuesObjectKeys | src/components/patients/PatientForm.tsx:14-24 | The submitted values hold the schema's keys in order, each once, with `complement` only when present |
| PatientForm.UpdateBodyPinsCpf | src/components/patients/PatientForm.tsx:76-79 | The update body keeps the form's keys and values, except `cpf`, which is the edited patient's whatever the form holds |
| PatientForm.CreateBodyActive | src/components/patients/PatientForm.tsx:90 | The create body is the form's values followed by `isActive: true` |
| PatientForm.DuplicateCheckQuery | src/components/patients/PatientForm.tsx:85 | The duplicate check lists patients filtered by exactly the entered CPF and nothing else |
| PatientForm.UpdateOutcome | src/components/patients/PatientForm.tsx:75-83 | An edit sends the update under the original CPF first and never resets the form. It shows one toast, an error toast exactly when the update failed, and calls `onSuccess` exactly on success |
| PatientForm.CreateTraceOutcome | src/components/patients/PatientForm.tsx:84-96 | The create path looks up the CPF first. It creates exactly when the lookup found no patient, and resets and calls `onSuccess` exactly when the create then succeeded. Exactly one toast is shown, destructive exactly when nothing was created: the lookup's error or "CPF já cadastrado!" |
| PatientForm.CreateOutcome | src/components/patients/PatientForm.tsx:84-93 | The create call with the form's body is made exactly when the CPF was not found, and the form is reset exactly when that call succeeded |
| PatientForm.SubmitUpdate | src/components/patients/PatientForm.tsx:75-83 | The edit branch produces the edit trace |
| PatientForm.SubmitCreate | src/components/patients/PatientForm.tsx:84-96 | The create branch produces the create trace and reports whether the patient was created |
| PatientForm.PatientFormState.constructor | src/components/patients/PatientForm.tsx:34-59 | A mounted form holds its props and starts from the default values |
| PatientForm.PatientFormState.SyncWithInitialData | src/components/patients/PatientForm.tsx:63-70 | With an edited patient the inputs are reset to it, birth date cut; otherwise they are kept |
| PatientForm.PatientFormState.Submit | src/components/patients/PatientForm.tsx:72-97 | Invalid values stop at the schema with no effect. In edit mode with a patient the edit trace runs and the inputs stay. Otherwise the create trace runs, and the inputs return to their defaults exactly when the trace resets the form |
| AppointmentForm.AppointmentErrors | src/components/appointments/AppointmentForm.tsx:14-18 | The values pass exactly when the CPF has at least 11 code units, a date-time is set and the description has at least 5. Each failure's own message is reported exactly when it fails |
| AppointmentForm.DefaultValues | src/components/appointments/AppointmentForm.tsx:42-46 | An edited appointment's CPF, date-time and description. A new appointment starts with empty inputs and no date-time |
| AppointmentForm.Placeholder | src/components/appointments/AppointmentForm.tsx:56 | The placeholder has the appointment's CPF and is inactive. Its name is the embedded patient's, or the CPF when that is missing or empty. Its other text fields are empty |
| AppointmentForm.WithPlaceholderShape | src/components/appointments/AppointmentForm.tsx:50-59 | The list changes only with an edited appointment, a non-empty list and an unlisted patient, and then only by the placeholder in front. Afterwards the patient is listed and the old list is intact at the end |
| AppointmentForm.WithPlaceholderIdempotent | src/components/appointments/AppointmentForm.tsx:50-65 | Running the effect again on its own result changes nothing |
| AppointmentForm.ValuesObjectKeys | src/components/appointments/AppointmentForm.tsx:14-18 | The submitted values hold patientCpf, dateTime when set, and description, in that order, each once |
| AppointmentForm.UpdateBodySent | src/components/appointments/AppointmentForm.tsx:70-73 | The edit sends `id`, then the form's values, then the edited appointment's own `isActive`, whatever the form holds |
| AppointmentForm.CreateBodyActive | src/components/appointments/AppointmentForm.tsx:78 | The create body is the form's values followed by `isActive: true` |
| AppointmentForm.UpdateOutcome | src/components/appointments/AppointmentForm.tsx:69-77 | An edit sends the update first and never resets the form. It shows one toast, an error toast exactly on failure, and calls `onSuccess` exactly on success |
| AppointmentForm.CreateOutcome | src/components/appointments/AppointmentForm.tsx:78-84 | A create sends the new appointment first. The form is reset and `onSuccess` called exactly on success, and the one toast is an error toast exactly on failure |
| AppointmentForm.SubmitUpdate | src/components/appointments/AppointmentForm.tsx:69-77 | The edit branch produces the edit trace |
| AppointmentForm.SubmitCreate | src/components/appointments/AppointmentForm.tsx:78-84 | The create branch produces the create trace and reports whether the appointment was created |
| AppointmentForm.FormatLocalDateTimeReadsBack | src/components/appointments/AppointmentForm.tsx:87-91 | The picker's string is `''` exactly for no date, and otherwise reads back as the picked reading up to the minute |
| AppointmentForm.AppointmentFormState.constructor | src/components/appointments/AppointmentForm.tsx:28-46 | A mounted form starts with no patients and the default values |
| AppointmentForm.AppointmentFormState.LoadPatients | src/components/appointments/AppointmentForm.tsx:29-32 | The mount effect asks for the active patients and stores what arrives |
| AppointmentForm.AppointmentFormState.SyncWithInitialData | src/components/appointments/AppointmentForm.tsx:50-65 | The list becomes the list with the placeholder. With an edited appointment and a loaded list the inputs are reset to it; otherwise they are kept |
| AppointmentForm.AppointmentFormState.Submit | src/components/appointments/AppointmentForm.tsx:67-85 | Invalid values stop at the schema with no effect. Otherwise the edit or create trace runs, and the inputs return to their defaults exactly when a create succeeded. The patient list is untouched |
| AppointmentForm.SyncTwice | src/components/appointments/AppointmentForm.tsx:50-65 | The effect re-triggered by its own change to the list leaves the list as one run left it |
| FilterForm.StatusFromSelect | src/pages/Patients.tsx:23-26 | `''` is no status, `'true'` is active, and any other option is inactive |
| FilterForm.StatusSelectValue | src/pages/Patients.tsx:73 | The select's `value` is `''`, `'true'` or `'false'` |
| FilterForm.StatusRoundTrip | src/pages/Patients.tsx:73 | Reading back the select's `value` for a status gives that status |
| FilterForm.SelectRoundTrip | src/pages/Appointments.tsx:26 | Picking one of the three options and displaying the result shows that option. Any other string shows as `'false'` |
| PatientsPage.HandleChangeTouchesOneKey | src/pages/Patients.tsx:18-21 | A text input sets its own key to the typed string and leaves the other keys and the active filters alone |
| PatientsPage.HandleStatus | src/pages/Patients.tsx:23-26 | The status select sets only the draft's status, to the option read as a status |
| PatientsPage.StatusDisplayRoundTrip | src/pages/Patients.tsx:67-76 | This page's select offers only `'true'` and `'false'` (no "all" option, src/components/ui/select.tsx:12,23), so a pick always sets a status and makes the select's `value` that option, and a picked status cannot be cleared again. The select's `value` reads back as the draft's status |
| PatientsPage.InitialListsAll | src/pages/Patients.tsx:15-16 | The page opens with GET /patients and no query, while the select's `value` is `''`, which is none of its options |
| PatientsPage.HandleSubmitCopies | src/pages/Patients.tsx:28-31 | Submit makes the active filters equal to the draft, which is kept, so the list is queried with the draft |
| PatientsPage.ClearedFieldOmitted | src/pages/Patients.tsx:18-21 | A field cleared to `''` stays in the draft and shows as empty. Once submitted it is left out of the query, which then equals the query as if the field had never been typed into |
| AppointmentsPage.HandleChange | src/pages/Appointments.tsx:19-22 | The CPF input sets only `patientCpf` |
| AppointmentsPage.HandleStatus | src/pages/Appointments.tsx:24-27 | The status select sets only the draft's status |
| AppointmentsPage.StatusDisplayRoundTrip | src/pages/Appointments.tsx:96-107 | Picking any of the three options ("Todos" is `''`) makes the select's `value` that option, and the select's `value` reads back as the draft's status |
| AppointmentsPage.InitialListsAll | src/pages/Appointments.tsx:16-17 | The page opens with GET /appointments and no query, and the select's `value` is the "Todos" option |
| AppointmentsPage.FormatLocalDateTimeReadsBack | src/pages/Appointments.tsx:29-33 | The formatter gives undefined exactly for no date. Otherwise its string reads back as the picked reading up to the minute |
| AppointmentsPage.HandleDateTouchesOneBound | src/pages/Appointments.tsx:35-37 | A picker sets only its own bound. Clearing it leaves the bound undefined, and the submitted query then has no such key |
| AppointmentsPage.HandleSubmitCopies | src/pages/Appointments.tsx:39-42 | Submit makes the active filters equal to the draft, which is kept |
| AppointmentsPage.PickedStartInQuery | src/pages/Appointments.tsx:35-37 | A picked start reaches the query as its formatted minute, which reads back as the picked reading |

## Left out

- The network: `fetch`, `response.text()` and `response.json()`. A reply is an input of `Api.Request`, and its JSON body is carried as text and never parsed.
- Promises and `async` ordering: awaited results are given to the submit methods as settled values.
- `console.log` in the patient form's `onSubmit`: it writes only to the console.
- The environment override of the API root in src/config/api.ts: `ApiBaseUrl` is the fallback constant.
- JavaScript `Date`, time zones and the clock. The clock reading and the local calendar reading are parameters of `Api.GetRecentActiveAppointments`, and the pickers hand over a calendar reading.
- Api.GetRecentActiveAppointments: `hours` is a natural number with no default of 2, whereas the source accepts any JavaScript number, fractions and negatives included; floating point is not modelled.
- Api.PatientCalls and Api.AppointmentCalls: the routes of update and deactivate are proved only for `SafeSegment` keys, because the source inserts CPFs and ids into paths unescaped and `RouteOf` does not model the URL parser's rewriting. Excluded are the empty key, `.` and `..`, which the parser drops or folds as dot segments, and keys containing `/`, `?`, `#`, `%`, a backslash (read as `/`), tab, LF or CR (stripped). The update route, whose key ends the URL, further needs `SafeFinalSegment`: the parser strips a trailing space or C0 control from the whole URL. The patient schema accepts such CPFs, for example `123\4567890` and `1234567890 ` (a trailing space), which an edit would send as PUT /patients/1234567890.
- PatientsPage.StatusDisplayRoundTrip: it speaks of the select's `value`, not of what the browser displays. With no status the value `''` matches no option (`PatientsPage.InitialListsAll`), so the browser shows the first option, "Ativo", while the list is unfiltered, and picking "Ativo" then fires no change; the appointments page avoids this with an "all" option (src/pages/Appointments.tsx:105-106). Browser rendering is not modelled.
- Api.Request: it sends the corrected init object `Init`, not the one the source builds (`InitAsWritten`). The two differ when a caller passes `options.headers`, where the source sends no `Content-Type`; no caller in the client passes headers, and `Api.InitAgreesWithoutHeaders` proves both equal in that case.
- FormEffects.WriteTrace: it always records `NotifiedSuccess` on success, whereas the source calls `onSuccess?.()`, which does nothing when the prop is absent; the trace records the call site, not whether a callback was given.
- AppointmentForm.AppointmentFormState.LoadPatients: it has no failure path. At src/components/appointments/AppointmentForm.tsx:29-32 a rejected `getPatients` is not caught, and the list then stays `[]`, which the model reaches by loading an empty list.
- React Query loading, caching and invalidation, and everything the pages and forms render. Dialogs, toasts as UI, and the date-picker and select widgets are represented only by the values they hand over.
- react-hook-form and zod beyond the checks modelled. An unset date-time reports zod's "Required". The `...initialData` spread brings keys outside the schema into the patient defaults, but the schema strips them, so `PatientForm.PatientFormValues` has only the schema's fields.
- FormUrlEncoded.Decode and FormUrlEncoded.Parse: their results on malformed input (a `%` not followed by a well-formed UTF-8 sequence) are not tied to any browser's behaviour. Only their inverse relation to the serializer is stated.
- The `existing.length` check in the patient form receives the lookup as a list of patients. The case where the service answers the lookup with 204 and `request` returns `{}` is not modelled.

## Findings

| source | as written | input that shows it | evidently intended | confidence | as-written member | corrected member |
|---|---|---|---|---|---|---|
| src/services/api.ts:7-13 | `{ headers: { 'Content-Type': 'application/json', ...options?.headers }, ...options }` puts `...options` last, so a caller's `headers` replaces the merged object | options `{ method: 'POST', headers: { Authorization: 'Bearer t' } }` sends no `Content-Type` | the caller's headers merged over the JSON default, so the content type is kept | not executed; no caller in the repository passes headers, so no request is affected today | Api.InitAsWritten, Api.InitAsWrittenDropsContentType | Api.Init, Api.InitAgreesWithoutHeaders |
