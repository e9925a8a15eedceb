/**
 * The constant message table of the notification pipeline: for each event
 * type, the title and text shown to the patient and to the doctor. Some
 * events have an entry for one role only, and two event types the handlers
 * are registered for have no entry at all.
 */
module NotificationMessages {
  import opened Common

  /**
   * The event types the handlers subscribe to. The module that defines their
   * string values is not part of this model; each is taken to be spelled as
   * its own constant name, which is what the message table is keyed by.
   */
  datatype Event =
    | DoctorApproved | DoctorRejected
    | AppointmentRequested | AppointmentConfirmed | AppointmentRejected
    | AppointmentCancelledByPatient | AppointmentCancelledByAdmin
    | AppointmentCompleted | AppointmentReminder | VisitSummaryAdded

  /** The `event_type` value written to the log. */
  function EventName(e: Event): (s: string)
    ensures |s| > 0
  {
    match e
    case DoctorApproved => "DOCTOR_APPROVED"
    case DoctorRejected => "DOCTOR_REJECTED"
    case AppointmentRequested => "APPOINTMENT_REQUESTED"
    case AppointmentConfirmed => "APPOINTMENT_CONFIRMED"
    case AppointmentRejected => "APPOINTMENT_REJECTED"
    case AppointmentCancelledByPatient => "APPOINTMENT_CANCELLED_BY_PATIENT"
    case AppointmentCancelledByAdmin => "APPOINTMENT_CANCELLED_BY_ADMIN"
    case AppointmentCompleted => "APPOINTMENT_COMPLETED"
    case AppointmentReminder => "APPOINTMENT_REMINDER"
    case VisitSummaryAdded => "VISIT_SUMMARY_ADDED"
  }

  /** One `{ title, message }` object. */
  datatype Notice = Notice(title: string, message: string)

  /** The `patient` and `doctor` members of one event's entry; either may be absent. */
  datatype Entry = Entry(patient: Option<Notice>, doctor: Option<Notice>)

  const MESSAGES: map<Event, Entry> := map[
    DoctorApproved := Entry(None, Some(Notice(
      "Account Approved",
      "Your account has been approved. You can now start receiving appointments."))),
    DoctorRejected := Entry(None, Some(Notice(
      "Account Rejected",
      "Your account has been rejected. Please contact support for more details."))),
    AppointmentRequested := Entry(None, Some(Notice(
      "New Appointment Request",
      "You have received a new appointment request."))),
    AppointmentConfirmed := Entry(
      Some(Notice("Appointment Confirmed", "Your appointment has been confirmed by the doctor.")),
      Some(Notice("Appointment Confirmed", "You have confirmed an appointment."))),
    AppointmentRejected := Entry(
      Some(Notice("Appointment Rejected", "Your appointment has been rejected by the doctor.")),
      Some(Notice("Appointment Rejected", "You have rejected an appointment."))),
    AppointmentCancelledByPatient := Entry(
      Some(Notice("Appointment Cancelled", "You have cancelled your appointment.")),
      Some(Notice("Appointment Cancelled", "The patient has cancelled the appointment."))),
    AppointmentCompleted := Entry(
      Some(Notice("Appointment Completed", "Your appointment has been marked as completed.")),
      Some(Notice("Appointment Completed", "You have completed the appointment."))),
    AppointmentReminder := Entry(Some(Notice(
      "Appointment Reminder",
      "Your appointment token will be called shortly. Please be ready.")), None)
  ]

  /**
   * Who the table has a text for, written out event by event: the onboarding
   * events and a new request speak to the doctor only, the reminder to the
   * patient only, the other appointment events to both, and the admin
   * cancellation and the visit summary to nobody.
   */
  predicate Addressed(e: Event, role: Role)
  {
    match e
    case DoctorApproved | DoctorRejected | AppointmentRequested => role == Doctor
    case AppointmentConfirmed | AppointmentRejected | AppointmentCancelledByPatient | AppointmentCompleted =>
      role == Patient || role == Doctor
    case AppointmentReminder => role == Patient
    case AppointmentCancelledByAdmin | VisitSummaryAdded => false
  }

  /**
   * `messages[eventType].patient` or `.doctor`; `None` where JavaScript reads
   * `undefined`, either because the event has no entry or because the entry
   * has no member for that role. Every text present is non-empty.
   */
  function Lookup(e: Event, role: Role): (r: Option<Notice>)
    ensures r.Some? <==> Addressed(e, role)
    ensures r.Some? ==> r.value.title != "" && r.value.message != ""
  {
    if e !in MESSAGES then None
    else match role
      case Patient => MESSAGES[e].patient
      case Doctor => MESSAGES[e].doctor
      case Admin => None
  }

  /** The table has exactly eight entries: none for the admin cancellation or the visit summary. */
  lemma TableKeys()
    ensures AppointmentCancelledByAdmin !in MESSAGES && VisitSummaryAdded !in MESSAGES
    ensures forall e :: e in MESSAGES <==> Addressed(e, Patient) || Addressed(e, Doctor)
  {
    forall e ensures e in MESSAGES <==> Addressed(e, Patient) || Addressed(e, Doctor) {
      assert Lookup(e, Patient).Some? == Addressed(e, Patient);
      assert Lookup(e, Doctor).Some? == Addressed(e, Doctor);
    }
  }
}
