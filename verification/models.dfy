/**
 The value types the notification engine passes around: delivery addresses,
 users with optional contact fields, messages, and jobs with their status.
 None of them has behaviour of its own.
 */
module Models {
  import opened Wrappers

  /** A typed delivery target; the variant plays the role of the source's subclass. */
  datatype Address =
    | EmailAddress(email: string)
    | PhoneAddress(phoneNumber: string)
    | TelegramAddress(telegramId: string)

  /** A recipient; each contact field may be missing. */
  datatype User = User(
    telegramId: Option<string>,
    phoneNumber: Option<string>,
    email: Option<string>,
    name: string)

  /** The body of a notification; the title is optional. */
  datatype Message = Message(title: Option<string>, message: string)

  /** PENDING is set at creation; SUCCESS and FAILED are written by the dispatcher. */
  datatype JobStatus = Pending | Success | Failed

  /** The creation time of a job. Nothing in the engine inspects it, so it stays opaque. */
  type Timestamp = int

  datatype Job = Job(createdAt: Timestamp, status: JobStatus)

  /** Python truthiness of an optional string field: present and non-empty. */
  predicate Present(field: Option<string>)
  {
    field.Some? && field.value != ""
  }
}
