/** The records the activity feed stores: submitted events, stored events, the
    two-bucket store and the clock reading a request works with. */
module Events {

  datatype Option<T> = None | Some(value: T)

  /** A calendar date as the feed writes it ("YYYY-MM-DD"). The feed only ever
      compares dates for equality, so no calendar arithmetic is modelled. */
  type Date = string

  /** What an event object holds under its "date" key when read back from the
      store file: no such key, a string, or some other JSON value (null, a
      number, ...), which never equals a date string. */
  datatype DateField = NoDate | DateText(value: Date) | OtherValue

  /** An event as submitted by a client: type, title, text and an optional image. */
  datatype Submission = Submission(kind: string, title: string, text: string, image: Option<string>)

  /** An event object as kept in a bucket. Events written by the feed carry a
      time of day and a date; objects read back from the file may lack them. */
  datatype Event = Event(kind: string, title: string, text: string, image: Option<string>,
                         timestamp: Option<string>, date: DateField)

  /** The two buckets, each newest-first. */
  datatype Store = Store(today: seq<Event>, yesterday: seq<Event>)

  /** One reading of the wall clock: the current date, the date one day
      before it, and the time of day ("HH:MM:SS"). */
  datatype Clock = Clock(today: Date, yesterday: Date, time: string)

  const EmptyStore: Store := Store([], [])

  /** The stored form of a submission: every submitted field, plus the
      current time of day and date. */
  function Stamp(sub: Submission, c: Clock): (e: Event)
    ensures Submitted(e) == sub
    ensures e.date == DateText(c.today) && e.timestamp == Some(c.time)
  {
    Event(sub.kind, sub.title, sub.text, sub.image, Some(c.time), DateText(c.today))
  }

  /** The submitted fields of a stored event. */
  function Submitted(e: Event): Submission
  {
    Submission(e.kind, e.title, e.text, e.image)
  }
}
