/** The feed service: every request reads the store file, changes the loaded
    store and writes it back. The file is the only state that outlives a
    request; the clock and the outcome of each write are parameters. */
module ActivityFeed {
  import opened Events
  import opened Rollover
  import opened Feed

  /** What the store file holds: nothing yet, something that does not parse,
      or a written store. */
  datatype Cell = Missing | Unreadable | Saved(store: Store)

  /** How a write of the store file ends: done, refused before the file was
      opened (the file is as it was), or cut off after opening for writing
      had emptied the file (what is left does not parse). Failures are
      reported on the console only; the request goes on. */
  datatype WriteOutcome = Written | NotOpened | Interrupted

  /** Reading the store file: a missing or unparseable file reads as the
      empty store. */
  function Loaded(cell: Cell): (s: Store)
    ensures cell.Saved? ==> s == cell.store
    ensures !cell.Saved? ==> s == EmptyStore
  {
    match cell
    case Saved(store) => store
    case _ => EmptyStore
  }

  /** The file after writing `data` to it: a completed write reads back as
      exactly `data`; a refused write leaves the file alone; an interrupted
      one loses the whole store. */
  function AfterWrite(cell: Cell, data: Store, w: WriteOutcome): (r: Cell)
    ensures w == Written ==> Loaded(r) == data
    ensures w == NotOpened ==> r == cell
    ensures w == Interrupted ==> Loaded(r) == EmptyStore
  {
    match w
    case Written => Saved(data)
    case NotOpened => cell
    case Interrupted => Unreadable
  }

  /** The file after the rollover run at the start of a request. */
  function RolledFile(cell: Cell, c: Clock, w: WriteOutcome): (r: Cell)
    ensures w == Written ==> Loaded(r) == RollOver(Loaded(cell), c)
  {
    AfterWrite(cell, RollOver(Loaded(cell), c), w)
  }

  /** The answer to a day query: the date the bucket stands for, how many
      events it holds, and the events, newest first. */
  datatype DayView = DayView(date: Date, count: nat, events: seq<Event>)

  class FeedService {
    /** The content of the store file. */
    var persisted: Cell

    constructor (file: Cell)
      ensures persisted == file
    {
      persisted := file;
    }

    /** Reads the store file. */
    method LoadEvents() returns (data: Store)
      ensures data == Loaded(persisted)
    {
      if persisted.Saved? {
        data := persisted.store;
      } else {
        data := EmptyStore;
      }
    }

    /** Overwrites the store file with `data`. */
    method SaveEvents(data: Store, w: WriteOutcome)
      modifies this
      ensures persisted == AfterWrite(old(persisted), data, w)
      ensures w == Written ==> Loaded(persisted) == data
    {
      match w
      case Written => persisted := Saved(data);
      case NotOpened =>
      case Interrupted => persisted := Unreadable;
    }

    /** The rollover: moves "today" into "yesterday" when its newest event
        is from another date, filters "yesterday" down to the previous date,
        and writes the store back. */
    method CleanupOldEvents(c: Clock, w: WriteOutcome)
      modifies this
      ensures persisted == RolledFile(old(persisted), c, w)
      ensures w == Written ==> forall e :: e in Loaded(persisted).yesterday ==> e.date == DateText(c.yesterday)
    {
      var data := LoadEvents();
      if |data.today| > 0 {
        var firstDate := HeadDate(data.today[0], c.today);
        if firstDate != DateText(c.today) {
          data := data.(yesterday := data.today);
          data := data.(today := []);
        }
      }
      if |data.yesterday| > 0 {
        data := data.(yesterday := KeepDated(data.yesterday, c.yesterday));
      }
      SaveEvents(data, w);
    }

    /** Adds a submitted event: the rollover, then the stamped event at the
        head of "today", then the write; returns the stored event. */
    method AddEvent(sub: Submission, c: Clock, cleanupWrite: WriteOutcome, w: WriteOutcome)
      returns (stored: Event)
      modifies this
      ensures stored == Stamp(sub, c)
      ensures persisted == AfterWrite(RolledFile(old(persisted), c, cleanupWrite),
                                      Insert(Loaded(RolledFile(old(persisted), c, cleanupWrite)), stored), w)
      ensures w == Written ==> Loaded(persisted).today[0] == stored
      ensures cleanupWrite == Written && w == Written ==>
                Loaded(persisted) == Post(Loaded(old(persisted)), sub, c)
    {
      CleanupOldEvents(c, cleanupWrite);
      var data := LoadEvents();
      stored := Stamp(sub, c);
      data := data.(today := [stored] + data.today);
      SaveEvents(data, w);
    }

    /** The "today" query: the rollover, then the "today" bucket under the
        current date. */
    method GetTodayEvents(c: Clock, w: WriteOutcome) returns (view: DayView)
      modifies this
      ensures persisted == RolledFile(old(persisted), c, w)
      ensures view.date == c.today && view.count == |view.events|
      ensures view.events == Loaded(persisted).today
      ensures w == Written ==> view.events == RollOver(Loaded(old(persisted)), c).today
    {
      CleanupOldEvents(c, w);
      var data := LoadEvents();
      view := DayView(c.today, |data.today|, data.today);
    }

    /** The "yesterday" query: the rollover, then the "yesterday" bucket under
        the previous date. */
    method GetYesterdayEvents(c: Clock, w: WriteOutcome) returns (view: DayView)
      modifies this
      ensures persisted == RolledFile(old(persisted), c, w)
      ensures view.date == c.yesterday && view.count == |view.events|
      ensures view.events == Loaded(persisted).yesterday
      ensures w == Written ==> view.events == RollOver(Loaded(old(persisted)), c).yesterday
      ensures w == Written ==> forall e :: e in view.events ==> e.date == DateText(c.yesterday)
    {
      CleanupOldEvents(c, w);
      var data := LoadEvents();
      view := DayView(c.yesterday, |data.yesterday|, data.yesterday);
    }

    /** Clears one day: an unknown selector is refused with status 400 before
        the file is touched; otherwise that bucket is emptied, without a
        rollover, and the store written back. */
    method ClearEvents(day: string, w: WriteOutcome) returns (r: Result<string>)
      modifies this
      ensures r.Err? <==> !IsDay(day)
      ensures r.Err? ==> r.error.status == 400 && persisted == old(persisted)
      ensures r.Ok? ==> r.value == day
      ensures r.Ok? ==> persisted == AfterWrite(old(persisted), ClearDay(Loaded(old(persisted)), day).value, w)
    {
      if !IsDay(day) {
        return Err(DayError);
      }
      var data := LoadEvents();
      if day == "today" {
        data := data.(today := []);
      } else {
        data := data.(yesterday := []);
      }
      SaveEvents(data, w);
      r := Ok(day);
    }
  }
}
