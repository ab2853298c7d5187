/** What the feed's requests do to the two-bucket store when every write to
    the store file succeeds: add an event, clear a day. */
module Feed {
  import opened Events
  import opened Rollover

  /** The error response of a request: an HTTP status and its detail text. */
  datatype HttpError = HttpError(status: int, detail: string)

  datatype Result<T> = Ok(value: T) | Err(error: HttpError)

  /** The new event goes in at the head of "today"; nothing is evicted. */
  function Insert(s: Store, e: Event): (r: Store)
    ensures |r.today| == |s.today| + 1 && r.today[0] == e && r.today[1..] == s.today
    ensures r.yesterday == s.yesterday
  {
    s.(today := [e] + s.today)
  }

  /** Adding a submission: the rollover, then the stamped event at the head
      of "today". */
  function Post(s: Store, sub: Submission, c: Clock): (r: Store)
    ensures |r.today| > 0 && r.today[0] == Stamp(sub, c)
    ensures r.today[1..] == RollOver(s, c).today
    ensures r.yesterday == RollOver(s, c).yesterday
  {
    Insert(RollOver(s, c), Stamp(sub, c))
  }

  /** A store just written by an append is already rolled over for the same
      clock: a query right after it sees exactly what the append stored. */
  lemma PostIsRolledOver(s: Store, sub: Submission, c: Clock)
    ensures RollOver(Post(s, sub, c), c) == Post(s, sub, c)
  {
    var p := Post(s, sub, c);
    assert !Migrates(p, c.today);
    KeepDatedAllDated(p.yesterday, c.yesterday);
  }

  /** If "today" holds events of one date, an append leaves both buckets
      current, and "today" again holds events of one date. */
  lemma PostEstablishesCurrent(s: Store, sub: Submission, c: Clock)
    requires OneDay(s.today)
    ensures Current(Post(s, sub, c), c)
    ensures OneDay(Post(s, sub, c).today)
  {
  }

  /** The stored forms of a run of submissions, in submission order. */
  function StampAll(subs: seq<Submission>, c: Clock): (r: seq<Event>)
    ensures |r| == |subs|
    ensures forall i :: 0 <= i < |subs| ==> r[i] == Stamp(subs[i], c)
  {
    if subs == [] then [] else [Stamp(subs[0], c)] + StampAll(subs[1..], c)
  }

  /** A sequence in reverse order. */
  function Reversed(xs: seq<Event>): (r: seq<Event>)
    ensures |r| == |xs|
    ensures forall i :: 0 <= i < |xs| ==> r[i] == xs[|xs| - 1 - i]
  {
    if xs == [] then [] else Reversed(xs[1..]) + [xs[0]]
  }

  /** The store after a run of appends, one per submission, all under the
      same clock reading. */
  function PostAll(s: Store, subs: seq<Submission>, c: Clock): Store
    decreases |subs|
  {
    if subs == [] then s else PostAll(Post(s, subs[0], c), subs[1..], c)
  }

  /** Regrouping a concatenation of three buckets. */
  lemma ConcatAssoc(a: seq<Event>, b: seq<Event>, c: seq<Event>)
    ensures a + (b + c) == (a + b) + c
  {
  }

  /** Appends to a store that is already rolled over for the clock reading
      pile the stamped events up at the head of "today", newest first. */
  lemma {:induction false} PostAllOnRolled(t: Store, subs: seq<Submission>, c: Clock)
    requires RollOver(t, c) == t
    decreases |subs|
    ensures PostAll(t, subs, c) == Store(Reversed(StampAll(subs, c)) + t.today, t.yesterday)
  {
    if subs == [] {
      assert Reversed(StampAll(subs, c)) == [];
    } else {
      var e0 := Stamp(subs[0], c);
      var first := Post(t, subs[0], c);
      assert first == Store([e0] + t.today, t.yesterday);
      PostIsRolledOver(t, subs[0], c);
      PostAllOnRolled(first, subs[1..], c);
      var stamped := StampAll(subs, c);
      assert stamped[0] == e0 && stamped[1..] == StampAll(subs[1..], c);
      assert Reversed(stamped) == Reversed(stamped[1..]) + [e0];
      ConcatAssoc(Reversed(stamped[1..]), [e0], t.today);
    }
  }

  /** Appends within one day: "today" holds the submitted events newest
      first, in front of what the first rollover left there, and "yesterday"
      is what that rollover left. */
  lemma PostAllNewestFirst(s: Store, subs: seq<Submission>, c: Clock)
    requires subs != []
    ensures PostAll(s, subs, c).today == Reversed(StampAll(subs, c)) + RollOver(s, c).today
    ensures PostAll(s, subs, c).yesterday == RollOver(s, c).yesterday
  {
    var r := RollOver(s, c);
    RollOverIdempotent(s, c);
    assert Post(s, subs[0], c) == Post(r, subs[0], c);
    assert PostAll(s, subs, c) == PostAll(r, subs, c);
    PostAllOnRolled(r, subs, c);
  }

  /** Whether a day selector names one of the two buckets. */
  predicate IsDay(day: string)
  {
    day == "today" || day == "yesterday"
  }

  /** The refusal of an unknown day selector. */
  const DayError: HttpError := HttpError(400, "Day must be 'today' or 'yesterday'")

  /** Clearing a day: any selector but "today" or "yesterday" is refused with
      status 400; a valid one empties that bucket only, with no rollover. */
  function ClearDay(s: Store, day: string): (r: Result<Store>)
    ensures r.Err? <==> !IsDay(day)
    ensures r.Err? ==> r.error.status == 400
    ensures r.Ok? && day == "today" ==> r.value.today == [] && r.value.yesterday == s.yesterday
    ensures r.Ok? && day == "yesterday" ==> r.value.yesterday == [] && r.value.today == s.today
  {
    if !IsDay(day) then Err(DayError)
    else if day == "today" then Ok(s.(today := []))
    else Ok(s.(yesterday := []))
  }

  /** Because clearing runs no rollover, clearing "yesterday" before a
      rollover that migrates has no effect at all: the next request rebuilds
      "yesterday" from the stale "today" alone. */
  lemma ClearedYesterdayRefills(s: Store, c: Clock)
    requires Migrates(s, c.today)
    ensures ClearDay(s, "yesterday").Ok?
    ensures RollOver(ClearDay(s, "yesterday").value, c) == RollOver(s, c)
  {
  }

  /** For the same reason, clearing "today" before a rollover that migrates
      erases the events the next "yesterday" answer would have held: that
      answer is built from the old "yesterday" instead. */
  lemma ClearedTodayLosesYesterday(s: Store, c: Clock)
    requires Migrates(s, c.today)
    ensures RollOver(s, c).yesterday == KeepDated(s.today, c.yesterday)
    ensures RollOver(ClearDay(s, "today").value, c) == Store([], KeepDated(s.yesterday, c.yesterday))
  {
  }
}
