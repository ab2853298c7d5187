/** The day rollover run before every append and every query: when the newest
    "today" event belongs to another date, "today" becomes "yesterday"; then
    "yesterday" keeps only the events dated one day before the current date. */
module Rollover {
  import opened Events

  /** The date the rollover check reads off the newest "today" event: an event
      without a "date" key counts as dated today. */
  function HeadDate(e: Event, current: Date): (d: DateField)
    ensures d == DateText(current) <==> e.date == NoDate || e.date == DateText(current)
  {
    if e.date.NoDate? then DateText(current) else e.date
  }

  /** Whether the rollover moves the whole "today" bucket into "yesterday". */
  predicate Migrates(s: Store, current: Date)
  {
    |s.today| > 0 && HeadDate(s.today[0], current) != DateText(current)
  }

  /** The events of a bucket dated exactly `d`, in their original order:
      every copy of an event so dated is kept, every other event dropped. */
  function KeepDated(events: seq<Event>, d: Date): (r: seq<Event>)
    ensures |r| <= |events|
    ensures forall e :: e in r <==> e in events && e.date == DateText(d)
    ensures forall e :: multiset(r)[e] == if e.date == DateText(d) then multiset(events)[e] else 0
  {
    if events == [] then []
    else
      assert multiset(events) == multiset([events[0]]) + multiset(events[1..]) by {
        assert events == [events[0]] + events[1..];
      }
      if events[0].date == DateText(d) then [events[0]] + KeepDated(events[1..], d)
      else KeepDated(events[1..], d)
  }

  /** `a` is `b` with some elements left out and the rest in the same order. */
  predicate IsSubsequence(a: seq<Event>, b: seq<Event>)
    decreases |b|
  {
    if a == [] then true
    else if b == [] then false
    else (a[0] == b[0] && IsSubsequence(a[1..], b[1..])) || IsSubsequence(a, b[1..])
  }

  /** The filter keeps the relative order of the events that survive it. */
  lemma {:induction false} KeepDatedKeepsOrder(events: seq<Event>, d: Date)
    ensures IsSubsequence(KeepDated(events, d), events)
  {
    if events != [] {
      KeepDatedKeepsOrder(events[1..], d);
      var r := KeepDated(events, d);
      if events[0].date == DateText(d) {
        assert r[0] == events[0] && r[1..] == KeepDated(events[1..], d);
      } else if r != [] {
        assert r == KeepDated(events[1..], d);
      }
    }
  }

  /** A bucket whose events are all dated `d` passes the filter unchanged. */
  lemma {:induction false} KeepDatedAllDated(events: seq<Event>, d: Date)
    requires forall e :: e in events ==> e.date == DateText(d)
    ensures KeepDated(events, d) == events
  {
    if events != [] {
      assert events[0] in events;
      forall e | e in events[1..] ensures e.date == DateText(d) {
        assert e in events;
      }
      KeepDatedAllDated(events[1..], d);
      assert events == [events[0]] + events[1..];
    }
  }

  /** The store after the rollover with clock reading `c`: migration of the
      whole "today" bucket if its newest event is from another date, then the
      filter of "yesterday" on the day before the current date. */
  function RollOver(s: Store, c: Clock): (r: Store)
    ensures forall e :: e in r.yesterday ==> e.date == DateText(c.yesterday)
    ensures r.today == [] || r.today == s.today
  {
    var moved := if Migrates(s, c.today) then Store([], s.today) else s;
    moved.(yesterday := KeepDated(moved.yesterday, c.yesterday))
  }

  /** When the newest "today" event has another date, "today" is emptied and
      "yesterday" is rebuilt from the old "today" alone: the previous
      "yesterday" events are gone, and the moved ones keep their order and
      their number of copies. */
  lemma RollOverMigrates(s: Store, c: Clock)
    requires |s.today| > 0
    requires s.today[0].date != NoDate && s.today[0].date != DateText(c.today)
    ensures RollOver(s, c).today == []
    ensures forall e :: e in RollOver(s, c).yesterday <==> e in s.today && e.date == DateText(c.yesterday)
    ensures forall e :: multiset(RollOver(s, c).yesterday)[e] ==
                        if e.date == DateText(c.yesterday) then multiset(s.today)[e] else 0
    ensures IsSubsequence(RollOver(s, c).yesterday, s.today)
  {
    KeepDatedKeepsOrder(s.today, c.yesterday);
  }

  /** An empty "today", or a newest event dated today or carrying no date,
      leaves "today" as it is; only "yesterday" is filtered, in order and
      keeping every copy of a surviving event. */
  lemma RollOverStays(s: Store, c: Clock)
    requires |s.today| == 0 || s.today[0].date == NoDate || s.today[0].date == DateText(c.today)
    ensures RollOver(s, c).today == s.today
    ensures forall e :: e in RollOver(s, c).yesterday <==> e in s.yesterday && e.date == DateText(c.yesterday)
    ensures forall e :: multiset(RollOver(s, c).yesterday)[e] ==
                        if e.date == DateText(c.yesterday) then multiset(s.yesterday)[e] else 0
    ensures IsSubsequence(RollOver(s, c).yesterday, s.yesterday)
  {
    KeepDatedKeepsOrder(s.yesterday, c.yesterday);
  }

  /** Running the rollover a second time with the same clock changes nothing. */
  lemma RollOverIdempotent(s: Store, c: Clock)
    ensures RollOver(RollOver(s, c), c) == RollOver(s, c)
  {
    var r := RollOver(s, c);
    assert !Migrates(r, c.today);
    KeepDatedAllDated(r.yesterday, c.yesterday);
  }

  /** "today" holds events of one date only, each carrying that date. */
  predicate OneDay(bucket: seq<Event>)
  {
    forall i :: 0 <= i < |bucket| ==> bucket[i].date.DateText? && bucket[i].date == bucket[0].date
  }

  /** The invariant the two buckets are meant to satisfy once the rollover
      has run: "today" holds only events of the current date, "yesterday"
      only events of the day before. */
  predicate Current(s: Store, c: Clock)
  {
    (forall e :: e in s.today ==> e.date == DateText(c.today)) &&
    (forall e :: e in s.yesterday ==> e.date == DateText(c.yesterday))
  }

  /** The rollover only looks at the newest "today" event; if "today" holds
      events of one date, it leaves a store where both buckets are current. */
  lemma RollOverEstablishesCurrent(s: Store, c: Clock)
    requires OneDay(s.today)
    ensures Current(RollOver(s, c), c)
  {
  }
}
