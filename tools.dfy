/**
 * The two calendar tools the agent can call: `check_availability`, which
 * lists the free 1-hour slots between 09:00 and 17:00 of a date, and
 * `create_appointment`, which books a 1-hour event. Both always answer with
 * text; every failure becomes an error sentence.
 *
 * Times are integer minutes. The opaque conversions of the source (reading
 * the date, reading ISO 8601 timestamps, connecting to the calendar, the
 * calendar's list and insert calls) are parameters carrying their result or
 * the text of the exception they raise.
 */
module Tools {
  import opened Wrappers
  import Clock

  const Timezone := "America/Los_Angeles"
  const Hour := 60
  /** 09:00 and 17:00 as minutes after local midnight. */
  const OpeningMinute := 540
  const ClosingMinute := 1020
  /** The number of hourly candidates in the working window. */
  const SlotCount := 8

  /** The text CPython's `datetime.fromisoformat` raises when given `None`. */
  const MissingDateTimeDetail := "fromisoformat: argument must be str"

  // ---------------------------------------------------------------------
  // check_availability
  // ---------------------------------------------------------------------

  /**
   * A calendar event as listed by the gateway: its `start.dateTime` and
   * `end.dateTime` as instants, or None where the field is absent (an
   * all-day event carries `date` instead).
   */
  datatype Event = Event(start: Option<int>, end: Option<int>)

  predicate Readable(e: Event) {
    e.start.Some? && e.end.Some?
  }

  function Max(a: int, b: int): int { if a < b then b else a }
  function Min(a: int, b: int): int { if a < b then a else b }

  /** The half-open overlap test of `[a0, a1)` and `[b0, b1)`. */
  predicate Overlaps(a0: int, a1: int, b0: int, b1: int) {
    Max(a0, b0) < Min(a1, b1)
  }

  /** A readable event overlapping the hour that starts at `slot`. */
  predicate Hits(slot: int, e: Event) {
    Readable(e) && Overlaps(slot, slot + Hour, e.start.value, e.end.value)
  }

  /** The starts `t, t + 1h, …` strictly below `stop`. */
  function HourlyFrom(t: int, stop: int): seq<int>
    decreases stop - t
  {
    if t < stop then [t] + HourlyFrom(t + Hour, stop) else []
  }

  /** The candidate slot starts of the day whose local midnight is `day`. */
  function Candidates(day: int): seq<int> {
    HourlyFrom(day + OpeningMinute, day + ClosingMinute)
  }

  /** What the inner loop over the events decides about one slot. */
  datatype Verdict = Free | Taken | Unreadable

  /**
   * Walks the events in listed order: the first one that overlaps the slot
   * makes it Taken; an event without a dateTime reached before that raises.
   */
  function Scan(slot: int, events: seq<Event>): Verdict {
    if events == [] then Free
    else if !Readable(events[0]) then Unreadable
    else if Hits(slot, events[0]) then Taken
    else Scan(slot, events[1..])
  }

  /**
   * The outer loop over the candidates: the free ones in order, or the error
   * raised by the first unreadable event a slot reaches.
   */
  function Survey(slots: seq<int>, events: seq<Event>): Result<seq<int>> {
    if slots == [] then Ok([])
    else
      match Scan(slots[0], events)
      case Unreadable => Err(MissingDateTimeDetail)
      case Taken => Survey(slots[1..], events)
      case Free => Prepend([slots[0]], Survey(slots[1..], events))
  }

  function Prepend(front: seq<int>, r: Result<seq<int>>): Result<seq<int>> {
    match r
    case Ok(rest) => Ok(front + rest)
    case Err(d) => Err(d)
  }

  lemma PrependNothing(r: Result<seq<int>>)
    ensures Prepend([], r) == r
  {
    if r.Ok? { assert [] + r.value == r.value; }
  }

  lemma PrependTwice(a: seq<int>, b: seq<int>, r: Result<seq<int>>)
    ensures Prepend(a, Prepend(b, r)) == Prepend(a + b, r)
  {
    if r.Ok? { assert a + (b + r.value) == (a + b) + r.value; }
  }

  lemma SurveyCons(x: int, rest: seq<int>, events: seq<Event>)
    ensures Survey([x] + rest, events) ==
      match Scan(x, events)
      case Unreadable => Err(MissingDateTimeDetail)
      case Taken => Survey(rest, events)
      case Free => Prepend([x], Survey(rest, events))
  {
    assert ([x] + rest)[1..] == rest;
  }

  /** The `%-I:%M %p` rendering of each free slot, in order. */
  function Labels(free: seq<int>, day: int): seq<string> {
    seq(|free|, k requires 0 <= k < |free| => Clock.Label(free[k] - day))
  }

  // Split in two only because one long literal is costly for the solver.
  const AvailabilityErrorPrefix := "An error occurred " + "while checking availability: "

  function AvailabilityError(detail: string): string {
    AvailabilityErrorPrefix + detail + ". Please ensure the date is in YYYY-MM-DD format."
  }

  function AvailabilityMessage(date: string, day: int, free: seq<int>): string {
    if free == [] then "No 1-hour slots are available on " + date + "."
    else "The following 1-hour slots are available on " + date + ": " + Join(Labels(free, day), ", ")
  }

  /**
   * The reply of `check_availability(date)`. `connect` is the outcome of
   * building the calendar client, `day` that of reading `date` as YYYY-MM-DD
   * (its local midnight), `listing` that of listing the events between 09:00
   * and 17:00 (the `items` of the answer).
   */
  function AvailabilityReport(date: string, connect: Result<()>, day: Result<int>,
                              listing: Result<seq<Event>>): string
  {
    if connect.Err? then AvailabilityError(connect.detail)
    else if day.Err? then AvailabilityError(day.detail)
    else if listing.Err? then AvailabilityError(listing.detail)
    else
      match Survey(Candidates(day.value), listing.value)
      case Err(d) => AvailabilityError(d)
      case Ok(free) => AvailabilityMessage(date, day.value, free)
  }

  /** The `while current_time < end_of_day` loop collecting the candidates. */
  method PossibleSlots(startOfDay: int, endOfDay: int) returns (slots: seq<int>)
    ensures slots == HourlyFrom(startOfDay, endOfDay)
  {
    slots := [];
    var current := startOfDay;
    while current < endOfDay
      invariant slots + HourlyFrom(current, endOfDay) == HourlyFrom(startOfDay, endOfDay)
      decreases endOfDay - current
    {
      slots := slots + [current];
      current := current + Hour;
    }
  }

  /** The inner `for event in busy_slots` loop, with its `is_available` flag and `break`. */
  method SlotVerdict(slotStart: int, busy: seq<Event>) returns (v: Verdict)
    ensures v == Scan(slotStart, busy)
  {
    var slotEnd := slotStart + Hour;
    var isAvailable := true;
    var i := 0;
    assert busy[0..] == busy;
    while i < |busy|
      invariant 0 <= i <= |busy|
      invariant isAvailable && Scan(slotStart, busy) == Scan(slotStart, busy[i..])
    {
      var event := busy[i];
      assert busy[i..][0] == event && busy[i..][1..] == busy[i + 1..];
      if event.start.None? || event.end.None? {
        return Unreadable;
      }
      if Overlaps(slotStart, slotEnd, event.start.value, event.end.value) {
        isAvailable := false;
        break;
      }
      i := i + 1;
    }
    v := if isAvailable then Free else Taken;
  }

  /** The outer `for slot_start in possible_slots` loop. */
  method AvailableSlots(possible: seq<int>, busy: seq<Event>) returns (r: Result<seq<int>>)
    ensures r == Survey(possible, busy)
  {
    var available := [];
    var k := 0;
    assert possible[0..] == possible;
    PrependNothing(Survey(possible, busy));
    while k < |possible|
      invariant 0 <= k <= |possible|
      invariant Survey(possible, busy) == Prepend(available, Survey(possible[k..], busy))
    {
      var v := SlotVerdict(possible[k], busy);
      assert possible[k..][0] == possible[k] && possible[k..][1..] == possible[k + 1..];
      if v == Unreadable {
        assert Survey(possible[k..], busy) == Err(MissingDateTimeDetail);
        return Err(MissingDateTimeDetail);
      }
      if v == Free {
        PrependTwice(available, [possible[k]], Survey(possible[k + 1..], busy));
        available := available + [possible[k]];
      }
      k := k + 1;
    }
    assert possible[k..] == [] && available + [] == available;
    r := Ok(available);
  }

  /** `check_availability`: every path ends in a reply text. */
  method CheckAvailability(date: string, connect: Result<()>, day: Result<int>,
                           listing: Result<seq<Event>>) returns (reply: string)
    ensures reply == AvailabilityReport(date, connect, day, listing)
  {
    if connect.Err? {
      return AvailabilityError(connect.detail);
    }
    if day.Err? {
      return AvailabilityError(day.detail);
    }
    var startOfDay := day.value + OpeningMinute;
    var endOfDay := day.value + ClosingMinute;
    if listing.Err? {
      return AvailabilityError(listing.detail);
    }
    var possible := PossibleSlots(startOfDay, endOfDay);
    var available := AvailableSlots(possible, listing.value);
    match available
    case Err(d) =>
      reply := AvailabilityError(d);
    case Ok(free) =>
      reply := AvailabilityMessage(date, day.value, free);
  }

  // ---------------------------------------------------------------------
  // Properties of the availability calculation
  // ---------------------------------------------------------------------

  lemma {:induction false} HourlyFromShape(t: int, n: nat)
    ensures |HourlyFrom(t, t + Hour * n)| == n
    ensures forall k :: 0 <= k < n ==> HourlyFrom(t, t + Hour * n)[k] == t + Hour * k
    decreases n
  {
    if n > 0 {
      HourlyFromShape(t + Hour, n - 1);
      assert t + Hour + Hour * (n - 1) == t + Hour * n;
      var rest := HourlyFrom(t + Hour, t + Hour * n);
      assert HourlyFrom(t, t + Hour * n) == [t] + rest;
      forall k | 0 < k < n ensures HourlyFrom(t, t + Hour * n)[k] == t + Hour * k {
        assert HourlyFrom(t, t + Hour * n)[k] == rest[k - 1] == t + Hour + Hour * (k - 1);
      }
    }
  }

  /** Exactly eight candidates, from 09:00 in steps of one hour. */
  lemma CandidatesShape(day: int)
    ensures |Candidates(day)| == SlotCount
    ensures forall k :: 0 <= k < SlotCount ==> Candidates(day)[k] == day + OpeningMinute + Hour * k
  {
    HourlyFromShape(day + OpeningMinute, SlotCount);
    assert day + ClosingMinute == day + OpeningMinute + Hour * SlotCount;
  }

  predicate StrictlyAscending(s: seq<int>) {
    forall i, j :: 0 <= i < j < |s| ==> s[i] < s[j]
  }

  lemma CandidatesAscending(day: int)
    ensures StrictlyAscending(Candidates(day))
    ensures forall k :: 0 <= k < |Candidates(day)| - 1 ==> Candidates(day)[k + 1] == Candidates(day)[k] + Hour
  {
    CandidatesShape(day);
  }

  /** For two non-empty intervals the overlap test says each starts before the other ends. */
  lemma OverlapsMeaning(a0: int, a1: int, b0: int, b1: int)
    requires a0 < a1 && b0 < b1
    ensures Overlaps(a0, a1, b0, b1) <==> a0 < b1 && b0 < a1
  {
  }

  /** An interval that only touches a slot at either end does not exclude it. */
  lemma AbuttingDoesNotOverlap(slot: int, b0: int, b1: int)
    requires b1 == slot || b0 == slot + Hour
    ensures !Overlaps(slot, slot + Hour, b0, b1)
  {
  }

  /** An event list with every dateTime present never raises, and takes a slot iff one event overlaps it. */
  lemma {:induction false} ScanReadable(slot: int, events: seq<Event>)
    requires forall i :: 0 <= i < |events| ==> Readable(events[i])
    ensures Scan(slot, events) != Unreadable
    ensures Scan(slot, events) == Taken <==> exists i :: 0 <= i < |events| && Hits(slot, events[i])
  {
    if events != [] {
      ScanReadable(slot, events[1..]);
      if Scan(slot, events) == Taken && !Hits(slot, events[0]) {
        var i :| 0 <= i < |events[1..]| && Hits(slot, events[1..][i]);
        assert events[i + 1] == events[1..][i];
      }
      if exists i :: 0 <= i < |events| && Hits(slot, events[i]) {
        var i :| 0 <= i < |events| && Hits(slot, events[i]);
        if i > 0 {
          assert events[1..][i - 1] == events[i];
        }
      }
    }
  }

  /**
   * An event without a dateTime is not skipped: the scan raises exactly when
   * it reaches one, i.e. no earlier event overlaps the slot.
   */
  lemma {:induction false} ScanUnreadable(slot: int, events: seq<Event>)
    ensures Scan(slot, events) == Unreadable <==>
      exists i :: 0 <= i < |events| && !Readable(events[i]) && ClearBefore(slot, events, i)
  {
    if events != [] {
      ScanUnreadable(slot, events[1..]);
      if Scan(slot, events) == Unreadable && Readable(events[0]) {
        var i :| 0 <= i < |events[1..]| && !Readable(events[1..][i]) && ClearBefore(slot, events[1..], i);
        ClearBeforeShift(slot, events, i + 1);
      }
      if exists i :: 0 <= i < |events| && !Readable(events[i]) && ClearBefore(slot, events, i) {
        var i :| 0 <= i < |events| && !Readable(events[i]) && ClearBefore(slot, events, i);
        if i > 0 {
          assert Readable(events[0]);
          ClearBeforeShift(slot, events, i);
          assert !Readable(events[1..][i - 1]);
        }
      }
    }
  }

  /** Every event before position `i` is readable and misses the slot. */
  predicate ClearBefore(slot: int, events: seq<Event>, i: int)
    requires 0 <= i <= |events|
  {
    forall j :: 0 <= j < i ==> Readable(events[j]) && !Hits(slot, events[j])
  }

  lemma ClearBeforeShift(slot: int, events: seq<Event>, i: int)
    requires 0 < i <= |events|
    ensures ClearBefore(slot, events, i) <==>
      (Readable(events[0]) && !Hits(slot, events[0]) && ClearBefore(slot, events[1..], i - 1))
  {
    assert forall j :: 0 <= j < i - 1 ==> events[1..][j] == events[j + 1];
    if Readable(events[0]) && !Hits(slot, events[0]) && ClearBefore(slot, events[1..], i - 1) {
      forall j | 0 <= j < i
        ensures Readable(events[j]) && !Hits(slot, events[j])
      {
        if j > 0 { assert events[j] == events[1..][j - 1]; }
      }
    }
  }

  /** The survey fails iff some candidate's scan reaches an unreadable event. */
  lemma {:induction false} SurveyFailsIff(slots: seq<int>, events: seq<Event>)
    ensures Survey(slots, events).Err? <==> exists k :: 0 <= k < |slots| && Scan(slots[k], events) == Unreadable
    ensures Survey(slots, events).Err? ==> Survey(slots, events).detail == MissingDateTimeDetail
  {
    if slots != [] {
      SurveyFailsIff(slots[1..], events);
      if exists k :: 0 <= k < |slots| && Scan(slots[k], events) == Unreadable {
        var k :| 0 <= k < |slots| && Scan(slots[k], events) == Unreadable;
        if k > 0 { assert slots[1..][k - 1] == slots[k]; }
      }
      if Survey(slots, events).Err? && Scan(slots[0], events) != Unreadable {
        var k :| 0 <= k < |slots[1..]| && Scan(slots[1..][k], events) == Unreadable;
        assert slots[k + 1] == slots[1..][k];
      }
    }
  }

  /** `sub` is `s` with some elements dropped, the rest in their order. */
  predicate Subsequence(sub: seq<int>, s: seq<int>)
    decreases |s|
  {
    if s == [] then sub == []
    else (sub != [] && sub[0] == s[0] && Subsequence(sub[1..], s[1..])) || Subsequence(sub, s[1..])
  }

  /**
   * The free slots are exactly the candidates whose scan found nothing, kept
   * in order, and there are no more of them than candidates.
   */
  lemma {:induction false} SurveyKeepsFree(slots: seq<int>, events: seq<Event>)
    requires Survey(slots, events).Ok?
    ensures var free := Survey(slots, events).value;
      && |free| <= |slots|
      && Subsequence(free, slots)
      && (forall x :: x in free <==> x in slots && Scan(x, events) == Free)
  {
    if slots != [] {
      SurveyKeepsFree(slots[1..], events);
      var rest := Survey(slots[1..], events).value;
      if Scan(slots[0], events) == Free {
        assert Survey(slots, events).value == [slots[0]] + rest;
        assert ([slots[0]] + rest)[1..] == rest;
      }
    }
  }

  /** A subsequence of an ascending sequence is ascending and draws only on its elements. */
  lemma {:induction false} SubsequenceAscending(sub: seq<int>, s: seq<int>)
    requires Subsequence(sub, s) && StrictlyAscending(s)
    ensures StrictlyAscending(sub)
    ensures forall x :: x in sub ==> x in s
    decreases |s|
  {
    if s != [] {
      assert StrictlyAscending(s[1..]);
      if sub != [] && sub[0] == s[0] && Subsequence(sub[1..], s[1..]) {
        SubsequenceAscending(sub[1..], s[1..]);
        forall j | 0 < j < |sub| ensures sub[0] < sub[j] {
          assert sub[j] == sub[1..][j - 1];
          assert sub[j] in s[1..];
          var p :| 0 <= p < |s[1..]| && s[1..][p] == sub[j];
          assert s[p + 1] == sub[j];
        }
        forall i, j | 0 <= i < j < |sub| ensures sub[i] < sub[j] {
          if i > 0 {
            assert sub[i] == sub[1..][i - 1] && sub[j] == sub[1..][j - 1];
          }
        }
        forall x | x in sub ensures x in s {
          if x != sub[0] {
            assert x in sub[1..];
          }
        }
      } else {
        SubsequenceAscending(sub, s[1..]);
      }
    }
  }

  /**
   * With every listed event readable, the reply never fails on the events,
   * and a candidate is offered iff no event overlaps its hour; the offered
   * slots keep the candidates' ascending order and are at most eight.
   */
  lemma AvailableIff(day: int, events: seq<Event>)
    requires forall i :: 0 <= i < |events| ==> Readable(events[i])
    ensures Survey(Candidates(day), events).Ok?
    ensures var free := Survey(Candidates(day), events).value;
      && |free| <= SlotCount
      && StrictlyAscending(free)
      && Subsequence(free, Candidates(day))
      && forall t :: t in free <==> (t in Candidates(day) && forall i :: 0 <= i < |events| ==> !Hits(t, events[i]))
  {
    var slots := Candidates(day);
    CandidatesShape(day);
    CandidatesAscending(day);
    forall k | 0 <= k < |slots| ensures Scan(slots[k], events) != Unreadable {
      ScanReadable(slots[k], events);
    }
    SurveyFailsIff(slots, events);
    SurveyKeepsFree(slots, events);
    var free := Survey(slots, events).value;
    SubsequenceAscending(free, slots);
    forall t ensures t in free <==> (t in slots && forall i :: 0 <= i < |events| ==> !Hits(t, events[i])) {
      ScanReadable(t, events);
    }
  }

  /** An event lacking a dateTime at the head of the listing spoils the whole reply. */
  lemma LeadingUnreadableFails(date: string, day: int, events: seq<Event>)
    requires events != [] && !Readable(events[0])
    ensures AvailabilityReport(date, Ok(()), Ok(day), Ok(events)) == AvailabilityError(MissingDateTimeDetail)
  {
    CandidatesShape(day);
    var slots := Candidates(day);
    assert Scan(slots[0], events) == Unreadable;
  }

  lemma AvailabilityErrorStarts(detail: string)
    ensures StartsWith(AvailabilityError(detail), AvailabilityErrorPrefix)
  {
    assert AvailabilityError(detail) == AvailabilityErrorPrefix + (detail + ". Please ensure the date is in YYYY-MM-DD format.");
  }

  lemma AvailabilityMessageIsNoError(date: string, day: int, free: seq<int>)
    ensures !StartsWith(AvailabilityMessage(date, day, free), AvailabilityErrorPrefix)
  {
    var m := AvailabilityMessage(date, day, free);
    assert AvailabilityErrorPrefix[0] == 'A';
    if free == [] {
      var a := "No 1-hour slots are available on ";
      assert m[0] == (a + date)[0] == a[0] == 'N';
    } else {
      var a := "The following 1-hour slots are available on ";
      assert m[0] == (a + date + ": ")[0] == (a + date)[0] == a[0] == 'T';
    }
    DifferentStart(m, AvailabilityErrorPrefix);
  }

  /** Every failure, and only a failure, is reported with the error sentence. */
  lemma ReportErrorIff(date: string, connect: Result<()>, day: Result<int>, listing: Result<seq<Event>>)
    ensures StartsWith(AvailabilityReport(date, connect, day, listing), AvailabilityErrorPrefix) <==>
      connect.Err? || day.Err? || listing.Err? || Survey(Candidates(day.value), listing.value).Err?
  {
    if connect.Err? {
      AvailabilityErrorStarts(connect.detail);
    } else if day.Err? {
      AvailabilityErrorStarts(day.detail);
    } else if listing.Err? {
      AvailabilityErrorStarts(listing.detail);
    } else {
      match Survey(Candidates(day.value), listing.value)
      case Err(d) => AvailabilityErrorStarts(d);
      case Ok(free) => AvailabilityMessageIsNoError(date, day.value, free);
    }
  }

  /** The reply with no free slot, and the reply listing the free slots. */
  lemma ReportMessages(date: string, day: int, events: seq<Event>)
    requires Survey(Candidates(day), events).Ok?
    ensures var free := Survey(Candidates(day), events).value;
      var r := AvailabilityReport(date, Ok(()), Ok(day), Ok(events));
      && (free == [] ==> r == "No 1-hour slots are available on " + date + ".")
      && (free != [] ==> StartsWith(r, "The following 1-hour slots are available on " + date + ": ")
                         && r[|"The following 1-hour slots are available on " + date + ": "|..] == Join(Labels(free, day), ", "))
  {
    var free := Survey(Candidates(day), events).value;
    if free != [] {
      var p := "The following 1-hour slots are available on " + date + ": ";
      var r := p + Join(Labels(free, day), ", ");
      assert r[..|p|] == p;
      assert r[|p|..] == Join(Labels(free, day), ", ");
    }
  }

  /** The eight candidates written out. */
  lemma CandidatesListed(day: int)
    ensures Candidates(day) == [day + 540, day + 600, day + 660, day + 720, day + 780, day + 840, day + 900, day + 960]
  {
    CandidatesShape(day);
  }

  /** A single readable event takes exactly the hours it overlaps. */
  lemma ScanOne(slot: int, e: Event)
    requires Readable(e)
    ensures Scan(slot, [e]) == if Hits(slot, e) then Taken else Free
  {
    assert [e][1..] == [];
  }

  /** The afternoon half of the scenario below: 13:00 to 16:00 around the busy 14:00. */
  lemma OneBusyAfternoon(day: int)
    ensures Survey([day + 780, day + 840, day + 900, day + 960], [Event(Some(day + 840), Some(day + 900))])
      == Ok([day + 780, day + 900, day + 960])
  {
    var e := Event(Some(day + 840), Some(day + 900));
    ScanOne(day + 780, e);
    ScanOne(day + 840, e);
    ScanOne(day + 900, e);
    ScanOne(day + 960, e);
    SurveyCons(day + 960, [], [e]);
    assert [day + 960] + [] == [day + 960];
    SurveyCons(day + 900, [day + 960], [e]);
    assert [day + 900] + [day + 960] == [day + 900, day + 960];
    SurveyCons(day + 840, [day + 900, day + 960], [e]);
    assert [day + 840] + [day + 900, day + 960] == [day + 840, day + 900, day + 960];
    SurveyCons(day + 780, [day + 840, day + 900, day + 960], [e]);
    assert [day + 780] + [day + 840, day + 900, day + 960] == [day + 780, day + 840, day + 900, day + 960];
    assert [day + 780] + [day + 900, day + 960] == [day + 780, day + 900, day + 960];
  }

  /** The free hours of a day whose only event is 14:00-15:00. */
  lemma OneBusyHourSurvey(day: int)
    ensures Survey(Candidates(day), [Event(Some(day + 840), Some(day + 900))])
      == Ok([day + 540, day + 600, day + 660, day + 720, day + 780, day + 900, day + 960])
  {
    var e := Event(Some(day + 840), Some(day + 900));
    CandidatesListed(day);
    var pm := [day + 780, day + 840, day + 900, day + 960];
    var c3 := [day + 720] + pm;
    var c2 := [day + 660] + c3;
    var c1 := [day + 600] + c2;
    var c0 := [day + 540] + c1;
    assert Candidates(day) == c0;
    OneBusyAfternoon(day);
    var rest := [day + 780, day + 900, day + 960];
    ScanOne(day + 720, e);
    ScanOne(day + 660, e);
    ScanOne(day + 600, e);
    ScanOne(day + 540, e);
    SurveyCons(day + 720, pm, [e]);
    SurveyCons(day + 660, c3, [e]);
    SurveyCons(day + 600, c2, [e]);
    SurveyCons(day + 540, c1, [e]);
    assert [day + 540] + ([day + 600] + ([day + 660] + ([day + 720] + rest)))
      == [day + 540, day + 600, day + 660, day + 720, day + 780, day + 900, day + 960];
  }

  /**
   * The scenario of one busy hour 14:00-15:00 on 2024-07-30: the other seven
   * hours are offered in ascending order, and no offered label reads 2:00 PM.
   */
  lemma OneBusyHourScenario(day: int)
    ensures var free := [day + 540, day + 600, day + 660, day + 720, day + 780, day + 900, day + 960];
      && AvailabilityReport("2024-07-30", Ok(()), Ok(day), Ok([Event(Some(day + 840), Some(day + 900))]))
         == "The following 1-hour slots are available on " + "2024-07-30" + ": " + Join(Labels(free, day), ", ")
      && |Labels(free, day)| == 7
      && "2:00 PM" !in Labels(free, day)
  {
    var free := [day + 540, day + 600, day + 660, day + 720, day + 780, day + 900, day + 960];
    OneBusyHourSurvey(day);
    Clock.TwoPmLabel();
    forall k | 0 <= k < 7 ensures Labels(free, day)[k] != "2:00 PM" {
      if Labels(free, day)[k] == "2:00 PM" {
        Clock.LabelInjective(free[k] - day, 840);
        assert false;
      }
    }
  }

  // ---------------------------------------------------------------------
  // create_appointment
  // ---------------------------------------------------------------------

  /**
   * A timestamp as `datetime.fromisoformat` reads it: the wall-clock minute
   * and, when the text carries one, the UTC offset in minutes.
   */
  datatype Stamp = Stamp(wall: int, offset: Option<int>)

  /** The instant a timestamp names, when it carries an offset. */
  function Instant(s: Stamp): Option<int> {
    if s.offset.Some? then Some(s.wall - s.offset.value) else None
  }

  datatype EventTime = EventTime(dateTime: Stamp, timeZone: string)
  /** The event body sent to the calendar's insert call. */
  datatype EventBody = EventBody(summary: string, start: EventTime, end: EventTime)
  /** The created event as the calendar returns it; `id` may be missing. */
  datatype CreatedEvent = CreatedEvent(id: Option<string>)

  /** `start + timedelta(hours=1)`: the offset is kept. */
  function OneHourLater(s: Stamp): Stamp {
    Stamp(s.wall + Hour, s.offset)
  }

  function AppointmentBody(start: Stamp, summary: string): EventBody {
    EventBody(summary, EventTime(start, Timezone), EventTime(OneHourLater(start), Timezone))
  }

  /** Python's rendering of `created_event.get('id')` inside an f-string. */
  function IdText(id: Option<string>): string {
    if id.Some? then id.value else "None"
  }

  // Split in two only because one long literal is costly for the solver.
  const AppointmentErrorPrefix := "An error occurred " + "while creating the appointment: "

  function AppointmentError(detail: string): string {
    AppointmentErrorPrefix + detail + ". Please ensure the start_time is in the correct ISO 8601 format."
  }

  function Confirmation(summary: string, when: string, id: Option<string>): string {
    "Success! Appointment '" + summary + "' has been booked for " + when + ". Event ID: " + IdText(id)
  }

  /**
   * The reply of `create_appointment(start_time, summary)`. `connect` is the
   * outcome of building the calendar client, `start` that of reading
   * `start_time`, `insert` the calendar's answer to an event body, and
   * `dateLabel` the `%A, %B %d` rendering of a local day number.
   * Existing events are never consulted.
   */
  function CreateAppointment(connect: Result<()>, start: Result<Stamp>, summary: string,
                             insert: EventBody -> Result<CreatedEvent>, dateLabel: int -> string): string
  {
    if connect.Err? then AppointmentError(connect.detail)
    else if start.Err? then AppointmentError(start.detail)
    else
      var body := AppointmentBody(start.value, summary);
      match insert(body)
      case Err(d) => AppointmentError(d)
      case Ok(created) =>
        Confirmation(summary, dateLabel(start.value.wall / Clock.MinutesPerDay) + " at " + Clock.Label(start.value.wall), created.id)
  }

  /** The body is a one-hour event with the summary unchanged and both ends labelled with the configured zone. */
  lemma BodyIsOneHour(start: Stamp, summary: string)
    ensures var b := AppointmentBody(start, summary);
      && b.summary == summary
      && b.start.dateTime == start
      && b.start.timeZone == Timezone && b.end.timeZone == Timezone
      && b.end.dateTime.offset == start.offset
      && b.end.dateTime.wall - b.start.dateTime.wall == Hour
      && (Instant(start).Some? ==> Instant(b.end.dateTime).value == Instant(start).value + Hour)
  {
  }

  /** A successful booking names the summary and the created event's id. */
  lemma ConfirmationMentions(summary: string, when: string, id: string)
    ensures Contains(Confirmation(summary, when, Some(id)), summary)
    ensures Contains(Confirmation(summary, when, Some(id)), id)
  {
    var c := Confirmation(summary, when, Some(id));
    var p := "Success! Appointment '";
    assert OccursAt(c, summary, |p|);
    var q := p + summary + "' has been booked for " + when + ". Event ID: ";
    assert c == q + id;
    assert OccursAt(c, id, |q|);
  }

  /** A booking the calendar accepts with an id is confirmed with a reply naming the summary and that id. */
  lemma BookingMentions(start: Stamp, summary: string, insert: EventBody -> Result<CreatedEvent>,
                        dateLabel: int -> string, id: string)
    requires insert(AppointmentBody(start, summary)) == Ok(CreatedEvent(Some(id)))
    ensures Contains(CreateAppointment(Ok(()), Ok(start), summary, insert, dateLabel), summary)
    ensures Contains(CreateAppointment(Ok(()), Ok(start), summary, insert, dateLabel), id)
  {
    ConfirmationMentions(summary, dateLabel(start.wall / Clock.MinutesPerDay) + " at " + Clock.Label(start.wall), id);
  }

  lemma AppointmentErrorStarts(detail: string)
    ensures StartsWith(AppointmentError(detail), AppointmentErrorPrefix)
  {
    assert AppointmentError(detail) == AppointmentErrorPrefix + (detail + ". Please ensure the start_time is in the correct ISO 8601 format.");
  }

  lemma ConfirmationIsNoError(summary: string, when: string, id: Option<string>)
    ensures !StartsWith(Confirmation(summary, when, id), AppointmentErrorPrefix)
  {
    var m := Confirmation(summary, when, id);
    var a := "Success! Appointment '";
    assert AppointmentErrorPrefix[0] == 'A';
    assert m[0] == (a + summary + "' has been booked for " + when + ". Event ID: ")[0]
      == (a + summary + "' has been booked for " + when)[0]
      == (a + summary + "' has been booked for ")[0] == (a + summary)[0] == a[0] == 'S';
    DifferentStart(m, AppointmentErrorPrefix);
  }

  /** Every failure, and only a failure, is reported with the error sentence. */
  lemma CreateErrorIff(connect: Result<()>, start: Result<Stamp>, summary: string,
                       insert: EventBody -> Result<CreatedEvent>, dateLabel: int -> string)
    ensures StartsWith(CreateAppointment(connect, start, summary, insert, dateLabel), AppointmentErrorPrefix) <==>
      connect.Err? || start.Err? || insert(AppointmentBody(start.value, summary)).Err?
  {
    if connect.Err? {
      AppointmentErrorStarts(connect.detail);
    } else if start.Err? {
      AppointmentErrorStarts(start.detail);
    } else {
      match insert(AppointmentBody(start.value, summary))
      case Err(d) => AppointmentErrorStarts(d);
      case Ok(created) =>
        ConfirmationIsNoError(summary, dateLabel(start.value.wall / Clock.MinutesPerDay) + " at " + Clock.Label(start.value.wall), created.id);
    }
  }

  /** The busy interval a created appointment occupies, as the calendar lists it. */
  function BookedEvent(b: EventBody): Event {
    Event(Instant(b.start.dateTime), Instant(b.end.dateTime))
  }

  /**
   * Booking a candidate hour and listing it back removes that hour from the
   * offered slots, whatever else the calendar holds.
   */
  lemma BookedSlotNotOffered(day: int, start: Stamp, summary: string, before: seq<Event>, after: seq<Event>)
    requires Instant(start).Some? && Instant(start).value in Candidates(day)
    ensures var events := before + [BookedEvent(AppointmentBody(start, summary))] + after;
      var r := Survey(Candidates(day), events);
      r.Ok? ==> Instant(start).value !in r.value
  {
    var events := before + [BookedEvent(AppointmentBody(start, summary))] + after;
    var t := Instant(start).value;
    var r := Survey(Candidates(day), events);
    if r.Ok? {
      SurveyKeepsFree(Candidates(day), events);
      if Scan(t, events) == Free {
        ScanUnreadable(t, events);
        FreeMeansMissed(t, events, |before|);
      }
    }
  }

  /** A slot found free was missed by every event, each of which was readable. */
  lemma {:induction false} FreeMeansMissed(slot: int, events: seq<Event>, i: int)
    requires 0 <= i < |events| && Scan(slot, events) == Free
    ensures Readable(events[i]) && !Hits(slot, events[i])
  {
    if i > 0 {
      FreeMeansMissed(slot, events[1..], i - 1);
      assert events[1..][i - 1] == events[i];
    }
  }
}
