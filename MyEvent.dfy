/** The organizer's event list (app/screens/MyEvent.tsx): each activity's
    status is derived from its start, end and the current time, its date is
    reformatted for display, and the list can be filtered by status and its
    events expanded or collapsed. Times are integer minutes; a calendar day
    is `minutes / 1440`. */
module MyEvent {

  const PAST := "Đã qua"
  const ONGOING := "Đang diễn ra"
  const UPCOMING := "Sắp tới"
  const ALL := "all"
  const MINUTES_PER_DAY := 1440

  /** An activity as fetched, with `start` and `end` the minutes of
      `date + 'T' + startTime` and `date + 'T' + endTime`; `status` and
      `formattedDate` are the two fields the screen adds. */
  datatype Activity = Activity(eventActivityId: int, name: string, date: string, start: int, end: int,
                               status: string, formattedDate: string)

  datatype Event = Event(eventId: int, eventName: string, activities: seq<Activity>)

  /** `toDateString()`: the calendar day of a time in minutes. */
  function Day(minutes: int): int
  {
    minutes / MINUTES_PER_DAY
  }

  // ---------------------------------------------------------------------
  // Status

  /** The if/else chain that labels an activity, with `''` when no branch
      applies. */
  function DeriveStatus(start: int, end: int, now: int): (s: string)
    ensures s == PAST <==> start < now && end < now
    ensures s == ONGOING <==> Day(start) == Day(now) && start <= now <= end
    ensures s == UPCOMING <==> now < start
    ensures s == "" <==> (start < now <= end && Day(start) != Day(now)) || (start == now && end < now)
  {
    if start < now && end < now then PAST
    else if Day(start) == Day(now) && now >= start && now <= end then ONGOING
    else if start > now then UPCOMING
    else ""
  }

  /** An activity that starts and ends on one calendar day, not before it
      starts, always gets one of the three labels. */
  lemma SameDayActivityIsLabelled(start: int, end: int, now: int)
    requires start <= end && Day(start) == Day(end)
    ensures DeriveStatus(start, end, now) in {PAST, ONGOING, UPCOMING}
  {
  }

  /** `getStatusColor`: a colour for every string, white when unknown. */
  function StatusColor(status: string): (c: string)
    ensures c == "#757575" <==> status == PAST
    ensures c == "#FF8A00" <==> status == ONGOING
    ensures c == "#4CAF50" <==> status == UPCOMING
    ensures c == "#FFFFFF" <==> status !in {PAST, ONGOING, UPCOMING}
  {
    if status == PAST then "#757575"
    else if status == ONGOING then "#FF8A00"
    else if status == UPCOMING then "#4CAF50"
    else "#FFFFFF"
  }

  /** A derived status is drawn white exactly when it is the empty label. */
  lemma DerivedColor(start: int, end: int, now: int)
    ensures StatusColor(DeriveStatus(start, end, now)) == "#FFFFFF" <==> DeriveStatus(start, end, now) == ""
  {
  }

  // ---------------------------------------------------------------------
  // Dates

  /** `s.split('-')`. */
  function Split(s: string): (parts: seq<string>)
    ensures |parts| >= 1
    ensures forall i :: 0 <= i < |parts| ==> '-' !in parts[i]
  {
    if s == [] then [[]]
    else
      var rest := Split(s[1..]);
      if s[0] == '-' then [[]] + rest
      else [[s[0]] + rest[0]] + rest[1..]
  }

  /** `parts.join('-')`. */
  function Join(parts: seq<string>): string
    requires |parts| >= 1
  {
    if |parts| == 1 then parts[0] else parts[0] + "-" + Join(parts[1..])
  }

  /** Joining what was split gives back the string. */
  lemma {:induction false} JoinSplit(s: string)
    ensures Join(Split(s)) == s
  {
    if s != [] {
      JoinSplit(s[1..]);
      var rest := Split(s[1..]);
      if s[0] == '-' {
        assert Split(s) == [[]] + rest;
        assert ([[]] + rest)[1..] == rest;
      } else {
        var parts := [[s[0]] + rest[0]] + rest[1..];
        assert Split(s) == parts;
        if |rest| == 1 {
          assert Join(parts) == [s[0]] + rest[0] == [s[0]] + Join(rest);
        } else {
          assert parts[1..] == rest[1..];
          assert Join(rest) == rest[0] + "-" + Join(rest[1..]);
          assert Join(parts) == ([s[0]] + rest[0]) + "-" + Join(rest[1..]);
        }
        assert s == [s[0]] + s[1..];
      }
    }
  }

  /** Splitting a dash-free prefix glued to `t` glues it to the first part. */
  lemma {:induction false} SplitPrefix(p: string, t: string)
    requires '-' !in p
    ensures Split(p + t) == [p + Split(t)[0]] + Split(t)[1..]
  {
    if p != [] {
      SplitPrefix(p[1..], t);
      assert (p + t)[1..] == p[1..] + t;
      assert (p + t)[0] == p[0];
      assert [p[0]] + (p[1..] + Split(t)[0]) == p + Split(t)[0];
    } else {
      assert p + t == t;
      assert p + Split(t)[0] == Split(t)[0];
      assert Split(t) == [Split(t)[0]] + Split(t)[1..];
    }
  }

  /** Splitting what was joined from dash-free parts gives back the parts. */
  lemma {:induction false} SplitJoin(parts: seq<string>)
    requires |parts| >= 1
    requires forall i :: 0 <= i < |parts| ==> '-' !in parts[i]
    ensures Split(Join(parts)) == parts
  {
    if |parts| == 1 {
      SplitPrefix(parts[0], []);
      assert parts[0] + [] == parts[0];
      assert Split([]) == [[]];
      assert parts == [parts[0]];
    } else {
      var tail := parts[1..];
      SplitJoin(tail);
      var t := "-" + Join(tail);
      assert Join(parts) == parts[0] + t;
      SplitPrefix(parts[0], t);
      assert t[0] == '-' && t[1..] == Join(tail);
      assert Split(t) == [[]] + Split(Join(tail));
      assert Split(t)[0] == [] && Split(t)[1..] == tail;
      assert parts[0] + [] == parts[0];
      assert parts == [parts[0]] + tail;
    }
  }

  /** `formatDate`: `YYYY-MM-DD` becomes `DD-MM-YYYY`; anything that does not
      split into exactly three parts becomes `''`. */
  function FormatDate(date: string): (r: string)
    ensures |Split(date)| != 3 ==> r == ""
    ensures |Split(date)| == 3 ==> Split(r) == [Split(date)[2], Split(date)[1], Split(date)[0]]
  {
    if date == "" then ""
    else
      var parts := Split(date);
      if |parts| != 3 then ""
      else
        SplitJoin([parts[2], parts[1], parts[0]]);
        Join([parts[2], parts[1], parts[0]])
  }

  /** Formatting a three-part date twice gives back the date. */
  lemma FormatDateInvolution(date: string)
    requires |Split(date)| == 3
    ensures FormatDate(FormatDate(date)) == date
  {
    var parts := Split(date);
    var once := FormatDate(date);
    assert once != "" by {
      assert |Split(once)| == 3;
    }
    assert Split(once)[2] == parts[0] && Split(once)[1] == parts[1] && Split(once)[0] == parts[2];
    assert [parts[0], parts[1], parts[2]] == parts;
    JoinSplit(date);
  }

  // ---------------------------------------------------------------------
  // Annotating the fetched list

  /** One activity with its status and display date filled in. */
  function Annotate(a: Activity, now: int): Activity
  {
    a.(status := DeriveStatus(a.start, a.end, now), formattedDate := FormatDate(a.date))
  }

  /** The nested `map` that turns the fetched events into the list shown:
      same events in the same order, each activity labelled and dated. */
  function AnnotateEvents(events: seq<Event>, now: int): (r: seq<Event>)
    ensures |r| == |events|
    ensures forall i :: 0 <= i < |r| ==>
              && r[i].eventId == events[i].eventId && r[i].eventName == events[i].eventName
              && |r[i].activities| == |events[i].activities|
              && forall j :: 0 <= j < |r[i].activities| ==> r[i].activities[j] == Annotate(events[i].activities[j], now)
  {
    seq(|events|, i requires 0 <= i < |events| =>
      events[i].(activities := seq(|events[i].activities|, j requires 0 <= j < |events[i].activities| =>
        Annotate(events[i].activities[j], now))))
  }

  // ---------------------------------------------------------------------
  // Filtering

  /** `eventActivities.filter(activity => activity.status === status)`. */
  function KeepStatus(activities: seq<Activity>, status: string): (r: seq<Activity>)
    ensures |r| <= |activities|
    ensures forall i :: 0 <= i < |r| ==> r[i].status == status
    ensures forall a :: a in r <==> a in activities && a.status == status
  {
    if activities == [] then []
    else (if activities[0].status == status then [activities[0]] else []) + KeepStatus(activities[1..], status)
  }

  /** Filtering distributes over concatenation, so it keeps the order. */
  lemma {:induction false} KeepStatusAppend(xs: seq<Activity>, ys: seq<Activity>, status: string)
    ensures KeepStatus(xs + ys, status) == KeepStatus(xs, status) + KeepStatus(ys, status)
  {
    if xs != [] {
      assert (xs + ys)[0] == xs[0];
      assert (xs + ys)[1..] == xs[1..] + ys;
      KeepStatusAppend(xs[1..], ys, status);
    } else {
      assert xs + ys == ys;
    }
  }

  /** Filtering a list whose activities all match changes nothing. */
  lemma {:induction false} KeepStatusAllMatch(xs: seq<Activity>, status: string)
    requires forall i :: 0 <= i < |xs| ==> xs[i].status == status
    ensures KeepStatus(xs, status) == xs
  {
    if xs != [] {
      KeepStatusAllMatch(xs[1..], status);
      assert xs == [xs[0]] + xs[1..];
    }
  }

  /** The event keeps only its activities with `status`. */
  function Narrowed(e: Event, status: string): Event
  {
    e.(activities := KeepStatus(e.activities, status))
  }

  /** The event has at least one activity with `status`. */
  predicate HasStatus(e: Event, status: string)
  {
    exists i :: 0 <= i < |e.activities| && e.activities[i].status == status
  }

  lemma HasStatusNarrowed(e: Event, status: string)
    ensures HasStatus(e, status) <==> KeepStatus(e.activities, status) != []
  {
    var kept := KeepStatus(e.activities, status);
    if HasStatus(e, status) {
      var i :| 0 <= i < |e.activities| && e.activities[i].status == status;
      assert e.activities[i] in kept;
    }
    if kept != [] {
      assert kept[0] in kept;
      var i :| 0 <= i < |e.activities| && e.activities[i] == kept[0];
      assert e.activities[i].status == status;
    }
  }

  /** `events.map(...).filter(e => e !== null)` for one status: the events
      with a matching activity, each narrowed to its matching activities. */
  function FilterEvents(events: seq<Event>, status: string): (r: seq<Event>)
    ensures |r| <= |events|
    ensures forall i :: 0 <= i < |r| ==> r[i].activities != []
    ensures forall i, j :: 0 <= i < |r| && 0 <= j < |r[i].activities| ==> r[i].activities[j].status == status
  {
    if events == [] then []
    else
      var e := events[0];
      var rest := FilterEvents(events[1..], status);
      HasStatusNarrowed(e, status);
      if KeepStatus(e.activities, status) != [] then [Narrowed(e, status)] + rest else rest
  }

  /** Every event with a matching activity is kept, narrowed. */
  lemma {:induction false} FilterEventsKeeps(events: seq<Event>, status: string, e: Event)
    requires e in events && HasStatus(e, status)
    ensures Narrowed(e, status) in FilterEvents(events, status)
  {
    HasStatusNarrowed(e, status);
    if events[0] != e {
      FilterEventsKeeps(events[1..], status, e);
    }
  }

  /** Every event shown is an input event with a matching activity,
      narrowed to its matching activities. */
  lemma {:induction false} FilterEventsOnly(events: seq<Event>, status: string, shown: Event)
    requires shown in FilterEvents(events, status)
    ensures exists e :: e in events && HasStatus(e, status) && shown == Narrowed(e, status)
  {
    var e := events[0];
    HasStatusNarrowed(e, status);
    if KeepStatus(e.activities, status) != [] && shown == Narrowed(e, status) {
      assert e in events;
    } else {
      FilterEventsOnly(events[1..], status, shown);
      var e' :| e' in events[1..] && HasStatus(e', status) && shown == Narrowed(e', status);
      assert e' in events;
    }
  }

  /** Filtering distributes over concatenation, so it keeps the order. */
  lemma {:induction false} FilterEventsAppend(xs: seq<Event>, ys: seq<Event>, status: string)
    ensures FilterEvents(xs + ys, status) == FilterEvents(xs, status) + FilterEvents(ys, status)
  {
    if xs != [] {
      assert (xs + ys)[0] == xs[0];
      assert (xs + ys)[1..] == xs[1..] + ys;
      FilterEventsAppend(xs[1..], ys, status);
    } else {
      assert xs + ys == ys;
    }
  }

  /** What `handleFilterChange(status)` shows: everything for 'all'. */
  function ApplyFilter(events: seq<Event>, status: string): (r: seq<Event>)
    ensures status == ALL ==> r == events
    ensures status != ALL ==> r == FilterEvents(events, status)
  {
    if status == ALL then events else FilterEvents(events, status)
  }

  // ---------------------------------------------------------------------
  // Expanding

  /** `expandedEvents.filter(i => i !== index)`. */
  function Without(xs: seq<int>, index: int): (r: seq<int>)
    ensures |r| <= |xs|
    ensures forall j :: j in r <==> j in xs && j != index
    ensures index !in xs ==> r == xs
  {
    if xs == [] then []
    else (if xs[0] != index then [xs[0]] else []) + Without(xs[1..], index)
  }

  /** The list `toggleExpand(index)` stores. */
  function Toggled(xs: seq<int>, index: int): (r: seq<int>)
    ensures index in r <==> index !in xs
    ensures forall j :: j != index ==> (j in r <==> j in xs)
  {
    if index in xs then Without(xs, index) else xs + [index]
  }

  /** Expanding a collapsed event and collapsing it again restores the list. */
  lemma ToggleTwice(xs: seq<int>, index: int)
    requires index !in xs
    ensures Toggled(Toggled(xs, index), index) == xs
  {
    assert index in xs + [index];
    WithoutAppend(xs, [index], index);
    assert Without([index], index) == [];
    assert xs + [] == xs;
  }

  lemma {:induction false} WithoutAppend(xs: seq<int>, ys: seq<int>, index: int)
    ensures Without(xs + ys, index) == Without(xs, index) + Without(ys, index)
  {
    if xs != [] {
      assert (xs + ys)[0] == xs[0];
      assert (xs + ys)[1..] == xs[1..] + ys;
      WithoutAppend(xs[1..], ys, index);
    } else {
      assert xs + ys == ys;
    }
  }

  // ---------------------------------------------------------------------
  // The screen's state

  class EventList {
    var events: seq<Event>
    var filteredEvents: seq<Event>
    var filter: string
    var expandedEvents: seq<int>

    constructor ()
      ensures events == [] && filteredEvents == [] && filter == ALL && expandedEvents == []
    {
      events, filteredEvents := [], [];
      filter := ALL;
      expandedEvents := [];
    }

    /** The successful branch of `fetchEvents`: the fetched list, labelled at
        time `now`, becomes both the list and the list shown. */
    method Loaded(fetched: seq<Event>, now: int)
      modifies this`events, this`filteredEvents
      ensures events == AnnotateEvents(fetched, now) && filteredEvents == events
    {
      events := AnnotateEvents(fetched, now);
      filteredEvents := events;
    }

    /** `handleFilterChange(status)`. */
    method HandleFilterChange(status: string)
      modifies this`filter, this`expandedEvents, this`filteredEvents
      ensures filter == status && expandedEvents == []
      ensures filteredEvents == ApplyFilter(events, status)
    {
      filter := status;
      expandedEvents := [];
      if status == ALL {
        filteredEvents := events;
      } else {
        filteredEvents := FilterEvents(events, status);
      }
    }

    /** `toggleExpand(index)`: `index` changes membership, no other does. */
    method ToggleExpand(index: int)
      modifies this`expandedEvents
      ensures expandedEvents == Toggled(old(expandedEvents), index)
      ensures index in expandedEvents <==> index !in old(expandedEvents)
      ensures forall j :: j != index ==> (j in expandedEvents <==> j in old(expandedEvents))
    {
      if index in expandedEvents {
        expandedEvents := Without(expandedEvents, index);
      } else {
        expandedEvents := expandedEvents + [index];
      }
    }
  }
}
