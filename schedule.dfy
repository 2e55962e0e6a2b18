/**
 * The personal event list of `components/Schedule.tsx`: loading from the stored
 * slot, the validated add, delete by id, clear-all, and the chronological view.
 */
module Schedule {
  import opened Types
  import Seqs

  /** The browser storage slot as read at start-up. */
  datatype StoredSlot = Missing | Unreadable | Stored(events: seq<UserEvent>)

  /** The load effect: only a readable stored list replaces the initial empty list. */
  function LoadedEvents(slot: StoredSlot): (r: seq<UserEvent>)
    ensures slot.Stored? ==> r == slot.events
    ensures !slot.Stored? ==> r == []
  {
    match slot
    case Stored(events) => events
    case _ => []
  }

  // ---------------------------------------------------------------- chronological order

  predicate IsDigit(c: char) { '0' <= c <= '9' }

  /** The number spelled by the decimal digits of `s`, other characters skipped. */
  function DigitsValue(s: string): nat
  {
    if s == [] then 0
    else if IsDigit(s[|s| - 1]) then DigitsValue(s[..|s| - 1]) * 10 + (s[|s| - 1] as int - '0' as int)
    else DigitsValue(s[..|s| - 1])
  }

  /** `HH:MM`. */
  predicate WellFormedTime(t: string)
  {
    |t| == 5 && IsDigit(t[0]) && IsDigit(t[1]) && t[2] == ':' && IsDigit(t[3]) && IsDigit(t[4])
  }

  /** A well-formed time spells a number below 10000. */
  lemma TimeValueBound(t: string)
    requires WellFormedTime(t)
    ensures DigitsValue(t) < 10000
  {
    assert t[..1][..0] == [] && t[..2][..1] == t[..1] && t[..3][..2] == t[..2];
    assert t[..4][..3] == t[..3] && t[..5] == t && t[..5][..4] == t[..4];
    assert DigitsValue(t[..1]) < 10;
    assert DigitsValue(t[..2]) < 100;
    assert DigitsValue(t[..3]) == DigitsValue(t[..2]);
    assert DigitsValue(t[..4]) < 1000;
  }

  /** The instant `${date}T${time}` as a number that orders like the instant: date first, then time. */
  function EventKey(e: UserEvent): int
  {
    DigitsValue(e.date) * 10000 + DigitsValue(e.time)
  }

  /** An event on an earlier date comes first whatever the times. */
  lemma EarlierDateFirst(a: UserEvent, b: UserEvent)
    requires WellFormedTime(a.time) && WellFormedTime(b.time)
    requires DigitsValue(a.date) < DigitsValue(b.date)
    ensures EventKey(a) < EventKey(b)
  {
    TimeValueBound(a.time);
  }

  function LaterFirstKey(e: UserEvent): int { -EventKey(e) }

  /** `sortedUserEvents`: a copy of the list sorted by `dateA - dateB`. */
  function SortedEvents(events: seq<UserEvent>): (r: seq<UserEvent>)
    ensures multiset(r) == multiset(events)
    ensures forall i, j :: 0 <= i < j < |r| ==> EventKey(r[i]) <= EventKey(r[j])
  {
    var r := Seqs.SortByKey(events, LaterFirstKey);
    assert forall i, j :: 0 <= i < j < |r| ==> LaterFirstKey(r[i]) >= LaterFirstKey(r[j]);
    r
  }

  // ---------------------------------------------------------------- deletion

  function KeepUnlessId(id: string): UserEvent -> bool
  {
    (e: UserEvent) => e.id != id
  }

  /** `events.filter(event => event.id !== id)`. */
  function WithoutId(events: seq<UserEvent>, id: string): (r: seq<UserEvent>)
    ensures forall e :: e in r <==> e in events && e.id != id
  {
    Seqs.Filter(events, KeepUnlessId(id))
  }

  /** Deleting keeps every other event as often as before, in the original order. */
  lemma WithoutIdKeepsOthers(events: seq<UserEvent>, id: string, e: UserEvent)
    ensures multiset(WithoutId(events, id))[e] == if e.id != id then multiset(events)[e] else 0
    ensures Seqs.IsSubsequence(WithoutId(events, id), events)
  {
    Seqs.FilterCount(events, KeepUnlessId(id), e);
    Seqs.FilterIsSubsequence(events, KeepUnlessId(id));
  }

  // ---------------------------------------------------------------- the page state

  /** The schedule page: the event list and the add-event form fields. */
  class ScheduleState {
    var myEvents: seq<UserEvent>
    var title: string
    var date: string
    var time: string
    var description: string

    /** Mounting the page: empty form, events from the stored slot if it holds a readable list. */
    constructor Load(slot: StoredSlot)
      ensures myEvents == LoadedEvents(slot)
      ensures title == "" && date == "" && time == "" && description == ""
    {
      myEvents := LoadedEvents(slot);
      title, date, time, description := "", "", "", "";
    }

    /** Typing into the form. */
    method SetForm(title: string, date: string, time: string, description: string)
      modifies this`title, this`date, this`time, this`description
      ensures this.title == title && this.date == date && this.time == time && this.description == description
    {
      this.title, this.date, this.time, this.description := title, date, time, description;
    }

    /**
     * `handleAddEvent`: an empty title, date or time rejects the form and changes
     * nothing; otherwise the event is appended and the form is cleared.
     * `id` stands for `String(Date.now())`.
     */
    method AddEvent(id: string) returns (added: bool)
      modifies this
      ensures added <==> old(title) != "" && old(date) != "" && old(time) != ""
      ensures !added ==>
        myEvents == old(myEvents) && title == old(title) && date == old(date)
        && time == old(time) && description == old(description)
      ensures added ==>
        && myEvents == old(myEvents) + [UserEvent(id, old(title), old(date), old(time), old(description))]
        && title == "" && date == "" && time == "" && description == ""
    {
      added := title != "" && date != "" && time != "";
      if added {
        myEvents := myEvents + [UserEvent(id, title, date, time, description)];
        title, date, time, description := "", "", "", "";
      }
    }

    /** `handleDeleteEvent(id)`: removes every event with this id. */
    method DeleteEvent(id: string)
      modifies this`myEvents
      ensures myEvents == WithoutId(old(myEvents), id)
    {
      myEvents := WithoutId(myEvents, id);
    }

    /** `handleClearAllEvents`: empties the list once the user confirms. */
    method ClearAllEvents(confirmed: bool)
      modifies this`myEvents
      ensures myEvents == if confirmed then [] else old(myEvents)
    {
      if confirmed {
        myEvents := [];
      }
    }

    /** The list as displayed. */
    function SortedUserEvents(): (r: seq<UserEvent>)
      reads this
      ensures multiset(r) == multiset(myEvents)
      ensures forall i, j :: 0 <= i < j < |r| ==> EventKey(r[i]) <= EventKey(r[j])
    {
      SortedEvents(myEvents)
    }
  }
}
