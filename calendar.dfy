/** The calendar provider as the webhook uses it: a store of events that the
    handler lists by calendar and time window and inserts into. Events of
    every staff calendar sit in one sequence, each tagged with its calendar. */
module Calendar {

  /** An event as the webhook reads and writes it. A missing description is
      the empty string, as the handler reads it through `|| ""`. */
  datatype CalendarEvent = CalendarEvent(
    calendarId: string,
    summary: string,
    description: string,
    start: string,
    end: string)

  /** The provider's test whether an event with this start and end falls in
      the listed window [timeMin, timeMax]. The provider compares instants
      parsed from the ISO strings; the model takes that comparison as given. */
  type WindowTest = (string, string, string, string) -> bool

  /** An event is listed for its own start and end: true of any event the
      provider accepts, whose start lies before its end. */
  predicate ListsOwnWindow(inWindow: WindowTest, e: CalendarEvent) {
    inWindow(e.start, e.end, e.start, e.end)
  }

  /** The events of one calendar that fall in a window, in store order. */
  function Window(events: seq<CalendarEvent>, calendarId: string, timeMin: string, timeMax: string,
                  inWindow: WindowTest): (r: seq<CalendarEvent>)
    ensures forall e :: e in r <==>
      e in events && e.calendarId == calendarId && inWindow(e.start, e.end, timeMin, timeMax)
    decreases |events|
  {
    if events == [] then []
    else
      assert events == [events[0]] + events[1..];
      var rest := Window(events[1..], calendarId, timeMin, timeMax, inWindow);
      var e := events[0];
      if e.calendarId == calendarId && inWindow(e.start, e.end, timeMin, timeMax) then [e] + rest else rest
  }

  class CalendarStore {
    var events: seq<CalendarEvent>

    constructor (initial: seq<CalendarEvent>)
      ensures events == initial
    {
      events := initial;
    }

    /** `calendar.events.list` for one calendar and window. */
    method List(calendarId: string, timeMin: string, timeMax: string, inWindow: WindowTest)
      returns (items: seq<CalendarEvent>)
      ensures items == Window(events, calendarId, timeMin, timeMax, inWindow)
      ensures forall e :: e in items <==>
        e in events && e.calendarId == calendarId && inWindow(e.start, e.end, timeMin, timeMax)
    {
      items := Window(events, calendarId, timeMin, timeMax, inWindow);
    }

    /** `calendar.events.insert`: the store gains exactly this event. */
    method Insert(e: CalendarEvent)
      modifies this
      ensures events == old(events) + [e]
    {
      events := events + [e];
    }
  }
}
