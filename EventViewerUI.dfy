/** The event viewer: the list of recorded events, newest first, and the view of
    it that passes the text, category and severity filters. */
module EventViewer {
  import opened Text
  import opened Seqs
  import opened LogCategories
  import opened SettingsUi

  /** `EventSeverity`; `UnlistedSeverity` stands for any other value of the enum. */
  datatype Severity = Informational | Warning | Error | UnlistedSeverity(code: int)

  /** An `Event`, with its time in ticks. */
  datatype Event = Event(time: int, source: string, character: string, uid: string, message: string,
                         severity: Severity)

  /** The five text boxes of the filter. */
  datatype TextFilters = TextFilters(freeText: string, character: string, uid: string, source: string,
                                     event: string)

  /** The three severity check boxes. */
  datatype SeverityToggles = SeverityToggles(info: bool, warning: bool, error: bool)

  const NoText := TextFilters("", "", "", "", "")
  const AllCategories := CategoryToggles(true, true, true, true, true, true)
  const AllSeverities := SeverityToggles(true, true, true)

  /** An empty filter box matches everything; otherwise its text must occur in
      the field, ignoring case. */
  predicate TextMatches(filter: string, field: string)
  {
    filter == [] || ContainsIgnoreCase(field, filter)
  }

  /** The severity switch: each listed severity has its box; any other value passes. */
  function SeverityShown(s: Severity, t: SeverityToggles): (r: bool)
    ensures s.UnlistedSeverity? ==> r
    ensures t == AllSeverities ==> r
  {
    match s
    case Informational => t.info
    case Warning => t.warning
    case Error => t.error
    case UnlistedSeverity(_) => true
  }

  /** The `RecreateFilter` predicate: the free text occurs in the source,
      character, UID or message; each other box matches its own field; the
      source's category box is ticked; and the severity box is ticked. */
  predicate EventPasses(e: Event, f: TextFilters, cats: CategoryToggles, sev: SeverityToggles)
  {
    (f.freeText == [] || ContainsIgnoreCase(e.source, f.freeText) || ContainsIgnoreCase(e.character, f.freeText)
       || ContainsIgnoreCase(e.uid, f.freeText) || ContainsIgnoreCase(e.message, f.freeText))
    && TextMatches(f.uid, e.uid)
    && TextMatches(f.source, e.source)
    && TextMatches(f.character, e.character)
    && TextMatches(f.event, e.message)
    && CategoryShown(cats, Classify(e.source))
    && SeverityShown(e.severity, sev)
  }

  /** The filtered view: the passing events in their original order. */
  function FilterEvents(events: seq<Event>, f: TextFilters, cats: CategoryToggles,
                        sev: SeverityToggles): (r: seq<Event>)
    ensures |r| <= |events|
  {
    Filter(events, e => EventPasses(e, f, cats, sev))
  }

  /** An event is in the view exactly when it is current and passes, and the
      view keeps the order of the current events. */
  lemma {:induction false} FilterEventsSpec(events: seq<Event>, f: TextFilters, cats: CategoryToggles, sev: SeverityToggles,
                         e: Event)
    ensures e in FilterEvents(events, f, cats, sev) <==> e in events && EventPasses(e, f, cats, sev)
    ensures IsSubsequence(FilterEvents(events, f, cats, sev), events)
  {
    FilterMembership(events, x => EventPasses(x, f, cats, sev), e);
    FilterIsSubsequence(events, x => EventPasses(x, f, cats, sev));
  }

  /** With all filters cleared every event passes, so the view is the whole list. */
  lemma {:induction false} ClearedFilterKeepsAll(events: seq<Event>)
    ensures FilterEvents(events, NoText, AllCategories, AllSeverities) == events
  {
    FilterAll(events, x => EventPasses(x, NoText, AllCategories, AllSeverities));
  }

  /** The sort key of the newest-first order: the negated time. */
  function TimeKey(e: Event): seq<int>
  {
    [-e.time]
  }

  /** `OrderByDescending(f => f.EventTime)`: a stable sort on the negated time. */
  function NewestFirst(events: seq<Event>): (r: seq<Event>)
    ensures |r| == |events| && multiset(r) == multiset(events)
  {
    SortByKey(events, TimeKey)
  }

  /** The sorted list is a rearrangement of the events, each at least as recent
      as every one after it. */
  lemma {:induction false} NewestFirstOrdered(events: seq<Event>)
    ensures forall i, j :: 0 <= i < j < |NewestFirst(events)| ==>
              NewestFirst(events)[i].time >= NewestFirst(events)[j].time
  {
    var key := TimeKey;
    SortByKeySorted(events, key);
    var r := NewestFirst(events);
    forall i, j | 0 <= i < j < |r| ensures r[i].time >= r[j].time {
      assert LexLe(key(r[i]), key(r[j]));
      assert key(r[i])[1..] == [] && key(r[j])[1..] == [];
    }
  }

  class EventViewerUI {
    var currentEvents: seq<Event>
    var textFilters: TextFilters
    var categories: CategoryToggles
    var severities: SeverityToggles
    var filteredEvents: seq<Event>

    /** The view is the filter applied to the current events and boxes. */
    ghost predicate Valid()
      reads this
    {
      filteredEvents == FilterEvents(currentEvents, textFilters, categories, severities)
    }

    constructor ()
      ensures Valid() && currentEvents == [] && filteredEvents == []
      ensures textFilters == NoText && categories == AllCategories && severities == AllSeverities
    {
      currentEvents := [];
      textFilters, categories, severities := NoText, AllCategories, AllSeverities;
      filteredEvents := [];
    }

    /** `RecreateFilter`, assigned to the view. */
    method RecreateFilter()
      modifies this`filteredEvents
      ensures Valid()
    {
      filteredEvents := FilterEvents(currentEvents, textFilters, categories, severities);
    }

    /** The `CurrentEvents` setter: store the list and rebuild the view from it. */
    method SetCurrentEvents(events: seq<Event>)
      modifies this`currentEvents, this`filteredEvents
      ensures Valid() && currentEvents == events
    {
      currentEvents := events;
      RecreateFilter();
    }

    /** `ClearFilters`: empty every text box, tick every box, rebuild the view. */
    method ClearFilters()
      modifies this`textFilters, this`categories, this`severities, this`filteredEvents
      ensures Valid()
      ensures textFilters == NoText && categories == AllCategories && severities == AllSeverities
      ensures filteredEvents == currentEvents
    {
      textFilters, categories, severities := NoText, AllCategories, AllSeverities;
      RecreateFilter();
      ClearedFilterKeepsAll(currentEvents);
    }

    /** Editing the filter boxes: the view is rebuilt when anything changed. */
    method EditFilters(f: TextFilters, cats: CategoryToggles, sev: SeverityToggles)
      requires Valid()
      modifies this`textFilters, this`categories, this`severities, this`filteredEvents
      ensures Valid() && textFilters == f && categories == cats && severities == sev
      ensures currentEvents == old(currentEvents)
    {
      var changed := f != textFilters || cats != categories || sev != severities;
      textFilters, categories, severities := f, cats, sev;
      if changed {
        RecreateFilter();
      }
    }

    /** `OnOpen`: load the aggregated events newest first, then clear the filters. */
    method OnOpen(eventList: seq<Event>)
      modifies this`currentEvents, this`textFilters, this`categories, this`severities, this`filteredEvents
      ensures Valid()
      ensures currentEvents == NewestFirst(eventList) && filteredEvents == currentEvents
      ensures textFilters == NoText && categories == AllCategories && severities == AllSeverities
    {
      SetCurrentEvents(NewestFirst(eventList));
      ClearFilters();
    }

    /** "Refresh events": enabled only while new events are available; reloads
        the events newest first and keeps the filters. */
    method Refresh(eventList: seq<Event>, newEventsAvailable: bool)
      requires Valid()
      modifies this`currentEvents, this`filteredEvents
      ensures Valid()
      ensures newEventsAvailable ==> currentEvents == NewestFirst(eventList)
      ensures !newEventsAvailable ==> currentEvents == old(currentEvents) && filteredEvents == old(filteredEvents)
    {
      if newEventsAvailable {
        SetCurrentEvents(NewestFirst(eventList));
      }
    }
  }
}
