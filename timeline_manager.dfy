/** The timeline screen (src/components/timeline/TimelineManager.tsx): the events newest
    first, the type filter over them, and the "Add Timeline Event" form. */
module TimelineManager {
  import opened Wrappers
  import opened Types
  import opened Seqs
  import opened Sorting
  import Text
  import UseStorage

  /** An event's date. Dates are the form's `YYYY-MM-DD` strings, whose text order is their
      order in time. */
  function EventDate(e: TimelineEvent): string {
    e.date
  }

  /** The comparator `new Date(b.date) - new Date(a.date)`: `a` may come first when it is
      not older than `b`. */
  predicate NewerOrSame(a: string, b: string) {
    Text.StrLe(b, a)
  }

  /** Newest-first is an order the sort can work with. */
  lemma NewestFirstIsOrder()
    ensures Total(NewerOrSame) && Transitive(NewerOrSame)
  {
    forall a, b
      ensures NewerOrSame(a, b) || NewerOrSame(b, a)
    {
      Text.StrLeTotal(a, b);
    }
    forall a, b, c | NewerOrSame(a, b) && NewerOrSame(b, c)
      ensures NewerOrSame(a, c)
    {
      Text.StrLeTransitive(c, b, a);
    }
  }

  /** `sortedEvents`: a copy of the events sorted by date, newest first. */
  function SortedEvents(events: seq<TimelineEvent>): seq<TimelineEvent> {
    SortBy(events, EventDate, NewerOrSame)
  }

  /** The sorted list holds the same events, each as often, and no event comes before a
      newer one. */
  lemma SortedEventsNewestFirst(events: seq<TimelineEvent>)
    ensures multiset(SortedEvents(events)) == multiset(events)
    ensures SortedBy(SortedEvents(events), EventDate, NewerOrSame)
  {
    SortByPermutation(events, EventDate, NewerOrSame);
    NewestFirstIsOrder();
    SortBySorted(events, EventDate, NewerOrSame);
  }

  /** Events on the same date keep the order they were added in. */
  lemma SortedEventsStable(events: seq<TimelineEvent>, date: string)
    ensures Filter(SortedEvents(events), (e: TimelineEvent) => EventDate(e) == date)
         == Filter(events, (e: TimelineEvent) => EventDate(e) == date)
  {
    NewestFirstIsOrder();
    SortByStable(events, EventDate, NewerOrSame, date, (e: TimelineEvent) => EventDate(e) == date);
  }

  /** The filter buttons, in screen order. */
  const FILTER_OPTIONS: seq<string> := ["all", "address", "employment", "trip", "tax", "legal"]

  /** `filteredEvents`: the sorted events, or those of one type. */
  function FilteredEvents(events: seq<TimelineEvent>, filter: string): seq<TimelineEvent> {
    if filter == "all" then SortedEvents(events)
    else Filter(SortedEvents(events), (e: TimelineEvent) => e.eventType == filter)
  }

  /** An event is listed as often as it was added when the filter is "all" or its type, and
      not at all otherwise. */
  lemma FilteredEventsCount(events: seq<TimelineEvent>, filter: string, e: TimelineEvent)
    ensures multiset(FilteredEvents(events, filter))[e]
         == if filter == "all" || e.eventType == filter then multiset(events)[e] else 0
  {
    SortedEventsNewestFirst(events);
    if filter != "all" {
      FilterCount(SortedEvents(events), (e: TimelineEvent) => e.eventType == filter, e);
    }
  }

  /** The filtered list is still newest first. */
  lemma FilteredEventsNewestFirst(events: seq<TimelineEvent>, filter: string)
    ensures SortedBy(FilteredEvents(events, filter), EventDate, NewerOrSame)
  {
    SortedEventsNewestFirst(events);
    if filter != "all" {
      FilterKeepsSorted(SortedEvents(events), EventDate, NewerOrSame, (e: TimelineEvent) => e.eventType == filter);
    }
  }

  /** Filtering by a type keeps the sorted order of what it keeps: it is the sorted list with
      the other types' events taken out. */
  lemma FilteredEventsKeepOrder(events: seq<TimelineEvent>, filter: string)
    requires filter != "all"
    ensures FilteredEvents(events, filter)
         == Filter(SortedEvents(events), (e: TimelineEvent) => e.eventType == filter)
    ensures forall e :: e in FilteredEvents(events, filter) ==> e.eventType == filter
  {
    forall e | e in FilteredEvents(events, filter)
      ensures e.eventType == filter
    {
      FilterMembers(SortedEvents(events), (e: TimelineEvent) => e.eventType == filter, e);
    }
  }

  /** The modal's fields, all text; `type` is an event category id. */
  datatype NewEventForm = NewEventForm(
    date: string,
    endDate: string,
    eventType: string,
    title: string,
    desc: string,
    evidenceRef: string,
    evidenceLink: string)

  /** An empty form with the type preset to "address". */
  const INITIAL_FORM := NewEventForm("", "", "address", "", "", "", "")

  /** `{...newEvent, id}`: every form field carried over, the empty ones included, with the
      new id; no linked documents. */
  function FormEvent(form: NewEventForm, id: string): (e: TimelineEvent)
    ensures EventKey(e) == id && e.linkedDocIds.None?
    ensures e.endDate.Some? && e.desc.Some? && e.evidenceLink.Some? && e.evidenceRef.Some?
  {
    TimelineEvent(id, form.date, Some(form.endDate), form.eventType, form.title,
                  Some(form.desc), None, Some(form.evidenceLink), Some(form.evidenceRef))
  }

  /** The form an event was made from, read back from it. */
  function FormOf(e: TimelineEvent): NewEventForm {
    NewEventForm(e.date, e.endDate.GetOr(""), e.eventType, e.title, e.desc.GetOr(""),
                 e.evidenceRef.GetOr(""), e.evidenceLink.GetOr(""))
  }

  /** Nothing typed into the form is lost in the event. */
  lemma FormEventKeepsForm(form: NewEventForm, id: string)
    ensures FormOf(FormEvent(form, id)) == form
  {
  }

  /** The inputs of the modal. There is none for the legacy `evidenceRef`. */
  datatype FormField = DateField | EndDateField | TypeField | TitleField | DescField | EvidenceLinkField

  /** An input's `onChange`: `{...newEvent, field: value}`. */
  function EditForm(form: NewEventForm, field: FormField, value: string): (r: NewEventForm)
    ensures r.evidenceRef == form.evidenceRef
  {
    match field
    case DateField => form.(date := value)
    case EndDateField => form.(endDate := value)
    case TypeField => form.(eventType := value)
    case TitleField => form.(title := value)
    case DescField => form.(desc := value)
    case EvidenceLinkField => form.(evidenceLink := value)
  }

  /** The screen's own state: the selected filter, the modal's visibility and its form. */
  class TimelineEditor {
    var filter: string
    var isAdding: bool
    var form: NewEventForm

    /** The filter is one of the buttons, and no input ever fills the legacy `evidenceRef`. */
    predicate Valid()
      reads this
    {
      filter in FILTER_OPTIONS && form.evidenceRef == ""
    }

    /** The list on screen. */
    function Visible(events: seq<TimelineEvent>): seq<TimelineEvent>
      reads this
    {
      FilteredEvents(events, filter)
    }

    /** "all" selected, the modal closed and the form empty. */
    constructor()
      ensures Valid() && filter == "all" && !isAdding && form == INITIAL_FORM
    {
      filter := "all";
      isAdding := false;
      form := INITIAL_FORM;
    }

    /** A filter button. */
    method SetFilter(f: string)
      requires Valid() && f in FILTER_OPTIONS
      modifies this
      ensures Valid() && filter == f && isAdding == old(isAdding) && form == old(form)
    {
      filter := f;
    }

    /** "Add Event" opens the modal on the form as it was left. */
    method Open()
      requires Valid()
      modifies this
      ensures Valid() && isAdding && filter == old(filter) && form == old(form)
    {
      isAdding := true;
    }

    /** Closing the modal keeps what was typed. */
    method Close()
      requires Valid()
      modifies this
      ensures Valid() && !isAdding && filter == old(filter) && form == old(form)
    {
      isAdding := false;
    }

    /** Typing into one input. */
    method Edit(field: FormField, value: string)
      requires Valid()
      modifies this
      ensures Valid() && form == EditForm(old(form), field, value)
      ensures filter == old(filter) && isAdding == old(isAdding)
    {
      form := EditForm(form, field, value);
    }

    /** `handleSubmit`: hand the form, with the new id, to the hook's `addEvent` once, then
        close the modal and empty the form whatever the store answered. */
    method HandleSubmit(hook: UseStorage.StorageHook, id: string) returns (event: TimelineEvent)
      requires Valid() && hook.Valid()
      requires form.date != "" && form.title != ""
      modifies this, hook, hook.store
      ensures event == FormEvent(old(form), id) && event.evidenceRef == Some("")
      ensures hook.Valid()
      ensures hook.Cached() == if hook.store.available then old(hook.Cached()).(events := old(hook.events) + [event]) else old(hook.Cached())
      ensures hook.store.State() == if hook.store.available then old(hook.store.State()).(events := old(hook.store.State()).events[id := event]) else old(hook.store.State())
      ensures hook.isLoading == old(hook.isLoading) && hook.error == old(hook.error)
      ensures old(hook.Mirrors()) ==> hook.Mirrors()
      ensures Valid() && !isAdding && form == INITIAL_FORM && filter == old(filter)
    {
      event := FormEvent(form, id);
      var _ := hook.AddEvent(event);
      isAdding := false;
      form := INITIAL_FORM;
    }
  }
}
