/** The printable timeline (src/components/timeline/TimelinePrintView.tsx): the events in a
    date range oldest first, their categories and linked documents, and the range heading. */
module TimelinePrintView {
  import opened Wrappers
  import opened Types
  import opened Seqs
  import opened Sorting
  import Text
  import TimelineManager

  /** `settings.eventCategories || DEFAULT_EVENT_CATEGORIES`: a configured list wins, even an
      empty one (an empty array is truthy). */
  function EventCategories(settings: UserSettings): seq<EventCategory> {
    settings.eventCategories.GetOr(DEFAULT_EVENT_CATEGORIES)
  }

  /** The category shown for a type id that no category has. */
  function FallbackCategory(typeId: string): EventCategory {
    EventCategory(typeId, typeId, "slate")
  }

  /** `getCategory`: the first configured category with the id, else the fallback. */
  function GetCategory(settings: UserSettings, typeId: string): (c: EventCategory)
    ensures c.id == typeId
    ensures c in EventCategories(settings) || c == FallbackCategory(typeId)
    ensures (forall j :: 0 <= j < |EventCategories(settings)| ==> EventCategories(settings)[j].id != typeId)
            <==> c == FallbackCategory(typeId) && FallbackCategory(typeId) !in EventCategories(settings)
    ensures forall j ::
              (0 <= j < |EventCategories(settings)| && EventCategories(settings)[j].id == typeId &&
               forall k :: 0 <= k < j ==> EventCategories(settings)[k].id != typeId) ==>
              c == EventCategories(settings)[j]
  {
    Find(EventCategories(settings), CategoryKey, typeId).GetOr(FallbackCategory(typeId))
  }

  /** Without configured categories the defaults are used: a "trip" reads "Travel". */
  lemma DefaultCategoryLabel(settings: UserSettings)
    requires settings.eventCategories.None?
    ensures GetCategory(settings, "trip") == EventCategory("trip", "Travel", "purple")
  {
    assert DEFAULT_EVENT_CATEGORIES[2].id == "trip";
    assert forall j :: 0 <= j < 2 ==> DEFAULT_EVENT_CATEGORIES[j].id != "trip";
  }

  /** A configured empty list has no categories at all: every type shows its fallback. */
  lemma EmptyCategoriesFallBack(settings: UserSettings, typeId: string)
    requires settings.eventCategories == Some([])
    ensures GetCategory(settings, typeId) == FallbackCategory(typeId)
  {
  }

  /** `getDocName`: the name of the first document with the id, or the id itself when there
      is none or its name is empty. */
  function GetDocName(docs: seq<Document>, docId: string): (r: string)
    ensures r == docId || exists d :: d in docs && d.id == docId && d.name == r && r != ""
    ensures (forall j :: 0 <= j < |docs| ==> docs[j].id != docId) ==> r == docId
    ensures forall j ::
              (0 <= j < |docs| && docs[j].id == docId && forall k :: 0 <= k < j ==> docs[k].id != docId) ==>
              r == if docs[j].name != "" then docs[j].name else docId
  {
    var doc := Find(docs, DocumentKey, docId);
    if doc.Some? && doc.value.name != "" then doc.value.name else docId
  }

  /** The "Documents" cell: the linked documents' names joined by ", ", or nothing. */
  function LinkedDocsText(e: TimelineEvent, docs: seq<Document>): (r: string)
    ensures e.linkedDocIds.None? || e.linkedDocIds == Some([]) ==> r == ""
  {
    if e.linkedDocIds.None? then ""
    else Join(MapSeq(e.linkedDocIds.value, (id: string) => GetDocName(docs, id)), ", ")
  }

  /** `Array.prototype.join`. */
  function Join(parts: seq<string>, sep: string): string {
    if parts == [] then ""
    else if |parts| == 1 then parts[0]
    else parts[0] + sep + Join(parts[1..], sep)
  }

  /** Joining one more part puts the separator before it. */
  lemma {:induction false} JoinSnoc(parts: seq<string>, x: string, sep: string)
    requires parts != []
    ensures Join(parts + [x], sep) == Join(parts, sep) + sep + x
  {
    if |parts| == 1 {
      assert (parts + [x])[1..] == [x];
    } else {
      assert (parts + [x])[1..] == parts[1..] + [x];
      JoinSnoc(parts[1..], x, sep);
    }
  }

  /** One linked document shows its name alone. */
  lemma LinkedDocsSingle(e: TimelineEvent, docs: seq<Document>, id: string)
    requires e.linkedDocIds == Some([id])
    ensures LinkedDocsText(e, docs) == GetDocName(docs, id)
  {
  }

  /** Linking one more document appends ", " and its name to the cell, so the cell lists the
      linked documents' names in order. */
  lemma LinkedDocsAppend(e: TimelineEvent, docs: seq<Document>, ids: seq<string>, id: string)
    requires e.linkedDocIds == Some(ids) && ids != []
    ensures LinkedDocsText(e.(linkedDocIds := Some(ids + [id])), docs) == LinkedDocsText(e, docs) + ", " + GetDocName(docs, id)
  {
    var f := (i: string) => GetDocName(docs, i);
    assert MapSeq(ids + [id], f) == MapSeq(ids, f) + [GetDocName(docs, id)];
    JoinSnoc(MapSeq(ids, f), GetDocName(docs, id), ", ");
  }

  /** The range filter: an empty bound is ignored, and an event is dropped when it lies before
      `from` or after `to`. */
  predicate InRange(date: string, from: string, to: string) {
    && !(from != "" && !Text.StrLe(from, date))
    && !(to != "" && !Text.StrLe(date, to))
  }

  /** An event in range lies between whichever bounds are set. */
  lemma InRangeBetween(date: string, from: string, to: string)
    ensures InRange(date, from, to) <==> (from == "" || Text.StrLe(from, date)) && (to == "" || Text.StrLe(date, to))
    ensures from != "" && from == to ==> (InRange(date, from, to) <==> date == from)
  {
    if from != "" && from == to && InRange(date, from, to) {
      Text.StrLeAntisymmetric(date, from);
    }
    if date == from {
      Text.StrLeReflexive(date);
    }
  }

  /** Oldest first: `a` may come first when its date is not later. */
  predicate OlderOrSame(a: string, b: string) {
    Text.StrLe(a, b)
  }

  lemma OldestFirstIsOrder()
    ensures Total(OlderOrSame) && Transitive(OlderOrSame)
  {
    forall a, b
      ensures OlderOrSame(a, b) || OlderOrSame(b, a)
    {
      Text.StrLeTotal(a, b);
    }
    forall a, b, c | OlderOrSame(a, b) && OlderOrSame(b, c)
      ensures OlderOrSame(a, c)
    {
      Text.StrLeTransitive(a, b, c);
    }
  }

  /** `filteredAndSortedEvents`: the events in range, oldest first. */
  function PrintEvents(events: seq<TimelineEvent>, from: string, to: string): seq<TimelineEvent> {
    SortBy(Filter(events, (e: TimelineEvent) => InRange(e.date, from, to)), TimelineManager.EventDate, OlderOrSame)
  }

  /** Each event in range is printed as often as it occurs, and no other event is printed. */
  lemma PrintEventsCount(events: seq<TimelineEvent>, from: string, to: string, e: TimelineEvent)
    ensures multiset(PrintEvents(events, from, to))[e] == if InRange(e.date, from, to) then multiset(events)[e] else 0
  {
    var kept := Filter(events, (e: TimelineEvent) => InRange(e.date, from, to));
    SortByPermutation(kept, TimelineManager.EventDate, OlderOrSame);
    FilterCount(events, (e: TimelineEvent) => InRange(e.date, from, to), e);
  }

  /** The printed events are oldest first. */
  lemma PrintEventsOldestFirst(events: seq<TimelineEvent>, from: string, to: string)
    ensures forall i, j :: 0 <= i < j < |PrintEvents(events, from, to)| ==>
              Text.StrLe(PrintEvents(events, from, to)[i].date, PrintEvents(events, from, to)[j].date)
  {
    OldestFirstIsOrder();
    SortBySorted(Filter(events, (e: TimelineEvent) => InRange(e.date, from, to)), TimelineManager.EventDate, OlderOrSame);
  }

  /** Events on one date keep the order they were added in. */
  lemma PrintEventsStable(events: seq<TimelineEvent>, from: string, to: string, date: string)
    ensures Filter(PrintEvents(events, from, to), (e: TimelineEvent) => e.date == date)
         == Filter(Filter(events, (e: TimelineEvent) => InRange(e.date, from, to)), (e: TimelineEvent) => e.date == date)
  {
    OldestFirstIsOrder();
    SortByStable(Filter(events, (e: TimelineEvent) => InRange(e.date, from, to)), TimelineManager.EventDate, OlderOrSame,
                 date, (e: TimelineEvent) => e.date == date);
  }

  /** Without bounds every event is printed. */
  lemma UnboundedPrintsAll(events: seq<TimelineEvent>)
    ensures multiset(PrintEvents(events, "", "")) == multiset(events)
  {
    FilterAll(events, (e: TimelineEvent) => InRange(e.date, "", ""));
    SortByPermutation(events, TimelineManager.EventDate, OlderOrSame);
  }

  /** `formatDateRange`: the heading naming the range. */
  function FormatDateRange(from: string, to: string): string {
    if from != "" && to != "" then from + " to " + to
    else if from != "" then "From " + from
    else if to != "" then "Until " + to
    else "All dates"
  }

  /** The heading reads "All dates" exactly when no bound is set, that is when every event
      is printed. */
  lemma AllDatesOnlyUnbounded(from: string, to: string)
    ensures FormatDateRange(from, to) == "All dates" <==> from == "" && to == ""
  {
    var r := FormatDateRange(from, to);
    if from != "" && to != "" {
      assert r[|from|] == ' ' && r[|from| + 1] == 't';
    } else if from != "" {
      assert r[0] == 'F';
    } else if to != "" {
      assert r[0] == 'U';
    }
  }

  /** The heading ends with the upper bound when one is set, and with the lower bound when
      only that one is. */
  lemma DateRangeNamesBounds(from: string, to: string)
    ensures to != "" ==> EndsWith(FormatDateRange(from, to), to)
    ensures from != "" && to == "" ==> EndsWith(FormatDateRange(from, to), from)
    ensures from != "" && to != "" ==> FormatDateRange(from, to)[..|from|] == from
  {
  }

  predicate EndsWith(s: string, suffix: string) {
    |suffix| <= |s| && s[|s| - |suffix|..] == suffix
  }

  /** `hasEvidence`: linked documents or an evidence link; the legacy `evidenceRef` does not count. */
  predicate HasEvidence(e: TimelineEvent) {
    || (e.linkedDocIds.Some? && |e.linkedDocIds.value| > 0)
    || (e.evidenceLink.Some? && e.evidenceLink.value != "")
  }

  /** The legacy reference never changes whether an event shows evidence. */
  lemma EvidenceIgnoresRef(e: TimelineEvent, ref: Option<string>)
    ensures HasEvidence(e.(evidenceRef := ref)) == HasEvidence(e)
  {
  }

  /** An event added through the timeline form shows evidence exactly when a link was typed. */
  lemma FormEventEvidence(form: TimelineManager.NewEventForm, id: string)
    ensures HasEvidence(TimelineManager.FormEvent(form, id)) <==> form.evidenceLink != ""
  {
  }
}
