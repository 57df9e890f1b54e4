/** The write-through cache of the `useStorage` hook (src/hooks/useStorage.ts): an in-memory
    copy of every collection, changed only after the awaited store write has returned. */
module UseStorage {
  import opened Wrappers
  import opened Types
  import opened Seqs
  import opened Db
  import DefaultDocuments

  /** The profile the cache shows before anything was saved. */
  const DEFAULT_SETTINGS := UserSettings("Applicant", Some(""), Some(""), Some(""), Some(""), None, None, None, None)

  const LOAD_ERROR := "Failed to load data. Using defaults."

  /** The six cached collections. */
  datatype Cache = Cache(
    events: seq<TimelineEvent>,
    questions: seq<CivicsQuestion>,
    docs: seq<Document>,
    mastery: MasteryStore,
    notes: NotesStore,
    settings: UserSettings)

  /** The cache before loading and after a reset: no events, the question bank, the seed
      checklist, no mastery, no notes, the default profile. */
  function DefaultCache(bank: seq<CivicsQuestion>, seeds: seq<Document>): Cache {
    Cache([], bank, seeds, map[], map[], DEFAULT_SETTINGS)
  }

  /** The cache shows what the store holds: each list keyed by id is the stored collection,
      the truthy mastery entries and the non-empty notes are the stored records, and the
      profile is the stored one or the default. */
  predicate Mirrored(st: StoreState, c: Cache) {
    && KeyedBy(c.events, EventKey) == st.events
    && KeyedBy(c.questions, QuestionKey) == st.questions
    && KeyedBy(c.docs, DocumentKey) == st.documents
    && MasteryRecords(c.mastery) == st.mastery
    && NoteRecords(c.notes) == st.notes
    && StoredSettings(st).GetOr(DEFAULT_SETTINGS) == c.settings
  }

  /** The store after first-load seeding: the bank and the seed checklist are written only
      into a collection that is empty. */
  function Seeded(st: StoreState, bank: seq<CivicsQuestion>, seeds: seq<Document>): StoreState {
    st.(questions := if st.questions == map[] then KeyedBy(bank, QuestionKey) else st.questions,
        documents := if st.documents == map[] then KeyedBy(seeds, DocumentKey) else st.documents)
  }

  /** Seeding a seeded store changes nothing, so loading twice never duplicates the seeds. */
  lemma SeededIdempotent(st: StoreState, bank: seq<CivicsQuestion>, seeds: seq<Document>)
    ensures Seeded(Seeded(st, bank, seeds), bank, seeds) == Seeded(st, bank, seeds)
  {
  }

  /** Seeding writes nothing into a collection that already holds records, and never
      touches events, mastery, notes or settings. */
  lemma SeededKeepsRecords(st: StoreState, bank: seq<CivicsQuestion>, seeds: seq<Document>)
    ensures st.questions != map[] ==> Seeded(st, bank, seeds).questions == st.questions
    ensures st.documents != map[] ==> Seeded(st, bank, seeds).documents == st.documents
    ensures Seeded(st, bank, seeds).(questions := st.questions, documents := st.documents) == st
  {
  }

  /** What the six reads of `loadData` yield. */
  datatype Loaded = Loaded(
    events: seq<TimelineEvent>,
    questions: seq<CivicsQuestion>,
    docs: seq<Document>,
    mastery: MasteryStore,
    notes: NotesStore,
    settings: Option<UserSettings>)

  /** The reads of a store: every list keyed by id is the stored collection, and the maps
      and the profile are what `getMastery`, `getNotes` and `getSettings` give. */
  predicate IsReadOf(l: Loaded, st: StoreState) {
    && KeyedBy(l.events, EventKey) == st.events
    && KeyedBy(l.questions, QuestionKey) == st.questions
    && KeyedBy(l.docs, DocumentKey) == st.documents
    && l.mastery == MasteryView(st)
    && l.notes == NotesView(st)
    && l.settings == StoredSettings(st)
  }

  /** The cache `loadData` sets from the six reads: the bank and the checklist stand in for
      empty lists, the default profile for a missing one. */
  function LoadedCache(l: Loaded, bank: seq<CivicsQuestion>, seeds: seq<Document>): Cache {
    Cache(l.events,
          if |l.questions| > 0 then l.questions else bank,
          if |l.docs| > 0 then l.docs else seeds,
          l.mastery,
          l.notes,
          l.settings.GetOr(DEFAULT_SETTINGS))
  }

  /** A cache loaded from `st`: the stored events; the stored questions, or the bank when
      there are none; the stored documents, or the checklist when there are none; the
      mastered ids, the non-empty notes, and the stored or the default profile. */
  predicate IsLoadOf(c: Cache, st: StoreState, bank: seq<CivicsQuestion>, seeds: seq<Document>) {
    && KeyedBy(c.events, EventKey) == st.events
    && (if st.questions == map[] then c.questions == bank else KeyedBy(c.questions, QuestionKey) == st.questions)
    && (if st.documents == map[] then c.docs == seeds else KeyedBy(c.docs, DocumentKey) == st.documents)
    && c.mastery == MasteryView(st)
    && c.notes == NotesView(st)
    && c.settings == StoredSettings(st).GetOr(DEFAULT_SETTINGS)
  }

  /** The cache built from the reads of a store is a load of that store. */
  lemma LoadedCacheIsLoad(l: Loaded, st: StoreState, bank: seq<CivicsQuestion>, seeds: seq<Document>)
    requires IsReadOf(l, st)
    ensures IsLoadOf(LoadedCache(l, bank, seeds), st, bank, seeds)
  {
    KeysEmpty(l.questions, QuestionKey);
    KeysEmpty(l.docs, DocumentKey);
  }

  /** After loading, the cache mirrors the seeded store. */
  lemma LoadMirrors(c: Cache, st: StoreState, bank: seq<CivicsQuestion>, seeds: seq<Document>)
    requires ValidState(st)
    requires IsLoadOf(c, st, bank, seeds)
    ensures Mirrored(Seeded(st, bank, seeds), c)
  {
    MasteryViewRecords(st);
    NotesViewRecords(st);
  }

  /** `addEvent` appends to the cache what the store puts: the mirror survives, even when
      the id was already cached (the keyed view takes the last record). */
  lemma AddEventMirrors(st: StoreState, c: Cache, e: TimelineEvent)
    requires Mirrored(st, c)
    ensures Mirrored(st.(events := st.events[e.id := e]), c.(events := c.events + [e]))
  {
    KeyedByAppend(c.events, e, EventKey);
  }

  /** `updateEvent` of a cached id replaces it in the cache as the store does. */
  lemma UpdateEventMirrors(st: StoreState, c: Cache, e: TimelineEvent)
    requires Mirrored(st, c)
    requires e.id in Keys(c.events, EventKey)
    ensures Mirrored(st.(events := st.events[e.id := e]), c.(events := ReplaceByKey(c.events, EventKey, e)))
  {
    KeyedByReplaceByKey(c.events, EventKey, e);
  }

  /** `updateEvent` of an id the cache lacks stores the record but leaves the cache as it
      was, so the two part: the store has the event, the cache does not show it. */
  lemma UpdateAbsentEventDiverges(st: StoreState, c: Cache, e: TimelineEvent)
    requires Mirrored(st, c)
    requires e.id !in Keys(c.events, EventKey)
    ensures ReplaceByKey(c.events, EventKey, e) == c.events
    ensures !Mirrored(st.(events := st.events[e.id := e]), c.(events := ReplaceByKey(c.events, EventKey, e)))
  {
    KeyedByReplaceAbsent(c.events, EventKey, e);
  }

  /** `deleteEvent` drops every cached event with the id, as the store drops the record. */
  lemma DeleteEventMirrors(st: StoreState, c: Cache, id: string)
    requires Mirrored(st, c)
    ensures Mirrored(st.(events := st.events - {id}), c.(events := RemoveKey(c.events, EventKey, id)))
  {
    KeyedByRemoveKey(c.events, EventKey, id);
  }

  /** `updateDocument` of a cached id replaces it in the cache as the store does. */
  lemma UpdateDocumentMirrors(st: StoreState, c: Cache, d: Document)
    requires Mirrored(st, c)
    requires d.id in Keys(c.docs, DocumentKey)
    ensures Mirrored(st.(documents := st.documents[d.id := d]), c.(docs := ReplaceByKey(c.docs, DocumentKey, d)))
  {
    KeyedByReplaceByKey(c.docs, DocumentKey, d);
  }

  /** `toggleMastery`'s cache update: mark the question when it was not mastered, otherwise
      drop its entry. */
  function Toggled(m: MasteryStore, id: int): (r: MasteryStore)
    ensures IsMastered(r, id) <==> !IsMastered(m, id)
    ensures id in r ==> r[id]
    ensures forall q :: q != id ==> (q in r <==> q in m)
    ensures forall q :: q != id && q in m ==> r[q] == m[q]
  {
    if IsMastered(m, id) then m - {id} else m[id := true]
  }

  /** A cache whose mastery map holds no `false` entry keeps none after a toggle. */
  lemma ToggledNeverFalse(m: MasteryStore, id: int)
    requires forall q :: q in m ==> m[q]
    ensures forall q :: q in Toggled(m, id) ==> Toggled(m, id)[q]
  {
  }

  /** Toggling twice restores the map, unless it held a `false` entry for the id (the first
      toggle turns that into `true`, the second drops it). */
  lemma ToggleTwice(m: MasteryStore, id: int)
    requires id in m ==> m[id]
    ensures Toggled(Toggled(m, id), id) == m
  {
    var r := Toggled(Toggled(m, id), id);
    assert forall q :: q in r <==> q in m;
  }

  /** `toggleMastery` changes the cache as `setMastery` changes the store. */
  lemma ToggleMasteryMirrors(st: StoreState, c: Cache, id: int)
    requires Mirrored(st, c)
    ensures var on := !IsMastered(c.mastery, id);
      Mirrored(st.(mastery := if on then st.mastery[id := MasteryRecord(id, true)] else st.mastery - {id}),
               c.(mastery := Toggled(c.mastery, id)))
  {
    var on := !IsMastered(c.mastery, id);
    var m := Toggled(c.mastery, id);
    assert MasteryRecords(m) == if on then MasteryRecords(c.mastery)[id := MasteryRecord(id, true)]
                                else MasteryRecords(c.mastery) - {id};
  }

  /** `updateNote`'s cache update: set the note, or drop it when the content is empty. */
  function NoteUpdated(n: NotesStore, id: string, content: string): (r: NotesStore)
    ensures content == "" ==> id !in r
    ensures content != "" ==> id in r && r[id] == content
    ensures forall k :: k != id ==> (k in r <==> k in n)
    ensures forall k :: k != id && k in n ==> r[k] == n[k]
  {
    if content != "" then n[id := content] else n - {id}
  }

  /** `updateNote` changes the cache as `setNote` changes the store. */
  lemma UpdateNoteMirrors(st: StoreState, c: Cache, id: string, content: string)
    requires Mirrored(st, c)
    ensures Mirrored(st.(notes := if content != "" then st.notes[id := NoteRecord(id, content)] else st.notes - {id}),
                     c.(notes := NoteUpdated(c.notes, id, content)))
  {
    var n := NoteUpdated(c.notes, id, content);
    assert NoteRecords(n) == if content != "" then NoteRecords(c.notes)[id := NoteRecord(id, content)]
                             else NoteRecords(c.notes) - {id};
  }

  /** `updateSettings` shows the profile the store now holds. */
  lemma UpdateSettingsMirrors(st: StoreState, c: Cache, s: UserSettings)
    requires Mirrored(st, c)
    ensures Mirrored(st.(settings := st.settings[SETTINGS_KEY := s]), c.(settings := s))
  {
  }

  /** After `resetAllData` the cache and the store agree: an empty store re-seeded with
      the bank and the checklist, and the default cache. */
  lemma ResetMirrors(bank: seq<CivicsQuestion>, seeds: seq<Document>)
    ensures Mirrored(EMPTY_STATE.(questions := KeyedBy(bank, QuestionKey), documents := KeyedBy(seeds, DocumentKey)),
                     DefaultCache(bank, seeds))
  {
  }

  /** The hook: the store it writes through, the question bank (`CIVICS_QUESTIONS`) and the
      seed checklist (`DEFAULT_DOCUMENTS`), the six cached collections, and the loading flag
      and error message. */
  class StorageHook {
    const store: Store
    const bank: seq<CivicsQuestion>
    const seeds: seq<Document>
    var events: seq<TimelineEvent>
    var questions: seq<CivicsQuestion>
    var docs: seq<Document>
    var mastery: MasteryStore
    var notes: NotesStore
    var settings: UserSettings
    var isLoading: bool
    var error: Option<string>

    function Cached(): Cache
      reads this
    {
      Cache(events, questions, docs, mastery, notes, settings)
    }

    predicate Valid()
      reads this, store
    {
      store.Valid()
    }

    /** The cache shows what the store holds. */
    predicate Mirrors()
      reads this, store
    {
      Mirrored(store.State(), Cached())
    }

    /** The hook on mount, before `loadData` has run: the default cache, loading. */
    constructor(store: Store, bank: seq<CivicsQuestion>)
      requires store.Valid()
      ensures this.store == store && this.bank == bank && seeds == DefaultDocuments.DEFAULT_DOCUMENTS && Valid()
      ensures Cached() == DefaultCache(bank, seeds)
      ensures isLoading && error == None
    {
      this.store := store;
      this.bank := bank;
      seeds := DefaultDocuments.DEFAULT_DOCUMENTS;
      events := [];
      questions := bank;
      docs := DefaultDocuments.DEFAULT_DOCUMENTS;
      mastery := map[];
      notes := map[];
      settings := DEFAULT_SETTINGS;
      isLoading := true;
      error := None;
    }

    /** The `Promise.all` of `loadData`: the six reads, which all succeed or all fail. */
    method ReadAll() returns (r: Reply<Loaded>)
      requires Valid()
      ensures !store.available ==> r == StorageUnavailable
      ensures store.available ==> r.Done? && IsReadOf(r.value, store.State())
    {
      var loadedEvents := store.GetAllEvents();
      var loadedQuestions := store.GetAllQuestions();
      var loadedDocs := store.GetAllDocuments();
      var loadedMastery := store.GetMastery();
      var loadedNotes := store.GetNotes();
      var loadedSettings := store.GetSettings();
      if !store.available {
        return StorageUnavailable;
      }
      return Done(Loaded(loadedEvents.value, loadedQuestions.value, loadedDocs.value,
                         loadedMastery.value, loadedNotes.value, loadedSettings.value));
    }

    /** The state setters of the hook, all six at once. */
    method Show(c: Cache)
      modifies this
      ensures Cached() == c
      ensures isLoading == old(isLoading) && error == old(error)
    {
      events, questions, docs := c.events, c.questions, c.docs;
      mastery, notes, settings := c.mastery, c.notes, c.settings;
    }

    /** The seeding step of `loadData`: write the bank and the checklist into the
        collections that were read empty. */
    method SeedEmpty(l: Loaded)
      requires Valid() && store.available && IsReadOf(l, store.State())
      modifies store
      ensures Valid()
      ensures store.State() == Seeded(old(store.State()), bank, seeds)
    {
      KeysEmpty(l.questions, QuestionKey);
      KeysEmpty(l.docs, DocumentKey);
      var w: Reply<()>;
      if |l.questions| == 0 {
        w := store.SaveAllQuestions(bank);
      }
      if |l.docs| == 0 {
        w := store.SaveAllDocuments(seeds);
      }
    }

    /** `loadData`: read all six collections, show them (the bank and the checklist standing
        in for empty ones) and seed the empty ones. A failed read keeps the cache and records
        the error; either way loading ends. */
    method LoadData()
      requires Valid()
      modifies this, store
      ensures Valid() && !isLoading
      ensures store.available ==> error == old(error)
      ensures store.available ==> IsLoadOf(Cached(), old(store.State()), bank, seeds)
      ensures store.available ==> store.State() == Seeded(old(store.State()), bank, seeds)
      ensures store.available ==> Mirrors()
      ensures !store.available ==> error == Some(LOAD_ERROR)
      ensures !store.available ==> Cached() == old(Cached()) && store.State() == old(store.State())
    {
      isLoading := true;
      ghost var st := store.State();
      var loaded := ReadAll();
      if loaded.StorageUnavailable? {
        error := Some(LOAD_ERROR);
        isLoading := false;
        return;
      }
      var l := loaded.value;
      var c := LoadedCache(l, bank, seeds);
      Show(c);
      LoadedCacheIsLoad(l, st, bank, seeds);
      LoadMirrors(c, st, bank, seeds);
      SeedEmpty(l);
      isLoading := false;
    }

    /** `addEvent`: put the event, then append it to the cache. */
    method AddEvent(e: TimelineEvent) returns (r: Reply<()>)
      requires Valid()
      modifies this, store
      ensures Valid() && r == Ack(store.available)
      ensures store.State() == if store.available then old(store.State()).(events := old(store.State()).events[e.id := e]) else old(store.State())
      ensures Cached() == if store.available then old(Cached()).(events := old(events) + [e]) else old(Cached())
      ensures isLoading == old(isLoading) && error == old(error)
      ensures old(Mirrors()) ==> Mirrors()
    {
      ghost var st, c := store.State(), Cached();
      r := store.SaveEvent(e);
      if r.StorageUnavailable? {
        return;
      }
      events := events + [e];
      if Mirrored(st, c) {
        AddEventMirrors(st, c, e);
      }
    }

    /** `updateEvent`: put the event, then replace every cached event with its id. */
    method UpdateEvent(e: TimelineEvent) returns (r: Reply<()>)
      requires Valid()
      modifies this, store
      ensures Valid() && r == Ack(store.available)
      ensures store.State() == if store.available then old(store.State()).(events := old(store.State()).events[e.id := e]) else old(store.State())
      ensures Cached() == if store.available then old(Cached()).(events := ReplaceByKey(old(events), EventKey, e)) else old(Cached())
      ensures isLoading == old(isLoading) && error == old(error)
      ensures old(Mirrors()) && e.id in Keys(old(events), EventKey) ==> Mirrors()
    {
      ghost var st, c := store.State(), Cached();
      r := store.SaveEvent(e);
      if r.StorageUnavailable? {
        return;
      }
      events := ReplaceByKey(events, EventKey, e);
      if Mirrored(st, c) && e.id in Keys(c.events, EventKey) {
        UpdateEventMirrors(st, c, e);
      }
    }

    /** `deleteEvent`: delete the record, then drop every cached event with the id. */
    method DeleteEvent(id: string) returns (r: Reply<()>)
      requires Valid()
      modifies this, store
      ensures Valid() && r == Ack(store.available)
      ensures store.State() == if store.available then old(store.State()).(events := old(store.State()).events - {id}) else old(store.State())
      ensures Cached() == if store.available then old(Cached()).(events := RemoveKey(old(events), EventKey, id)) else old(Cached())
      ensures isLoading == old(isLoading) && error == old(error)
      ensures old(Mirrors()) ==> Mirrors()
    {
      ghost var st, c := store.State(), Cached();
      r := store.DeleteEvent(id);
      if r.StorageUnavailable? {
        return;
      }
      events := RemoveKey(events, EventKey, id);
      if Mirrored(st, c) {
        DeleteEventMirrors(st, c, id);
      }
    }

    /** `setAllEvents`: replace the collection, then the cached list. */
    method SetAllEvents(s: seq<TimelineEvent>) returns (r: Reply<()>)
      requires Valid()
      modifies this, store
      ensures Valid() && r == Ack(store.available)
      ensures store.State() == if store.available then old(store.State()).(events := KeyedBy(s, EventKey)) else old(store.State())
      ensures Cached() == if store.available then old(Cached()).(events := s) else old(Cached())
      ensures isLoading == old(isLoading) && error == old(error)
      ensures old(Mirrors()) ==> Mirrors()
    {
      r := store.SaveAllEvents(s);
      if r.StorageUnavailable? {
        return;
      }
      events := s;
    }

    /** `updateDocument`: put the document, then replace every cached document with its id. */
    method UpdateDocument(d: Document) returns (r: Reply<()>)
      requires Valid()
      modifies this, store
      ensures Valid() && r == Ack(store.available)
      ensures store.State() == if store.available then old(store.State()).(documents := old(store.State()).documents[d.id := d]) else old(store.State())
      ensures Cached() == if store.available then old(Cached()).(docs := ReplaceByKey(old(docs), DocumentKey, d)) else old(Cached())
      ensures isLoading == old(isLoading) && error == old(error)
      ensures old(Mirrors()) && d.id in Keys(old(docs), DocumentKey) ==> Mirrors()
    {
      ghost var st, c := store.State(), Cached();
      r := store.SaveDocument(d);
      if r.StorageUnavailable? {
        return;
      }
      docs := ReplaceByKey(docs, DocumentKey, d);
      if Mirrored(st, c) && d.id in Keys(c.docs, DocumentKey) {
        UpdateDocumentMirrors(st, c, d);
      }
    }

    /** `setAllDocuments`: replace the collection, then the cached list. */
    method SetAllDocuments(s: seq<Document>) returns (r: Reply<()>)
      requires Valid()
      modifies this, store
      ensures Valid() && r == Ack(store.available)
      ensures store.State() == if store.available then old(store.State()).(documents := KeyedBy(s, DocumentKey)) else old(store.State())
      ensures Cached() == if store.available then old(Cached()).(docs := s) else old(Cached())
      ensures isLoading == old(isLoading) && error == old(error)
      ensures old(Mirrors()) ==> Mirrors()
    {
      r := store.SaveAllDocuments(s);
      if r.StorageUnavailable? {
        return;
      }
      docs := s;
    }

    /** `setAllQuestions`: replace the collection, then the cached list. */
    method SetAllQuestions(s: seq<CivicsQuestion>) returns (r: Reply<()>)
      requires Valid()
      modifies this, store
      ensures Valid() && r == Ack(store.available)
      ensures store.State() == if store.available then old(store.State()).(questions := KeyedBy(s, QuestionKey)) else old(store.State())
      ensures Cached() == if store.available then old(Cached()).(questions := s) else old(Cached())
      ensures isLoading == old(isLoading) && error == old(error)
      ensures old(Mirrors()) ==> Mirrors()
    {
      r := store.SaveAllQuestions(s);
      if r.StorageUnavailable? {
        return;
      }
      questions := s;
    }

    /** `toggleMastery`: store the flipped flag (a record for `true`, a delete for `false`),
        then flip the cache the same way. */
    method ToggleMastery(id: int) returns (r: Reply<()>)
      requires Valid()
      modifies this, store
      ensures Valid() && r == Ack(store.available)
      ensures var on := !IsMastered(old(mastery), id);
        store.State() == if !store.available then old(store.State())
          else if on then old(store.State()).(mastery := old(store.State()).mastery[id := MasteryRecord(id, true)])
          else old(store.State()).(mastery := old(store.State()).mastery - {id})
      ensures Cached() == if store.available then old(Cached()).(mastery := Toggled(old(mastery), id)) else old(Cached())
      ensures isLoading == old(isLoading) && error == old(error)
      ensures old(Mirrors()) ==> Mirrors()
    {
      ghost var st, c := store.State(), Cached();
      var newMastered := !IsMastered(mastery, id);
      r := store.SetMastery(id, newMastered);
      if r.StorageUnavailable? {
        return;
      }
      mastery := Toggled(mastery, id);
      if Mirrored(st, c) {
        ToggleMasteryMirrors(st, c, id);
      }
    }

    /** `setAllMastery`: replace the collection (truthy entries only), then the cached map,
        which keeps the `false` entries the store drops. */
    method SetAllMastery(m: MasteryStore) returns (r: Reply<()>)
      requires Valid()
      modifies this, store
      ensures Valid() && r == Ack(store.available)
      ensures store.State() == if store.available then old(store.State()).(mastery := MasteryRecords(m)) else old(store.State())
      ensures Cached() == if store.available then old(Cached()).(mastery := m) else old(Cached())
      ensures isLoading == old(isLoading) && error == old(error)
      ensures old(Mirrors()) ==> Mirrors()
    {
      r := store.SaveAllMastery(m);
      if r.StorageUnavailable? {
        return;
      }
      mastery := m;
    }

    /** `updateNote`: store the note (a delete for empty content), then the cache likewise. */
    method UpdateNote(id: string, content: string) returns (r: Reply<()>)
      requires Valid()
      modifies this, store
      ensures Valid() && r == Ack(store.available)
      ensures store.State() == if !store.available then old(store.State())
        else if content != "" then old(store.State()).(notes := old(store.State()).notes[id := NoteRecord(id, content)])
        else old(store.State()).(notes := old(store.State()).notes - {id})
      ensures Cached() == if store.available then old(Cached()).(notes := NoteUpdated(old(notes), id, content)) else old(Cached())
      ensures isLoading == old(isLoading) && error == old(error)
      ensures old(Mirrors()) ==> Mirrors()
    {
      ghost var st, c := store.State(), Cached();
      r := store.SetNote(id, content);
      if r.StorageUnavailable? {
        return;
      }
      notes := NoteUpdated(notes, id, content);
      if Mirrored(st, c) {
        UpdateNoteMirrors(st, c, id, content);
      }
    }

    /** `setAllNotes`: replace the collection (non-empty notes only), then the cached map. */
    method SetAllNotes(n: NotesStore) returns (r: Reply<()>)
      requires Valid()
      modifies this, store
      ensures Valid() && r == Ack(store.available)
      ensures store.State() == if store.available then old(store.State()).(notes := NoteRecords(n)) else old(store.State())
      ensures Cached() == if store.available then old(Cached()).(notes := n) else old(Cached())
      ensures isLoading == old(isLoading) && error == old(error)
      ensures old(Mirrors()) ==> Mirrors()
    {
      r := store.SaveAllNotes(n);
      if r.StorageUnavailable? {
        return;
      }
      notes := n;
    }

    /** `updateSettings`: store the profile under "user", then show it. */
    method UpdateSettings(s: UserSettings) returns (r: Reply<()>)
      requires Valid()
      modifies this, store
      ensures Valid() && r == Ack(store.available)
      ensures store.State() == if store.available then old(store.State()).(settings := old(store.State()).settings[SETTINGS_KEY := s]) else old(store.State())
      ensures Cached() == if store.available then old(Cached()).(settings := s) else old(Cached())
      ensures isLoading == old(isLoading) && error == old(error)
      ensures old(Mirrors()) ==> Mirrors()
    {
      r := store.SaveSettings(s);
      if r.StorageUnavailable? {
        return;
      }
      settings := s;
    }

    /** `resetAllData`: clear the store, show the default cache, then store the bank and the
        checklist again. Events, mastery, notes and the profile stay empty in the store. */
    method ResetAllData() returns (r: Reply<()>)
      requires Valid()
      modifies this, store
      ensures Valid() && r == Ack(store.available)
      ensures store.State() == if store.available
        then EMPTY_STATE.(questions := KeyedBy(bank, QuestionKey), documents := KeyedBy(seeds, DocumentKey))
        else old(store.State())
      ensures Cached() == if store.available then DefaultCache(bank, seeds) else old(Cached())
      ensures isLoading == old(isLoading) && error == old(error)
      ensures store.available ==> Mirrors()
    {
      r := store.ClearAllData();
      if r.StorageUnavailable? {
        return;
      }
      Show(DefaultCache(bank, seeds));
      var w := store.SaveAllQuestions(bank);
      w := store.SaveAllDocuments(seeds);
      ResetMirrors(bank, seeds);
    }
  }
}
