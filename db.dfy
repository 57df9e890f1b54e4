/** The local record store (src/lib/storage/db.ts): six object stores, each keyed by its
    records' `id` except `settings`, which holds one profile under the key "user". */
module Db {
  import opened Wrappers
  import opened Types
  import opened Seqs

  /** A mastery record; the application only ever stores `mastered: true`. */
  datatype MasteryRecord = MasteryRecord(id: int, mastered: bool)

  /** A note record; the application only ever stores non-empty content. */
  datatype NoteRecord = NoteRecord(id: string, content: string)

  function MasteryKey(r: MasteryRecord): int { r.id }
  function NoteKey(r: NoteRecord): string { r.id }

  /** The single key of the settings store. */
  const SETTINGS_KEY := "user"

  /** The outcome of a store request: its value, or the rejection a broken or blocked
      database gives every request. */
  datatype Reply<T> = Done(value: T) | StorageUnavailable

  function Ack(ok: bool): Reply<()> {
    if ok then Done(()) else StorageUnavailable
  }

  /** The contents of the six object stores. */
  datatype StoreState = StoreState(
    events: map<string, TimelineEvent>,
    questions: map<int, CivicsQuestion>,
    documents: map<string, Document>,
    mastery: map<int, MasteryRecord>,
    notes: map<string, NoteRecord>,
    settings: map<string, UserSettings>)

  const EMPTY_STATE := StoreState(map[], map[], map[], map[], map[], map[])

  /** What every write of the application keeps: records sit under their own id (the
      `keyPath`), no mastery record says `false`, no note is empty, and settings live
      under "user" only. */
  predicate ValidState(st: StoreState) {
    && KeyedByOwnKey(st.events, EventKey)
    && KeyedByOwnKey(st.questions, QuestionKey)
    && KeyedByOwnKey(st.documents, DocumentKey)
    && KeyedByOwnKey(st.mastery, MasteryKey)
    && KeyedByOwnKey(st.notes, NoteKey)
    && (forall id :: id in st.mastery ==> st.mastery[id].mastered)
    && (forall k :: k in st.notes ==> st.notes[k].content != "")
    && st.settings.Keys <= {SETTINGS_KEY}
  }

  /** The mastery records `saveAllMastery` puts for a mastery map: one per truthy entry. */
  function MasteryRecords(m: MasteryStore): map<int, MasteryRecord> {
    map id | id in m && m[id] :: MasteryRecord(id, true)
  }

  /** The note records `saveAllNotes` puts for a notes map: one per non-empty entry. */
  function NoteRecords(n: NotesStore): map<string, NoteRecord> {
    map k | k in n && n[k] != "" :: NoteRecord(k, n[k])
  }

  /** `getMastery`'s `reduce`: every record with `mastered` set contributes its id. */
  function MasteredIds(records: seq<MasteryRecord>): (r: MasteryStore)
    ensures r.Keys <= Keys(records, MasteryKey)
    ensures forall id :: id in r ==> r[id]
  {
    if records == [] then map[]
    else
      var last := records[|records| - 1];
      var acc := MasteredIds(records[..|records| - 1]);
      if last.mastered then acc[last.id := true] else acc
  }

  /** `getNotes`'s `reduce`: every record with non-empty content contributes it. */
  function NonEmptyNotes(records: seq<NoteRecord>): (r: NotesStore)
    ensures r.Keys <= Keys(records, NoteKey)
    ensures forall k :: k in r ==> r[k] != ""
  {
    if records == [] then map[]
    else
      var last := records[|records| - 1];
      var acc := NonEmptyNotes(records[..|records| - 1]);
      if last.content != "" then acc[last.id := last.content] else acc
  }

  /** Over the records of a store (distinct ids), the fold yields exactly the mastered ids. */
  lemma {:induction false} MasteredIdsOfRecords(records: seq<MasteryRecord>)
    requires DistinctKeys(records, MasteryKey)
    ensures forall id :: id in MasteredIds(records) <==>
      id in KeyedBy(records, MasteryKey) && KeyedBy(records, MasteryKey)[id].mastered
  {
    if records != [] {
      var init := records[..|records| - 1];
      var last := records[|records| - 1];
      assert records == init + [last];
      assert DistinctKeys(init, MasteryKey);
      MasteredIdsOfRecords(init);
      if last.id in MasteredIds(init) {
        var i := KeysWitness(init, MasteryKey, last.id);
      }
    }
  }

  /** Over the records of a store (distinct ids), the fold yields exactly the non-empty notes. */
  lemma {:induction false} NonEmptyNotesOfRecords(records: seq<NoteRecord>)
    requires DistinctKeys(records, NoteKey)
    ensures forall k :: k in NonEmptyNotes(records) <==>
      k in KeyedBy(records, NoteKey) && KeyedBy(records, NoteKey)[k].content != ""
    ensures forall k :: k in NonEmptyNotes(records) ==> NonEmptyNotes(records)[k] == KeyedBy(records, NoteKey)[k].content
  {
    if records != [] {
      var init := records[..|records| - 1];
      var last := records[|records| - 1];
      assert records == init + [last];
      assert DistinctKeys(init, NoteKey);
      NonEmptyNotesOfRecords(init);
      if last.id in NonEmptyNotes(init) {
        var i := KeysWitness(init, NoteKey, last.id);
      }
    }
  }

  /** `getAll`: the records of a store, each once. Their order is the database's key
      order, which the model leaves open. */
  method Enumerate<K, V>(m: map<K, V>, key: V -> K) returns (r: seq<V>)
    requires KeyedByOwnKey(m, key)
    ensures DistinctKeys(r, key)
    ensures KeyedBy(r, key) == m
  {
    r := [];
    var rest := m.Keys;
    while rest != {}
      invariant rest <= m.Keys
      invariant DistinctKeys(r, key)
      invariant KeyedBy(r, key) == map k | k in m && k !in rest :: m[k]
      decreases rest
    {
      var k :| k in rest;
      forall i | 0 <= i < |r|
        ensures key(r[i]) != k
      {
        KeysAt(r, key, i);
      }
      KeyedByAppend(r, m[k], key);
      r := r + [m[k]];
      rest := rest - {k};
    }
  }

  /** Whichever entry `Object.entries` visits next. */
  method PickKey<K>(keys: set<K>) returns (k: K)
    requires keys != {}
    ensures k in keys
  {
    k :| k in keys;
  }

  class Store {
    var events: map<string, TimelineEvent>
    var questions: map<int, CivicsQuestion>
    var documents: map<string, Document>
    var mastery: map<int, MasteryRecord>
    var notes: map<string, NoteRecord>
    var settings: map<string, UserSettings>
    /** Whether the database accepts requests; when it does not, every request is rejected
        and changes nothing. */
    const available: bool

    function State(): StoreState
      reads this
    {
      StoreState(events, questions, documents, mastery, notes, settings)
    }

    predicate Valid()
      reads this
    {
      ValidState(State())
    }

    /** A freshly created database: six empty object stores. */
    constructor(available: bool)
      ensures State() == EMPTY_STATE && this.available == available
      ensures Valid()
    {
      events, questions, documents := map[], map[], map[];
      mastery, notes, settings := map[], map[], map[];
      this.available := available;
    }

    // ---- events ----

    method GetAllEvents() returns (r: Reply<seq<TimelineEvent>>)
      requires Valid()
      ensures !available ==> r == StorageUnavailable
      ensures available ==> r.Done? && DistinctKeys(r.value, EventKey) && KeyedBy(r.value, EventKey) == events
    {
      if !available {
        return StorageUnavailable;
      }
      var all := Enumerate(events, EventKey);
      return Done(all);
    }

    method SaveEvent(e: TimelineEvent) returns (r: Reply<()>)
      requires Valid()
      modifies this
      ensures Valid() && r == Ack(available)
      ensures State() == if available then old(State()).(events := old(events)[e.id := e]) else old(State())
    {
      if !available {
        return StorageUnavailable;
      }
      events := events[e.id := e];
      return Done(());
    }

    /** Deleting an id that is absent is a successful request that changes nothing. */
    method DeleteEvent(id: string) returns (r: Reply<()>)
      requires Valid()
      modifies this
      ensures Valid() && r == Ack(available)
      ensures State() == if available then old(State()).(events := old(events) - {id}) else old(State())
      ensures id !in old(events) ==> State() == old(State())
    {
      if !available {
        return StorageUnavailable;
      }
      events := events - {id};
      return Done(());
    }

    /** One read-write transaction: clear the store, then put each record in turn, so a
        later record with the same id replaces an earlier one. */
    method SaveAllEvents(s: seq<TimelineEvent>) returns (r: Reply<()>)
      requires Valid()
      modifies this
      ensures Valid() && r == Ack(available)
      ensures State() == if available then old(State()).(events := KeyedBy(s, EventKey)) else old(State())
    {
      if !available {
        return StorageUnavailable;
      }
      events := map[];
      for i := 0 to |s|
        invariant events == KeyedBy(s[..i], EventKey)
        invariant State() == old(State()).(events := events)
      {
        assert s[..i + 1] == s[..i] + [s[i]];
        KeyedByAppend(s[..i], s[i], EventKey);
        events := events[s[i].id := s[i]];
      }
      assert s[..|s|] == s;
      return Done(());
    }

    // ---- questions ----

    method GetAllQuestions() returns (r: Reply<seq<CivicsQuestion>>)
      requires Valid()
      ensures !available ==> r == StorageUnavailable
      ensures available ==> r.Done? && DistinctKeys(r.value, QuestionKey) && KeyedBy(r.value, QuestionKey) == questions
    {
      if !available {
        return StorageUnavailable;
      }
      var all := Enumerate(questions, QuestionKey);
      return Done(all);
    }

    method SaveAllQuestions(s: seq<CivicsQuestion>) returns (r: Reply<()>)
      requires Valid()
      modifies this
      ensures Valid() && r == Ack(available)
      ensures State() == if available then old(State()).(questions := KeyedBy(s, QuestionKey)) else old(State())
    {
      if !available {
        return StorageUnavailable;
      }
      questions := map[];
      for i := 0 to |s|
        invariant questions == KeyedBy(s[..i], QuestionKey)
        invariant State() == old(State()).(questions := questions)
      {
        assert s[..i + 1] == s[..i] + [s[i]];
        KeyedByAppend(s[..i], s[i], QuestionKey);
        questions := questions[s[i].id := s[i]];
      }
      assert s[..|s|] == s;
      return Done(());
    }

    // ---- documents ----

    method GetAllDocuments() returns (r: Reply<seq<Document>>)
      requires Valid()
      ensures !available ==> r == StorageUnavailable
      ensures available ==> r.Done? && DistinctKeys(r.value, DocumentKey) && KeyedBy(r.value, DocumentKey) == documents
    {
      if !available {
        return StorageUnavailable;
      }
      var all := Enumerate(documents, DocumentKey);
      return Done(all);
    }

    method SaveDocument(d: Document) returns (r: Reply<()>)
      requires Valid()
      modifies this
      ensures Valid() && r == Ack(available)
      ensures State() == if available then old(State()).(documents := old(documents)[d.id := d]) else old(State())
    {
      if !available {
        return StorageUnavailable;
      }
      documents := documents[d.id := d];
      return Done(());
    }

    method SaveAllDocuments(s: seq<Document>) returns (r: Reply<()>)
      requires Valid()
      modifies this
      ensures Valid() && r == Ack(available)
      ensures State() == if available then old(State()).(documents := KeyedBy(s, DocumentKey)) else old(State())
    {
      if !available {
        return StorageUnavailable;
      }
      documents := map[];
      for i := 0 to |s|
        invariant documents == KeyedBy(s[..i], DocumentKey)
        invariant State() == old(State()).(documents := documents)
      {
        assert s[..i + 1] == s[..i] + [s[i]];
        KeyedByAppend(s[..i], s[i], DocumentKey);
        documents := documents[s[i].id := s[i]];
      }
      assert s[..|s|] == s;
      return Done(());
    }

    // ---- mastery ----

    /** Exactly the ids of the stored records that say `mastered`, each mapped to true. */
    method GetMastery() returns (r: Reply<MasteryStore>)
      requires Valid()
      ensures !available ==> r == StorageUnavailable
      ensures available ==> r.Done?
      ensures available ==> forall id :: id in r.value <==> id in mastery && mastery[id].mastered
      ensures available ==> forall id :: id in r.value ==> r.value[id]
      ensures available ==> r.value == MasteryView(State())
    {
      if !available {
        return StorageUnavailable;
      }
      var records := Enumerate(mastery, MasteryKey);
      MasteredIdsOfRecords(records);
      var m := MasteredIds(records);
      assert m == MasteryView(State());
      return Done(m);
    }

    /** `true` upserts the record, `false` deletes it: a `false` record is never stored. */
    method SetMastery(questionId: int, mastered: bool) returns (r: Reply<()>)
      requires Valid()
      modifies this
      ensures Valid() && r == Ack(available)
      ensures State() == if !available then old(State())
        else if mastered then old(State()).(mastery := old(mastery)[questionId := MasteryRecord(questionId, true)])
        else old(State()).(mastery := old(mastery) - {questionId})
    {
      if !available {
        return StorageUnavailable;
      }
      if mastered {
        mastery := mastery[questionId := MasteryRecord(questionId, true)];
      } else {
        mastery := mastery - {questionId};
      }
      return Done(());
    }

    /** Clear, then put a record for each truthy entry of `m` (in the order of its entries). */
    method SaveAllMastery(m: MasteryStore) returns (r: Reply<()>)
      requires Valid()
      modifies this
      ensures Valid() && r == Ack(available)
      ensures State() == if available then old(State()).(mastery := MasteryRecords(m)) else old(State())
    {
      if !available {
        return StorageUnavailable;
      }
      mastery := map[];
      var rest: set<int> := m.Keys;
      while rest != {}
        invariant rest <= m.Keys
        invariant mastery == map id | id in m.Keys - rest && m[id] :: MasteryRecord(id, true)
        invariant State() == old(State()).(mastery := mastery)
        decreases rest
      {
        var q := PickKey(rest);
        if m[q] {
          mastery := mastery[q := MasteryRecord(q, true)];
        }
        rest := rest - {q};
      }
      return Done(());
    }

    // ---- notes ----

    /** Exactly the stored notes, all of them non-empty. */
    method GetNotes() returns (r: Reply<NotesStore>)
      requires Valid()
      ensures !available ==> r == StorageUnavailable
      ensures available ==> r.Done? && r.value.Keys == notes.Keys
      ensures available ==> forall k :: k in r.value ==> r.value[k] == notes[k].content && r.value[k] != ""
      ensures available ==> r.value == NotesView(State())
    {
      if !available {
        return StorageUnavailable;
      }
      var records := Enumerate(notes, NoteKey);
      NonEmptyNotesOfRecords(records);
      var n := NonEmptyNotes(records);
      assert n == NotesView(State());
      return Done(n);
    }

    /** Non-empty content upserts the note, empty content deletes it. */
    method SetNote(id: string, content: string) returns (r: Reply<()>)
      requires Valid()
      modifies this
      ensures Valid() && r == Ack(available)
      ensures State() == if !available then old(State())
        else if content != "" then old(State()).(notes := old(notes)[id := NoteRecord(id, content)])
        else old(State()).(notes := old(notes) - {id})
    {
      if !available {
        return StorageUnavailable;
      }
      if content != "" {
        notes := notes[id := NoteRecord(id, content)];
      } else {
        notes := notes - {id};
      }
      return Done(());
    }

    /** Clear, then put a record for each non-empty entry of `n`. */
    method SaveAllNotes(n: NotesStore) returns (r: Reply<()>)
      requires Valid()
      modifies this
      ensures Valid() && r == Ack(available)
      ensures State() == if available then old(State()).(notes := NoteRecords(n)) else old(State())
    {
      if !available {
        return StorageUnavailable;
      }
      notes := map[];
      var rest := n.Keys;
      while rest != {}
        invariant rest <= n.Keys
        invariant notes == map k | k in n && k !in rest && n[k] != "" :: NoteRecord(k, n[k])
        invariant State() == old(State()).(notes := notes)
        decreases rest
      {
        var k := PickKey(rest);
        if n[k] != "" {
          notes := notes[k := NoteRecord(k, n[k])];
        }
        rest := rest - {k};
      }
      return Done(());
    }

    // ---- settings ----

    method GetSettings() returns (r: Reply<Option<UserSettings>>)
      requires Valid()
      ensures !available ==> r == StorageUnavailable
      ensures available ==> r.Done? && r.value == StoredSettings(State())
    {
      if !available {
        return StorageUnavailable;
      }
      if SETTINGS_KEY in settings {
        return Done(Some(settings[SETTINGS_KEY]));
      }
      return Done(None);
    }

    method SaveSettings(s: UserSettings) returns (r: Reply<()>)
      requires Valid()
      modifies this
      ensures Valid() && r == Ack(available)
      ensures State() == if available then old(State()).(settings := old(settings)[SETTINGS_KEY := s]) else old(State())
      ensures available ==> StoredSettings(State()) == Some(s)
    {
      if !available {
        return StorageUnavailable;
      }
      settings := settings[SETTINGS_KEY := s];
      return Done(());
    }

    /** Six separate clears, one after another (they are not one transaction). */
    method ClearAllData() returns (r: Reply<()>)
      requires Valid()
      modifies this
      ensures Valid() && r == Ack(available)
      ensures State() == if available then EMPTY_STATE else old(State())
    {
      if !available {
        return StorageUnavailable;
      }
      events := map[];
      questions := map[];
      documents := map[];
      mastery := map[];
      notes := map[];
      settings := map[];
      return Done(());
    }
  }

  /** `getSettings`: the record under "user", if any. */
  function StoredSettings(st: StoreState): (r: Option<UserSettings>)
    ensures r.Some? <==> SETTINGS_KEY in st.settings
  {
    if SETTINGS_KEY in st.settings then Some(st.settings[SETTINGS_KEY]) else None
  }

  /** What `getMastery` yields for a state: the ids of the mastered records. */
  function MasteryView(st: StoreState): MasteryStore {
    map id | id in st.mastery && st.mastery[id].mastered :: true
  }

  /** What `getNotes` yields for a state: the non-empty note contents. */
  function NotesView(st: StoreState): NotesStore {
    map k | k in st.notes && st.notes[k].content != "" :: st.notes[k].content
  }

  /** Saving a mastery map then reading it back yields its truthy entries: `false` is never stored. */
  lemma SaveAllMasteryReadBack(st: StoreState, m: MasteryStore)
    ensures forall id :: id in MasteryView(st.(mastery := MasteryRecords(m))) <==> id in m && m[id]
  {
  }

  /** Saving a notes map then reading it back yields its non-empty entries. */
  lemma SaveAllNotesReadBack(st: StoreState, n: NotesStore)
    ensures NotesView(st.(notes := NoteRecords(n))) == map k | k in n && n[k] != "" :: n[k]
  {
  }

  /** The records of a valid store are what saving its mastery view would put. */
  lemma MasteryViewRecords(st: StoreState)
    requires ValidState(st)
    ensures MasteryRecords(MasteryView(st)) == st.mastery
  {
  }

  /** The records of a valid store are what saving its notes view would put. */
  lemma NotesViewRecords(st: StoreState)
    requires ValidState(st)
    ensures NoteRecords(NotesView(st)) == st.notes
  {
  }
}
