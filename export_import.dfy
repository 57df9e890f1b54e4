/** Backup export and best-effort import (src/lib/storage/export-import.ts). The import
    reads an already-parsed JSON value; each data kind independently either replaces its
    collection with what validates or leaves it untouched. */
module ExportImport {
  import opened Wrappers
  import opened Types
  import opened Json
  import opened Codec
  import opened Seqs
  import opened Db
  import Text
  import DefaultDocuments

  const APP_VERSION := "0.1.0"

  /** `typeof v[key] === 'string'`. */
  predicate HasString(v: Json, key: string) {
    Field(v, key).Some? && Field(v, key).value.JStr?
  }

  /** `!!v && typeof v === 'object'` and the four string fields an event needs. */
  predicate IsValidEvent(v: Json) {
    IsObjectLike(v) && HasString(v, "id") && HasString(v, "date") && HasString(v, "type") && HasString(v, "title")
  }

  /** A numeric id and string question, answer and section. */
  predicate IsValidQuestion(v: Json) {
    && IsObjectLike(v) && Field(v, "id").Some? && Field(v, "id").value.JNum?
    && HasString(v, "q") && HasString(v, "a") && HasString(v, "section")
  }

  /** String id, name and status and a boolean `required`. */
  predicate IsValidDocument(v: Json) {
    && IsObjectLike(v) && HasString(v, "id") && HasString(v, "name") && HasString(v, "status")
    && Field(v, "required").Some? && Field(v, "required").value.JBool?
  }

  /** An object with a string name. */
  predicate IsValidSettings(v: Json) {
    IsObjectLike(v) && HasString(v, "name")
  }

  /** Every record the application writes passes its validator. */
  lemma EncodedRecordsValid(e: TimelineEvent, q: CivicsQuestion, d: Document, s: UserSettings)
    ensures IsValidEvent(EncodeEvent(e))
    ensures IsValidQuestion(EncodeQuestion(q))
    ensures IsValidDocument(EncodeDocument(d))
    ensures IsValidSettings(EncodeSettings(s))
  {
    EventFieldOf(e, "id");
    EventFieldOf(e, "date");
    EventFieldOf(e, "type");
    EventFieldOf(e, "title");
    DocumentFieldOf(d, "id");
    DocumentFieldOf(d, "name");
    DocumentFieldOf(d, "status");
    DocumentFieldOf(d, "required");
    SettingsFieldOf(s, "name");
  }

  /** Every seed document passes `isValidDocument`. */
  lemma DefaultDocumentsValid()
    ensures forall i :: 0 <= i < |DefaultDocuments.DEFAULT_DOCUMENTS| ==>
      IsValidDocument(EncodeDocument(DefaultDocuments.DEFAULT_DOCUMENTS[i]))
  {
    forall i | 0 <= i < |DefaultDocuments.DEFAULT_DOCUMENTS|
      ensures IsValidDocument(EncodeDocument(DefaultDocuments.DEFAULT_DOCUMENTS[i]))
    {
      EncodedRecordsValid(EMPTY_EVENT, EMPTY_QUESTION, DefaultDocuments.DEFAULT_DOCUMENTS[i], NamedSettings(""));
    }
  }

  /** The four fields an event must have. */
  function MinimalEvent(id: string, date: string, eventType: string, title: string): Json {
    JObj(map["id" := JStr(id), "date" := JStr(date), "type" := JStr(eventType), "title" := JStr(title)])
  }

  /** An event needs exactly id, date, type and title: with those four it validates and
      reads back with every optional field absent, and without any one of them it does not
      validate. */
  lemma EventRequiredFields(id: string, date: string, eventType: string, title: string)
    ensures IsValidEvent(MinimalEvent(id, date, eventType, title))
    ensures DecodeEvent(MinimalEvent(id, date, eventType, title))
         == TimelineEvent(id, date, None, eventType, title, None, None, None, None)
    ensures !IsValidEvent(JObj(MinimalEvent(id, date, eventType, title).fields - {"id"}))
    ensures !IsValidEvent(JObj(MinimalEvent(id, date, eventType, title).fields - {"date"}))
    ensures !IsValidEvent(JObj(MinimalEvent(id, date, eventType, title).fields - {"type"}))
    ensures !IsValidEvent(JObj(MinimalEvent(id, date, eventType, title).fields - {"title"}))
  {
  }

  /** The import check asks a document for id, name, status and `required` only: one
      without `meta` is accepted, and reads back with an empty `meta`. */
  lemma DocumentWithoutMeta(id: string, name: string, status: string, required: bool)
    ensures var v := JObj(map["id" := JStr(id), "name" := JStr(name), "status" := JStr(status), "required" := JBool(required)]);
            && IsValidDocument(v)
            && DecodeDocument(v) == Document(id, name, status, required, None, EMPTY_META, None, None, None)
  {
  }

  const EMPTY_EVENT := TimelineEvent("", "", None, "", "", None, None, None, None)
  const EMPTY_QUESTION := CivicsQuestion(0, "", "", "")

  // ---- what an import writes ----

  /** The writes one import performs, kind by kind; `None` leaves that collection untouched. */
  datatype ImportPlan = ImportPlan(
    events: Option<seq<TimelineEvent>>,
    questions: Option<seq<CivicsQuestion>>,
    docs: Option<seq<Document>>,
    mastery: Option<MasteryStore>,
    notes: Option<NotesStore>,
    settings: Option<UserSettings>)

  /** `data[key]` when it is an array holding at least one element that validates: those
      elements, in their order. */
  function ValidElements(data: Json, key: string, valid: Json -> bool): (r: Option<seq<Json>>)
    ensures r.Some? <==>
      (Field(data, key).Some? && Field(data, key).value.JArr? &&
       exists i :: 0 <= i < |Field(data, key).value.items| && valid(Field(data, key).value.items[i]))
    ensures r.Some? ==> r.value == Filter(Field(data, key).value.items, valid)
  {
    match Field(data, key)
    case Some(JArr(items)) =>
      var kept := Filter(items, valid);
      if |kept| > 0 then
        FilterMembers(items, valid, kept[0]);
        Some(kept)
      else
        assert forall i :: 0 <= i < |items| && valid(items[i]) ==> false by {
          forall i | 0 <= i < |items| && valid(items[i]) ensures false {
            FilterMembers(items, valid, items[i]);
          }
        }
        None
    case _ => None
  }

  /** `data[key]` when it passes the container test `!!x && typeof x === 'object'`. */
  function Container(data: Json, key: string): (r: Option<map<string, Json>>)
    ensures r.Some? <==> Field(data, key).Some? && IsObjectLike(Field(data, key).value)
  {
    var f := Field(data, key);
    if f.Some? && IsObjectLike(f.value) then Some(Entries(f.value)) else None
  }

  /** The keys among `keys` that hold exactly `true` and read as a number, as numbers. */
  function MasteredKeys(entries: map<string, Json>, keys: set<string>): set<int> {
    set k | k in keys && k in entries && Text.ParseNumber(k).Some? && entries[k] == JBool(true) :: Text.ParseNumber(k).value
  }

  /** The mastery map the import loop builds from the entries under `keys`. */
  function MasteryFrom(entries: map<string, Json>, keys: set<string>): MasteryStore {
    map n | n in MasteredKeys(entries, keys) :: true
  }

  /** The notes map the import loop builds from the entries under `keys`: string values only. */
  function NotesFrom(entries: map<string, Json>, keys: set<string>): NotesStore {
    map k | k in keys && k in entries && entries[k].JStr? :: entries[k].s
  }

  /** The settings write: an object with a string name. */
  function SettingsFrom(data: Json): Option<UserSettings> {
    var f := Field(data, "settings");
    if f.Some? && IsValidSettings(f.value) then Some(DecodeSettings(f.value)) else None
  }

  function EventsPlan(data: Json): Option<seq<TimelineEvent>> {
    var kept := ValidElements(data, "events", IsValidEvent);
    if kept.Some? then Some(MapSeq(kept.value, DecodeEvent)) else None
  }

  function QuestionsPlan(data: Json): Option<seq<CivicsQuestion>> {
    var kept := ValidElements(data, "questions", IsValidQuestion);
    if kept.Some? then Some(MapSeq(kept.value, DecodeQuestion)) else None
  }

  function DocsPlan(data: Json): Option<seq<Document>> {
    var kept := ValidElements(data, "docs", IsValidDocument);
    if kept.Some? then Some(MapSeq(kept.value, DecodeDocument)) else None
  }

  /** Mastery is written whenever the container test passes, even if nothing survives the filter. */
  function MasteryPlan(data: Json): Option<MasteryStore> {
    var entries := Container(data, "mastery");
    if entries.Some? then Some(MasteryFrom(entries.value, entries.value.Keys)) else None
  }

  /** Notes are written whenever the container test passes. */
  function NotesPlan(data: Json): Option<NotesStore> {
    var entries := Container(data, "notes");
    if entries.Some? then Some(NotesFrom(entries.value, entries.value.Keys)) else None
  }

  function PlanOf(data: Json): ImportPlan {
    ImportPlan(EventsPlan(data), QuestionsPlan(data), DocsPlan(data), MasteryPlan(data), NotesPlan(data), SettingsFrom(data))
  }

  predicate Writes(p: ImportPlan) {
    p.events.Some? || p.questions.Some? || p.docs.Some? || p.mastery.Some? || p.notes.Some? || p.settings.Some?
  }

  /** The store after the writes of a plan: each planned kind as its `saveAll*` leaves it. */
  function ApplyPlan(st: StoreState, p: ImportPlan): StoreState {
    StoreState(
      if p.events.Some? then KeyedBy(p.events.value, EventKey) else st.events,
      if p.questions.Some? then KeyedBy(p.questions.value, QuestionKey) else st.questions,
      if p.docs.Some? then KeyedBy(p.docs.value, DocumentKey) else st.documents,
      if p.mastery.Some? then MasteryRecords(p.mastery.value) else st.mastery,
      if p.notes.Some? then NoteRecords(p.notes.value) else st.notes,
      if p.settings.Some? then st.settings[SETTINGS_KEY := p.settings.value] else st.settings)
  }

  /** The import file's content: text `JSON.parse` rejects, or the value it yields. */
  datatype ImportInput = Unparseable | Parsed(value: Json)

  /** Why an import reports failure: a parse error, a top-level `null` (reading
      `null.events` throws), or a store write that was rejected. */
  datatype FailureReason = ParseError | NullDocument | StorageError

  datatype ImportResult = Imported | Failed(reason: FailureReason) {
    predicate Success() { this.Imported? }
  }

  const SUCCESS_MESSAGE := "Data imported successfully"

  /** The result `importData` reports. */
  function ImportOutcome(available: bool, input: ImportInput): ImportResult {
    match input
    case Unparseable => Failed(ParseError)
    case Parsed(data) =>
      if data.JNull? then Failed(NullDocument)
      else if Writes(PlanOf(data)) && !available then Failed(StorageError)
      else Imported
  }

  /** The store after `importData`. */
  function ImportedState(st: StoreState, available: bool, input: ImportInput): StoreState {
    if ImportOutcome(available, input).Imported? then ApplyPlan(st, PlanOf(input.value)) else st
  }

  /** An import that fails performs no write. */
  lemma FailedImportWritesNothing(st: StoreState, available: bool, input: ImportInput)
    requires ImportOutcome(available, input).Failed?
    ensures ImportedState(st, available, input) == st
  {
  }

  /** The record-list writes of an import (events, questions, documents) and the rest
      (mastery, notes, settings), which `importData` performs in that order. */
  function ListWrites(data: Json): ImportPlan {
    ImportPlan(EventsPlan(data), QuestionsPlan(data), DocsPlan(data), None, None, None)
  }

  function StoreWrites(data: Json): ImportPlan {
    ImportPlan(None, None, None, MasteryPlan(data), NotesPlan(data), SettingsFrom(data))
  }

  /** An import's writes are the list writes followed by the rest. */
  lemma PlanInTwoParts(st: StoreState, data: Json)
    ensures ApplyPlan(st, PlanOf(data)) == ApplyPlan(ApplyPlan(st, ListWrites(data)), StoreWrites(data))
    ensures Writes(PlanOf(data)) <==> Writes(ListWrites(data)) || Writes(StoreWrites(data))
  {
  }

  /** `importData`: the writes run in the order events, questions, documents, mastery, notes,
      settings; the first rejected write ends the import. */
  method ImportData(db: Store, input: ImportInput) returns (r: ImportResult)
    requires db.Valid()
    modifies db
    ensures db.Valid()
    ensures r == ImportOutcome(db.available, input)
    ensures db.State() == ImportedState(old(db.State()), db.available, input)
  {
    if input.Unparseable? {
      return Failed(ParseError);
    }
    var data := input.value;
    if data.JNull? {
      return Failed(NullDocument);
    }
    PlanInTwoParts(db.State(), data);
    var ok := ImportLists(db, data);
    if !ok {
      return Failed(StorageError);
    }
    ok := ImportStores(db, data);
    if !ok {
      return Failed(StorageError);
    }
    return Imported;
  }

  /** The first three writes of `importData`; `false` when one was rejected, in which case
      none took effect. */
  method ImportLists(db: Store, data: Json) returns (ok: bool)
    requires db.Valid()
    modifies db
    ensures db.Valid()
    ensures ok <==> db.available || !Writes(ListWrites(data))
    ensures db.State() == if ok then ApplyPlan(old(db.State()), ListWrites(data)) else old(db.State())
  {
    ghost var st0 := db.State();
    var w: Reply<()>;
    var events := ValidElements(data, "events", IsValidEvent);
    if events.Some? {
      w := db.SaveAllEvents(MapSeq(events.value, DecodeEvent));
      if w.StorageUnavailable? {
        return false;
      }
    }
    var questions := ValidElements(data, "questions", IsValidQuestion);
    if questions.Some? {
      w := db.SaveAllQuestions(MapSeq(questions.value, DecodeQuestion));
      if w.StorageUnavailable? {
        return false;
      }
    }
    var docs := ValidElements(data, "docs", IsValidDocument);
    if docs.Some? {
      w := db.SaveAllDocuments(MapSeq(docs.value, DecodeDocument));
      if w.StorageUnavailable? {
        return false;
      }
    }
    return true;
  }

  /** The last three writes of `importData`. */
  method ImportStores(db: Store, data: Json) returns (ok: bool)
    requires db.Valid()
    modifies db
    ensures db.Valid()
    ensures ok <==> db.available || !Writes(StoreWrites(data))
    ensures db.State() == if ok then ApplyPlan(old(db.State()), StoreWrites(data)) else old(db.State())
  {
    var w: Reply<()>;
    var masteryEntries := Container(data, "mastery");
    if masteryEntries.Some? {
      var validMastery := CollectMastery(masteryEntries.value);
      w := db.SaveAllMastery(validMastery);
      if w.StorageUnavailable? {
        return false;
      }
    }
    var notesEntries := Container(data, "notes");
    if notesEntries.Some? {
      var validNotes := CollectNotes(notesEntries.value);
      w := db.SaveAllNotes(validNotes);
      if w.StorageUnavailable? {
        return false;
      }
    }
    var settings := SettingsFrom(data);
    if settings.Some? {
      w := db.SaveSettings(settings.value);
      if w.StorageUnavailable? {
        return false;
      }
    }
    return true;
  }

  /** The `for ... of Object.entries(data.mastery)` loop: keep the keys that read as a
      number whose value is exactly `true`. */
  method CollectMastery(entries: map<string, Json>) returns (validMastery: MasteryStore)
    ensures validMastery == MasteryFrom(entries, entries.Keys)
  {
    validMastery := map[];
    var rest := entries.Keys;
    while rest != {}
      invariant rest <= entries.Keys
      invariant validMastery == MasteryFrom(entries, entries.Keys - rest)
      decreases rest
    {
      var k := PickKey(rest);
      var numKey := Text.ParseNumber(k);
      ghost var before := entries.Keys - rest;
      if numKey.Some? && entries[k] == JBool(true) {
        assert MasteredKeys(entries, before + {k}) == MasteredKeys(entries, before) + {numKey.value};
        validMastery := validMastery[numKey.value := true];
      } else {
        assert MasteredKeys(entries, before + {k}) == MasteredKeys(entries, before);
      }
      rest := rest - {k};
      assert entries.Keys - rest == before + {k};
    }
  }

  /** The `for ... of Object.entries(data.notes)` loop: keep the string values. */
  method CollectNotes(entries: map<string, Json>) returns (validNotes: NotesStore)
    ensures validNotes == NotesFrom(entries, entries.Keys)
  {
    validNotes := map[];
    var rest := entries.Keys;
    while rest != {}
      invariant rest <= entries.Keys
      invariant validNotes == NotesFrom(entries, entries.Keys - rest)
      decreases rest
    {
      var k := PickKey(rest);
      if entries[k].JStr? {
        validNotes := validNotes[k := entries[k].s];
      }
      rest := rest - {k};
    }
  }

  // ---- properties of the import ----

  /** Every import keeps the store's integrity: no `false` mastery record, no empty note,
      every record under its own id, settings under "user". */
  lemma ImportPreservesValid(st: StoreState, data: Json)
    requires ValidState(st)
    ensures ValidState(ApplyPlan(st, PlanOf(data)))
  {
  }

  /** A kind the document does not mention keeps its collection. */
  lemma AbsentKindsUntouched(st: StoreState, data: Json)
    ensures Field(data, "events").None? ==> ApplyPlan(st, PlanOf(data)).events == st.events
    ensures Field(data, "questions").None? ==> ApplyPlan(st, PlanOf(data)).questions == st.questions
    ensures Field(data, "docs").None? ==> ApplyPlan(st, PlanOf(data)).documents == st.documents
    ensures Field(data, "mastery").None? ==> ApplyPlan(st, PlanOf(data)).mastery == st.mastery
    ensures Field(data, "notes").None? ==> ApplyPlan(st, PlanOf(data)).notes == st.notes
    ensures Field(data, "settings").None? ==> ApplyPlan(st, PlanOf(data)).settings == st.settings
  {
  }

  /** Imported mastery holds only `true`, under the numbers the keys read as. */
  lemma ImportedMasteryIsTrue(data: Json, n: int)
    requires MasteryPlan(data).Some? && n in MasteryPlan(data).value
    ensures MasteryPlan(data).value[n]
    ensures exists k ::
      (k in Container(data, "mastery").value && Text.ParseNumber(k) == Some(n) &&
       Container(data, "mastery").value[k] == JBool(true))
  {
  }

  const JANE := JObj(map[
    "settings" := JObj(map["name" := JStr("Jane")]),
    "mastery" := JObj(map["5" := JBool(true), "foo" := JBool(true)])])

  lemma JaneSettings()
    ensures SettingsFrom(JANE) == Some(NamedSettings("Jane"))
  {
  }

  const JANE_MASTERY := map["5" := JBool(true), "foo" := JBool(true)]

  lemma JaneMasteredKeys()
    ensures MasteredKeys(JANE_MASTERY, {"5", "foo"}) == {5}
  {
    assert Text.ParseNumber("5") == Some(5) by {
      assert "5"[..0] == "";
    }
    assert Text.ParseNumber("foo") == None;
  }

  lemma JaneMastery()
    ensures MasteryPlan(JANE) == Some(map[5 := true])
  {
    assert Container(JANE, "mastery") == Some(JANE_MASTERY);
    assert JANE_MASTERY.Keys == {"5", "foo"};
    JaneMasteredKeys();
    assert MasteryFrom(JANE_MASTERY, JANE_MASTERY.Keys) == map[5 := true];
  }

  const JANE_PLAN := ImportPlan(None, None, None, Some(map[5 := true]), None, Some(NamedSettings("Jane")))

  lemma JanePlan()
    ensures PlanOf(JANE) == JANE_PLAN
  {
    JaneSettings();
    JaneMastery();
  }

  /** `{settings: {name: "Jane"}, mastery: {"5": true, "foo": true}}` succeeds, sets the name,
      stores mastery of question 5 only (`Number("foo")` is NaN) and leaves every other kind alone. */
  lemma JaneImport(st: StoreState)
    ensures ImportOutcome(true, Parsed(JANE)) == Imported
    ensures ApplyPlan(st, PlanOf(JANE)) ==
      st.(mastery := map[5 := MasteryRecord(5, true)], settings := st.settings[SETTINGS_KEY := NamedSettings("Jane")])
  {
    JanePlan();
    JanePlanWrites(st);
  }

  lemma JanePlanWrites(st: StoreState)
    ensures ApplyPlan(st, JANE_PLAN) ==
      st.(mastery := map[5 := MasteryRecord(5, true)], settings := st.settings[SETTINGS_KEY := NamedSettings("Jane")])
  {
    assert MasteryRecords(map[5 := true]) == map[5 := MasteryRecord(5, true)];
  }

  const ARRAY_MASTERY := JObj(map["mastery" := JArr([JBool(true), JBool(false), JBool(true)])])

  const ARRAY_ENTRIES := map["0" := JBool(true), "1" := JBool(false), "2" := JBool(true)]

  lemma SmallNumerals()
    ensures Text.NatToString(0) == "0" && Text.NatToString(1) == "1" && Text.NatToString(2) == "2"
  {
    assert Text.DigitChar(0) == '0' && Text.DigitChar(1) == '1' && Text.DigitChar(2) == '2';
  }

  lemma IndexEntriesOne()
    ensures IndexEntries([JBool(true)]) == map["0" := JBool(true)]
  {
    assert [JBool(true)][..0] == [];
    SmallNumerals();
  }

  lemma IndexEntriesTwo()
    ensures IndexEntries([JBool(true), JBool(false)]) == map["0" := JBool(true), "1" := JBool(false)]
  {
    assert [JBool(true), JBool(false)][..1] == [JBool(true)];
    IndexEntriesOne();
    SmallNumerals();
  }

  lemma ArrayMasteryEntries()
    ensures Container(ARRAY_MASTERY, "mastery") == Some(ARRAY_ENTRIES)
  {
    assert [JBool(true), JBool(false), JBool(true)][..2] == [JBool(true), JBool(false)];
    IndexEntriesTwo();
    SmallNumerals();
  }

  lemma ArrayMasteredKeys()
    ensures MasteredKeys(ARRAY_ENTRIES, {"0", "1", "2"}) == {0, 2}
  {
    assert Text.ParseNumber("0") == Some(0) by {
      assert "0"[..0] == "";
    }
    assert Text.ParseNumber("2") == Some(2) by {
      assert "2"[..0] == "";
    }
  }

  lemma ArrayMasteryPlan()
    ensures MasteryPlan(ARRAY_MASTERY) == Some(map[0 := true, 2 := true])
  {
    ArrayMasteryEntries();
    assert ARRAY_ENTRIES.Keys == {"0", "1", "2"};
    ArrayMasteredKeys();
    assert MasteryFrom(ARRAY_ENTRIES, ARRAY_ENTRIES.Keys) == map[0 := true, 2 := true];
  }

  const ARRAY_PLAN := ImportPlan(None, None, None, Some(map[0 := true, 2 := true]), None, None)

  lemma ArrayPlan()
    ensures PlanOf(ARRAY_MASTERY) == ARRAY_PLAN
  {
    ArrayMasteryPlan();
  }

  /** An array passes the mastery container test, so its `true` elements are stored under
      their indices: `[true, false, true]` stores questions 0 and 2 and touches nothing else. */
  lemma ArrayMasteryImport(st: StoreState)
    ensures ApplyPlan(st, PlanOf(ARRAY_MASTERY)) ==
      st.(mastery := map[0 := MasteryRecord(0, true), 2 := MasteryRecord(2, true)])
  {
    ArrayPlan();
    ArrayPlanWrites(st);
  }

  lemma ArrayPlanWrites(st: StoreState)
    ensures ApplyPlan(st, ARRAY_PLAN) == st.(mastery := map[0 := MasteryRecord(0, true), 2 := MasteryRecord(2, true)])
  {
    assert MasteryRecords(map[0 := true, 2 := true]) == map[0 := MasteryRecord(0, true), 2 := MasteryRecord(2, true)];
  }

  // ---- export ----

  /** What `exportAllData` assembles from the store's answers: the stored records, with the
      question bank, the seed checklist and a profile named "Applicant" standing in for an
      empty questions store, an empty documents store and a missing profile. */
  predicate IsExportOf(d: AppData, st: StoreState, bank: seq<CivicsQuestion>, seeds: seq<Document>, exportedAt: string) {
    && DistinctKeys(d.events, EventKey) && KeyedBy(d.events, EventKey) == st.events
    && (if st.questions == map[] then d.questions == bank
        else DistinctKeys(d.questions, QuestionKey) && KeyedBy(d.questions, QuestionKey) == st.questions)
    && (if st.documents == map[] then d.docs == seeds
        else DistinctKeys(d.docs, DocumentKey) && KeyedBy(d.docs, DocumentKey) == st.documents)
    && d.mastery == MasteryView(st)
    && d.notes == NotesView(st)
    && d.settings == StoredSettings(st).GetOr(NamedSettings("Applicant"))
    && d.version == APP_VERSION
    && d.exportedAt == exportedAt
  }

  /** `exportAllData`. The civics bank and the timestamp are parameters. */
  method ExportAllData(db: Store, bank: seq<CivicsQuestion>, exportedAt: string) returns (r: Reply<AppData>)
    requires db.Valid()
    ensures !db.available ==> r == StorageUnavailable
    ensures db.available ==> r.Done? && IsExportOf(r.value, db.State(), bank, DefaultDocuments.DEFAULT_DOCUMENTS, exportedAt)
  {
    var events := db.GetAllEvents();
    var questions := db.GetAllQuestions();
    var docs := db.GetAllDocuments();
    var mastery := db.GetMastery();
    var notes := db.GetNotes();
    var settings := db.GetSettings();
    if !db.available {
      return StorageUnavailable;
    }
    var st := db.State();
    assert mastery.value == MasteryView(st);
    assert notes.value == NotesView(st);
    KeysEmpty(questions.value, QuestionKey);
    KeysEmpty(docs.value, DocumentKey);
    var d := AppData(
      events.value,
      if |questions.value| > 0 then questions.value else bank,
      if |docs.value| > 0 then docs.value else DefaultDocuments.DEFAULT_DOCUMENTS,
      mastery.value,
      notes.value,
      settings.value.GetOr(NamedSettings("Applicant")),
      APP_VERSION,
      exportedAt);
    return Done(d);
  }

  /** An export of an empty store: no events, the question bank, the seed checklist, no
      mastery, no notes and a profile named "Applicant". */
  lemma EmptyStoreExport(d: AppData, bank: seq<CivicsQuestion>, exportedAt: string)
    requires IsExportOf(d, EMPTY_STATE, bank, DefaultDocuments.DEFAULT_DOCUMENTS, exportedAt)
    ensures d.events == [] && d.questions == bank && d.docs == DefaultDocuments.DEFAULT_DOCUMENTS
    ensures d.mastery == map[] && d.notes == map[] && d.settings == NamedSettings("Applicant")
    ensures d.version == "0.1.0"
  {
    KeysEmpty(d.events, EventKey);
  }

  // ---- the round trip ----

  /** What a fresh store holds after importing an export of `st`: the same records, with
      the defaults the export filled in. */
  function Restored(st: StoreState, bank: seq<CivicsQuestion>, seeds: seq<Document>): StoreState {
    st.(
      questions := if st.questions == map[] then KeyedBy(bank, QuestionKey) else st.questions,
      documents := if st.documents == map[] then KeyedBy(seeds, DocumentKey) else st.documents,
      settings := map[SETTINGS_KEY := StoredSettings(st).GetOr(NamedSettings("Applicant"))])
  }

  /** An encoded list reads back through its validator and decoder unchanged. */
  lemma {:induction false} ListRoundTrip<T>(data: Json, key: string, s: seq<T>, enc: T -> Json, dec: Json -> T, valid: Json -> bool)
    requires Field(data, key) == Some(JArr(MapSeq(s, enc)))
    requires forall x :: valid(enc(x)) && dec(enc(x)) == x
    ensures ValidElements(data, key, valid) == if s == [] then None else Some(MapSeq(s, enc))
    ensures MapSeq(MapSeq(s, enc), dec) == s
  {
    var items := MapSeq(s, enc);
    FilterAll(items, valid);
  }

  /** A mastered question of the map is read back from its numeral. */
  lemma MasteryEntryReadBack(m: MasteryStore, n: int)
    requires n in m && m[n]
    ensures n in MasteredKeys(EncodeMastery(m).fields, EncodeMastery(m).fields.Keys)
  {
    var fields := EncodeMastery(m).fields;
    Text.IntToStringInjective();
    var k := Text.IntToString(n);
    assert k in fields && fields[k] == JBool(true);
    Text.ParseIntToString(n);
  }

  /** Only mastered questions of the map are read back. */
  lemma MasteryEntryFromMap(m: MasteryStore, n: int)
    requires n in MasteredKeys(EncodeMastery(m).fields, EncodeMastery(m).fields.Keys)
    ensures n in m && m[n]
  {
    var fields := EncodeMastery(m).fields;
    Text.IntToStringInjective();
    var k :| k in fields && Text.ParseNumber(k).Some? && fields[k] == JBool(true) && Text.ParseNumber(k).value == n;
    var q :| q in m && Text.IntToString(q) == k;
    Text.ParseIntToString(q);
  }

  /** A mastery map written by `JSON.stringify` reads back as its truthy entries. */
  lemma MasteryEncodingReadsBack(m: MasteryStore)
    ensures MasteryFrom(EncodeMastery(m).fields, EncodeMastery(m).fields.Keys) == map n | n in m && m[n] :: true
  {
    var ids := MasteredKeys(EncodeMastery(m).fields, EncodeMastery(m).fields.Keys);
    forall n | n in m && m[n]
      ensures n in ids
    {
      MasteryEntryReadBack(m, n);
    }
    forall n | n in ids
      ensures n in m && m[n]
    {
      MasteryEntryFromMap(m, n);
    }
  }

  /** The truthy entries of a valid store's mastery view, stored again, are the same records. */
  lemma ExportedMasteryRecords(st: StoreState)
    requires ValidState(st)
    ensures MasteryRecords(map n | n in MasteryView(st) && MasteryView(st)[n] :: true) == st.mastery
  {
    MasteryViewRecords(st);
    assert (map n | n in MasteryView(st) && MasteryView(st)[n] :: true) == MasteryView(st);
  }

  /** A notes map written by `JSON.stringify` reads back unchanged. */
  lemma NotesEncodingReadsBack(m: NotesStore)
    ensures NotesFrom(EncodeNotes(m).fields, EncodeNotes(m).fields.Keys) == m
  {
  }

  lemma ExportedEventsReadBack(d: AppData)
    ensures EventsPlan(EncodeAppData(d)) == if d.events == [] then None else Some(d.events)
  {
    forall e: TimelineEvent
      ensures IsValidEvent(EncodeEvent(e)) && DecodeEvent(EncodeEvent(e)) == e
    {
      EncodedRecordsValid(e, EMPTY_QUESTION, EMPTY_DOCUMENT, NamedSettings(""));
      EventRoundTrip(e);
    }
    AppDataFieldOf(d, "events");
    ListRoundTrip(EncodeAppData(d), "events", d.events, EncodeEvent, DecodeEvent, IsValidEvent);
  }

  lemma ExportedQuestionsReadBack(d: AppData)
    ensures QuestionsPlan(EncodeAppData(d)) == if d.questions == [] then None else Some(d.questions)
  {
    forall q: CivicsQuestion
      ensures IsValidQuestion(EncodeQuestion(q)) && DecodeQuestion(EncodeQuestion(q)) == q
    {
      EncodedRecordsValid(EMPTY_EVENT, q, EMPTY_DOCUMENT, NamedSettings(""));
      QuestionRoundTrip(q);
    }
    AppDataFieldOf(d, "questions");
    ListRoundTrip(EncodeAppData(d), "questions", d.questions, EncodeQuestion, DecodeQuestion, IsValidQuestion);
  }

  lemma ExportedDocsReadBack(d: AppData)
    ensures DocsPlan(EncodeAppData(d)) == if d.docs == [] then None else Some(d.docs)
  {
    forall x: Document
      ensures IsValidDocument(EncodeDocument(x)) && DecodeDocument(EncodeDocument(x)) == x
    {
      EncodedRecordsValid(EMPTY_EVENT, EMPTY_QUESTION, x, NamedSettings(""));
      DocumentRoundTrip(x);
    }
    AppDataFieldOf(d, "docs");
    ListRoundTrip(EncodeAppData(d), "docs", d.docs, EncodeDocument, DecodeDocument, IsValidDocument);
  }

  lemma ExportedMasteryReadBack(d: AppData)
    ensures MasteryPlan(EncodeAppData(d)) == Some(map n | n in d.mastery && d.mastery[n] :: true)
  {
    AppDataFieldOf(d, "mastery");
    assert Container(EncodeAppData(d), "mastery") == Some(EncodeMastery(d.mastery).fields);
    MasteryEncodingReadsBack(d.mastery);
  }

  lemma ExportedNotesReadBack(d: AppData)
    ensures NotesPlan(EncodeAppData(d)) == Some(d.notes)
  {
    AppDataFieldOf(d, "notes");
    assert Container(EncodeAppData(d), "notes") == Some(EncodeNotes(d.notes).fields);
    NotesEncodingReadsBack(d.notes);
  }

  lemma ExportedSettingsReadBack(d: AppData)
    ensures SettingsFrom(EncodeAppData(d)) == Some(d.settings)
  {
    AppDataFieldOf(d, "settings");
    EncodedRecordsValid(EMPTY_EVENT, EMPTY_QUESTION, EMPTY_DOCUMENT, d.settings);
    SettingsRoundTrip(d.settings);
  }

  /** The writes an import of an export performs, read off the backup itself: each list
      unless it is empty, the truthy mastery entries, the notes and the profile. */
  function ExportPlan(d: AppData): ImportPlan {
    ImportPlan(
      if d.events == [] then None else Some(d.events),
      if d.questions == [] then None else Some(d.questions),
      if d.docs == [] then None else Some(d.docs),
      Some(map n | n in d.mastery && d.mastery[n] :: true),
      Some(d.notes),
      Some(d.settings))
  }

  /** Every kind of an export reads back as written. */
  lemma ExportReadsBack(d: AppData)
    ensures PlanOf(EncodeAppData(d)) == ExportPlan(d)
  {
    ExportedEventsReadBack(d);
    ExportedQuestionsReadBack(d);
    ExportedDocsReadBack(d);
    ExportedMasteryReadBack(d);
    ExportedNotesReadBack(d);
    ExportedSettingsReadBack(d);
  }

  /** Writing the kinds of an export of `st` into a fresh store gives back the records of `st`. */
  lemma ExportPlanRestores(st: StoreState, bank: seq<CivicsQuestion>, seeds: seq<Document>, exportedAt: string, d: AppData)
    requires ValidState(st)
    requires IsExportOf(d, st, bank, seeds, exportedAt)
    ensures ApplyPlan(EMPTY_STATE, ExportPlan(d)) == Restored(st, bank, seeds)
  {
    ExportPlanRestoresLists(st, bank, seeds, exportedAt, d);
    ExportPlanRestoresStores(st, bank, seeds, exportedAt, d);
  }

  /** The three record lists of an export come back as stored, or as the stand-ins. */
  lemma ExportPlanRestoresLists(st: StoreState, bank: seq<CivicsQuestion>, seeds: seq<Document>, exportedAt: string, d: AppData)
    requires IsExportOf(d, st, bank, seeds, exportedAt)
    ensures var r := ApplyPlan(EMPTY_STATE, ExportPlan(d));
            r.events == st.events && r.questions == Restored(st, bank, seeds).questions
            && r.documents == Restored(st, bank, seeds).documents
  {
    KeysEmpty(d.questions, QuestionKey);
    KeysEmpty(d.docs, DocumentKey);
  }

  /** Mastery, notes and the profile of an export come back as stored. */
  lemma ExportPlanRestoresStores(st: StoreState, bank: seq<CivicsQuestion>, seeds: seq<Document>, exportedAt: string, d: AppData)
    requires ValidState(st)
    requires IsExportOf(d, st, bank, seeds, exportedAt)
    ensures var r := ApplyPlan(EMPTY_STATE, ExportPlan(d));
            r.mastery == st.mastery && r.notes == st.notes && r.settings == Restored(st, bank, seeds).settings
  {
    ExportedMasteryRecords(st);
    NotesViewRecords(st);
  }

  /** Importing an export into a fresh store gives back every stored record: the backup
      loses nothing but the stand-ins it added for empty kinds and a missing profile. */
  lemma ExportImportRoundTrip(st: StoreState, bank: seq<CivicsQuestion>, seeds: seq<Document>, exportedAt: string, d: AppData)
    requires ValidState(st)
    requires IsExportOf(d, st, bank, seeds, exportedAt)
    ensures ImportOutcome(true, Parsed(EncodeAppData(d))) == Imported
    ensures ApplyPlan(EMPTY_STATE, PlanOf(EncodeAppData(d))) == Restored(st, bank, seeds)
  {
    ExportReadsBack(d);
    ExportPlanRestores(st, bank, seeds, exportedAt, d);
  }

  const EMPTY_DOCUMENT := Document("", "", "", false, None, EMPTY_META, None, None, None)
}
