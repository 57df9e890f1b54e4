# N-400 Prep Companion: the persistence layer and view logic, in Dafny

This project models the part of the N-400 Prep Companion that keeps an applicant's data:

- the IndexedDB record store of `src/lib/storage/db.ts`: timeline events, civics questions, checklist documents, question mastery, notes, and the settings record stored under the key `user`;
- the backup export and best-effort import of `src/lib/storage/export-import.ts`;
- the write-through cache of the `useStorage` hook (`src/hooks/useStorage.ts`), with first-load seeding and reset to defaults;
- the document status progression of `DocManager`;
- the deck and card navigation of `StudyMode`;
- the sorted, filtered timeline and the "Add Timeline Event" form of `TimelineManager`;
- the date-range print view of `TimelinePrintView`.

The project also defines the records of `src/types/index.ts` and the twelve seed documents of `src/data/default-documents.ts`. It proves properties of the model.

## Modules

- `Wrappers`, `Seqs` and `Sorting` are generic helpers: `Option`, filtering, lookup by key, and "the last record per id wins" maps. `Sorting` is a stable insertion sort, proved sorted, a permutation and stable. It stands for `Array.prototype.sort`, which is stable.
- `Json` is an already-parsed JSON value.
- `Text` holds string order and numerals.
- `Types` holds the records.
- `Codec` gives the JSON shape `JSON.stringify` writes for each record, with a round-trip lemma for each.
- `DefaultDocuments` is the seed checklist.
- `Db` is a `Store` class over six maps. The constant `available` says whether IndexedDB answers, and every write is one step.
- `ExportImport` covers export and import. `ImportData` is a method proved equal to a pure import plan. The full round trip is `ExportImportRoundTrip`.
- `UseStorage` is a `StorageHook` class that owns a `Store` and the cache fields. Its mutators keep the invariant "the cache mirrors the store" (`Mirrors`), except `UpdateEvent` and `UpdateDocument` on an id the cache does not hold.
- `DocManager`, `StudyMode`, `TimelineManager` and `TimelinePrintView` are the view logic. The views' own state is a class each: `StudySession` and `TimelineEditor`.

Where the model departs from the source, the "## Left out" section says so.

Two behaviours of the source are proved as they are:

- **Stale card index.** Marking the last card of the "Study Needs" deck mastered shrinks the deck under the card index. The view then shows "No questions available. All questions mastered!" although a question still needs study (`StudyMode.MasteringLastCardHidesDeck`). That screen renders neither the card nor the "Study Needs" checkbox, so the user cannot switch back from it.
- **Cache misses on update.** `updateEvent` and `updateDocument` on an id the cache does not hold write the store but leave the cache as it was (`UseStorage.UpdateAbsentEventDiverges`).

Neither has one evident intended fix, so they are described here and not listed as findings.

## Model

| member | source | states |
|---|---|---|
| Types.ParseStatus | src/types/index.ts:43 | a label is read back as the status that carries it, and no status carries a label it rejects |
| Types.StatusLabelsRoundTrip | src/types/index.ts:43 | there are exactly five statuses, each told apart by its label |
| Types.DefaultCategories | src/types/index.ts:12-19 | there are six default categories with pairwise distinct ids, the last being "other" / "Other" / "slate" |
| ExportImport.EventRequiredFields | src/types/index.ts:21-32 | an event needs exactly id, date, type and title: with them it validates and reads back with every optional field absent, and without any one of them it is rejected |
| ExportImport.DocumentWithoutMeta | src/types/index.ts:51-61 | a document object with only id, name, status and `required` passes the import check and reads back with empty meta |
| Codec.EncodeEvent | src/lib/storage/export-import.ts:87 | the event as `JSON.stringify` writes it: its set fields under their keys, `undefined` ones left out; its keys are fixed by `Codec.EventFieldOf` and it is inverted by `Codec.EventRoundTrip` |
| Codec.DecodeEvent | src/lib/storage/export-import.ts:106-111 | a validated event object read as an event, each optional field present when it holds a string; `Codec.EventRoundTrip` shows it inverts `EncodeEvent` |
| Codec.EncodeQuestion | src/lib/storage/export-import.ts:87 | a question as its four keys `id`, `q`, `a`, `section`; inverted by `Codec.QuestionRoundTrip` |
| Codec.DecodeQuestion | src/lib/storage/export-import.ts:114-119 | a validated question object read as a question; inverts `EncodeQuestion` by `Codec.QuestionRoundTrip` |
| Codec.EncodeMeta | src/lib/storage/export-import.ts:87 | a document's meta as its set keys among expiry, issuer and location (`Codec.MetaFieldOf`) |
| Codec.DecodeMeta | src/types/index.ts:45-49 | the meta sub-record read back, empty when the document has none; inverts `EncodeMeta` by `Codec.MetaRoundTrip` |
| Codec.EncodeDocument | src/lib/storage/export-import.ts:87 | a document as its set keys, with `meta` always written (`Codec.DocumentFieldOf`) |
| Codec.DecodeDocument | src/lib/storage/export-import.ts:122-127 | a validated document object read as a document; inverts `EncodeDocument` by `Codec.DocumentRoundTrip` |
| Codec.EncodeCategory | src/types/index.ts:5-9 | a category as its `id`, `label` and `color` |
| Codec.DecodeCategory | src/types/index.ts:5-9 | a category object read back; a list of them inverts by `Codec.CategoriesRoundTrip` |
| Codec.EncodeSettings | src/lib/storage/export-import.ts:87 | the settings as their set keys, the category list as an array (`Codec.SettingsFieldOf`) |
| Codec.DecodeSettings | src/lib/storage/export-import.ts:153-155 | a validated settings object read as settings; inverts `EncodeSettings` by `Codec.SettingsRoundTrip` |
| Codec.EncodeMastery | src/lib/storage/export-import.ts:87 | the mastery map as an object keyed by `String(id)`; read back by `ExportImport.MasteryEncodingReadsBack` |
| Codec.EncodeNotes | src/lib/storage/export-import.ts:87 | the notes map as an object of strings; read back by `ExportImport.NotesEncodingReadsBack` |
| Codec.EncodeAppData | src/lib/storage/export-import.ts:62-87 | the backup document: the six data keys plus `version` and `exportedAt` (`Codec.AppDataFieldOf`); imported back by `ExportImport.ExportReadsBack` |
| Codec.EventRoundTrip | src/types/index.ts:21-32 | decoding the JSON written for an event gives that event back, optional fields included |
| Codec.QuestionRoundTrip | src/types/index.ts:35-40 | the same for a civics question |
| Codec.MetaRoundTrip | src/types/index.ts:45-49 | the same for a document's meta record |
| Codec.DocumentRoundTrip | src/types/index.ts:51-61 | the same for a document |
| Codec.SettingsRoundTrip | src/types/index.ts:64-74 | the same for the settings record, including its category list |
| Codec.CategoriesRoundTrip | src/types/index.ts:5-9 | a written category list reads back as the same list |
| Codec.StrListRoundTrip | src/types/index.ts:28 | a list of linked document ids reads back unchanged |
| Codec.OptStrField | src/types/index.ts:21-32 | an optional text field is present exactly when the JSON field is a string |
| Codec.EventFieldOf | src/types/index.ts:21-32 | an event's JSON has exactly the event keys that are set |
| Codec.MetaFieldOf | src/types/index.ts:45-49 | a meta record's JSON has exactly its set keys |
| Codec.DocumentFieldOf | src/types/index.ts:51-61 | a document's JSON has exactly its set keys |
| Codec.SettingsFieldOf | src/types/index.ts:64-74 | a settings record's JSON has exactly its set keys |
| Codec.AppDataFieldOf | src/types/index.ts:83-92 | a backup always carries the six data keys plus `version` and `exportedAt`, and nothing else |
| DefaultDocuments.SeedCount | src/data/default-documents.ts:4-101 | there are twelve seed documents |
| DefaultDocuments.SeedIds | src/data/default-documents.ts:4-101 | their ids are d1 to d12, in order |
| DefaultDocuments.DistinctSeeds | src/data/default-documents.ts:4-101 | no two seeds share an id |
| DefaultDocuments.SeedsStartMissing | src/data/default-documents.ts:4-101 | every seed starts at status "missing" |
| DefaultDocuments.SeedsUngrouped | src/data/default-documents.ts:4-101 | no seed has a parent, so the one-level grouping holds |
| DefaultDocuments.RequiredSeeds | src/data/default-documents.ts:9-49 | exactly d1, d2, d3 and d6 are required |
| ExportImport.DefaultDocumentsValid | src/data/default-documents.ts:4-101 | every seed passes `isValidDocument` |
| Db.MasteryRecords | src/lib/storage/db.ts:165-175 | the records `saveAllMastery` puts for a map: one `{id, mastered: true}` per truthy entry and none for a false one (`Db.Store.SaveAllMastery`, `Db.SaveAllMasteryReadBack`) |
| Db.NoteRecords | src/lib/storage/db.ts:198-208 | the records `saveAllNotes` puts for a map: one `{id, content}` per non-empty entry (`Db.Store.SaveAllNotes`, `Db.SaveAllNotesReadBack`) |
| Db.MasteredIds | src/lib/storage/db.ts:145-154 | the `getMastery` fold keeps only stored ids and maps each to true |
| Db.MasteredIdsOfRecords | src/lib/storage/db.ts:145-154 | with distinct ids, an id is in the folded map exactly when its record says mastered |
| Db.NonEmptyNotes | src/lib/storage/db.ts:178-187 | the `getNotes` fold keeps only stored ids and never yields an empty note |
| Db.MasteryView | src/lib/storage/db.ts:145-154 | what `getMastery` answers for a store state: the ids of the records marked mastered, each mapped to true (`Db.Store.GetMastery`, `Db.SaveAllMasteryReadBack`, `Db.MasteryViewRecords`) |
| Db.NotesView | src/lib/storage/db.ts:178-187 | what `getNotes` answers for a store state: the non-empty contents by key, a `__proto__` record included, which the source drops (`Db.Store.GetNotes`, `Db.SaveAllNotesReadBack`, `Db.NotesViewRecords`; see "## Left out") |
| Db.NonEmptyNotesOfRecords | src/lib/storage/db.ts:178-187 | with distinct ids, a note is in the folded map exactly when its record's content is non-empty, with that content |
| Db.Enumerate | src/lib/storage/db.ts:88-91 | `getAll` lists each stored record once, and keying the list by id gives back the collection |
| Db.Store.constructor | src/lib/storage/db.ts:12-39 | a new store holds six empty collections |
| Db.Store.GetAllEvents | src/lib/storage/db.ts:88-91 | the events come back one per id, exactly the stored ones; an unavailable store fails |
| Db.Store.SaveEvent | src/lib/storage/db.ts:93-96 | an upsert under the event's id that changes nothing else |
| Db.Store.DeleteEvent | src/lib/storage/db.ts:98-101 | removes that id only; deleting an absent id changes nothing |
| Db.Store.SaveAllEvents | src/lib/storage/db.ts:103-109 | the collection becomes the given events keyed by id, with the previous contents gone and the last duplicate winning |
| Db.Store.GetAllQuestions | src/lib/storage/db.ts:112-115 | the questions come back exactly as stored, one per id |
| Db.Store.SaveAllQuestions | src/lib/storage/db.ts:117-123 | the collection becomes the given questions keyed by id |
| Db.Store.GetAllDocuments | src/lib/storage/db.ts:126-129 | the documents come back exactly as stored, one per id |
| Db.Store.SaveDocument | src/lib/storage/db.ts:131-134 | an upsert under the document's id that changes nothing else |
| Db.Store.SaveAllDocuments | src/lib/storage/db.ts:136-142 | the collection becomes the given documents keyed by id |
| Db.Store.GetMastery | src/lib/storage/db.ts:145-154 | the result holds exactly the ids whose stored record says mastered, each mapped to true |
| Db.Store.SetMastery | src/lib/storage/db.ts:156-163 | true upserts the record and false deletes it; other ids are unchanged |
| Db.Store.SaveAllMastery | src/lib/storage/db.ts:165-175 | the collection becomes one record for each id given true, and no others |
| Db.Store.GetNotes | src/lib/storage/db.ts:178-187 | the result has exactly the stored note ids, each with its non-empty content |
| Db.Store.SetNote | src/lib/storage/db.ts:189-196 | empty content deletes the note, other content upserts it; the rest is unchanged |
| Db.Store.SaveAllNotes | src/lib/storage/db.ts:198-208 | the collection becomes the non-empty notes given |
| Db.Store.GetSettings | src/lib/storage/db.ts:211-214 | the result is the record under `user`, if any |
| Db.Store.SaveSettings | src/lib/storage/db.ts:216-219 | the record is stored under `user`, and reading the settings back gives it |
| Db.Store.ClearAllData | src/lib/storage/db.ts:222-232 | all six collections are empty |
| Db.StoredSettings | src/lib/storage/db.ts:211-214 | there are settings exactly when a record is stored under `user` |
| Db.SaveAllMasteryReadBack | src/lib/storage/db.ts:145-175 | after `saveAllMastery(m)`, `getMastery` answers exactly the ids that `m` maps to true |
| Db.SaveAllNotesReadBack | src/lib/storage/db.ts:178-208 | after `saveAllNotes(n)`, `getNotes` answers `n` without its empty notes |
| Db.MasteryViewRecords | src/lib/storage/db.ts:145-175 | in a valid store (no false records), saving what `getMastery` answers rebuilds the collection exactly |
| Db.NotesViewRecords | src/lib/storage/db.ts:178-208 | in a valid store (no empty notes), saving what `getNotes` answers rebuilds the collection exactly |
| ExportImport.IsValidEvent | src/lib/storage/export-import.ts:22-31 | `isValidEvent`: an object or array with string `id`, `date`, `type` and `title`; `ExportImport.EventRequiredFields` shows these four are exactly what it needs |
| ExportImport.IsValidQuestion | src/lib/storage/export-import.ts:33-42 | `isValidQuestion`: a numeric `id` and string `q`, `a` and `section`; every written question passes (`ExportImport.EncodedRecordsValid`) |
| ExportImport.IsValidDocument | src/lib/storage/export-import.ts:44-53 | `isValidDocument`: string `id`, `name`, `status` and a boolean `required`, `meta` not examined (`ExportImport.DocumentWithoutMeta`) |
| ExportImport.IsValidSettings | src/lib/storage/export-import.ts:55-59 | `isValidSettings`: an object with a string `name`; every written settings record passes |
| ExportImport.MasteredKeys | src/lib/storage/export-import.ts:132-136 | the keys that read as a number and hold `true`, as numbers (`ExportImport.CollectMastery`, `ExportImport.ImportedMasteryIsTrue`) |
| ExportImport.MasteryFrom | src/lib/storage/export-import.ts:131-137 | the mastery map the loop builds, every such id mapped to true |
| ExportImport.NotesFrom | src/lib/storage/export-import.ts:143-148 | the notes map the loop builds: the string-valued entries (`ExportImport.CollectNotes`); unlike the source, it keeps a `__proto__` key (see "## Left out") |
| ExportImport.SettingsFrom | src/lib/storage/export-import.ts:153-155 | the settings write: present exactly when `settings` passes `isValidSettings` (`ExportImport.JaneSettings`, `ExportImport.ExportedSettingsReadBack`) |
| ExportImport.EventsPlan | src/lib/storage/export-import.ts:106-111 | the events write: the valid events, when any (`ExportImport.ValidElements`) |
| ExportImport.QuestionsPlan | src/lib/storage/export-import.ts:114-119 | the questions write, in the same way |
| ExportImport.DocsPlan | src/lib/storage/export-import.ts:122-127 | the documents write, in the same way |
| ExportImport.MasteryPlan | src/lib/storage/export-import.ts:130-139 | the mastery write, made whenever the container passes even if no entry survives |
| ExportImport.NotesPlan | src/lib/storage/export-import.ts:142-150 | the notes write, made whenever the container passes |
| ExportImport.PlanOf | src/lib/storage/export-import.ts:105-155 | the six writes `importData` makes from a parsed document; split by `ExportImport.PlanInTwoParts`, executed by `ExportImport.ImportData` |
| ExportImport.ApplyPlan | src/lib/storage/export-import.ts:105-155 | each planned kind as its `saveAll*` or `saveSettings` leaves the store, the others untouched (`ExportImport.AbsentKindsUntouched`) |
| ExportImport.ImportOutcome | src/lib/storage/export-import.ts:101-165 | `importData`'s result: a parse error, a `null` document, a rejected write, or success; `ExportImport.ImportData` returns it |
| ExportImport.ImportedState | src/lib/storage/export-import.ts:101-165 | the store after `importData`: the plan applied on success, unchanged otherwise (`ExportImport.FailedImportWritesNothing`) |
| ExportImport.EncodedRecordsValid | src/lib/storage/export-import.ts:22-59 | every event, question, document and settings record the application writes passes its validator |
| ExportImport.ValidElements | src/lib/storage/export-import.ts:106-127 | a list kind is written exactly when its key holds an array with at least one valid element, and then with exactly the valid elements in order |
| ExportImport.Container | src/lib/storage/export-import.ts:130-150 | the mastery and notes containers are accepted exactly when they are objects or arrays |
| ExportImport.ImportData | src/lib/storage/export-import.ts:101-165 | the outcome and the new store are those of the import plan: each kind is written or left as it was, and only on success |
| ExportImport.ImportLists | src/lib/storage/export-import.ts:105-127 | the events, questions and documents writes of the plan, stopping at the first failed write |
| ExportImport.ImportStores | src/lib/storage/export-import.ts:129-155 | the mastery, notes and settings writes of the plan |
| ExportImport.CollectMastery | src/lib/storage/export-import.ts:131-137 | the loop keeps exactly the entries whose key reads as a number and whose value is `true` |
| ExportImport.CollectNotes | src/lib/storage/export-import.ts:143-148 | the loop keeps exactly the string-valued entries, a `__proto__` key included, which the source drops (see "## Left out") |
| ExportImport.FailedImportWritesNothing | src/lib/storage/export-import.ts:158-164 | an import that fails because the text does not parse, the document is `null`, or the store is unavailable from the start leaves the store as it was |
| ExportImport.PlanInTwoParts | src/lib/storage/export-import.ts:105-155 | the plan is the list writes followed by the store writes |
| ExportImport.ImportPreservesValid | src/lib/storage/export-import.ts:129-150 | an import never stores a false mastery record or an empty note |
| ExportImport.AbsentKindsUntouched | src/lib/storage/export-import.ts:105-155 | a top-level key that is absent leaves its collection untouched |
| ExportImport.ImportedMasteryIsTrue | src/lib/storage/export-import.ts:130-139 | every imported mastery id came from a key that reads as that number and held `true` |
| ExportImport.JaneSettings | src/lib/storage/export-import.ts:153-155 | `{settings:{name:"Jane"}}` imports settings named Jane |
| ExportImport.JaneMasteredKeys | src/lib/storage/export-import.ts:132-136 | of the keys "5" and "foo", only 5 is kept |
| ExportImport.JaneMastery | src/lib/storage/export-import.ts:130-139 | the Jane backup's mastery becomes `{5: true}` |
| ExportImport.JanePlan | src/lib/storage/export-import.ts:105-157 | the Jane backup writes only mastery and settings |
| ExportImport.JanePlanWrites | src/lib/storage/export-import.ts:105-157 | writing that plan changes only the mastery and the settings |
| ExportImport.JaneImport | src/lib/storage/export-import.ts:105-157 | the Jane import succeeds, leaving events, questions, documents and notes unchanged |
| ExportImport.SmallNumerals | src/lib/storage/export-import.ts:132 | the index keys of a short array are "0", "1" and "2" |
| ExportImport.IndexEntriesOne | src/lib/storage/export-import.ts:132 | `Object.entries` of a one-element array keys it by "0" |
| ExportImport.IndexEntriesTwo | src/lib/storage/export-import.ts:132 | `Object.entries` of a two-element array keys it by "0" and "1" |
| ExportImport.ArrayMasteryEntries | src/lib/storage/export-import.ts:130 | a mastery array passes the object check and is read by index |
| ExportImport.ArrayMasteredKeys | src/lib/storage/export-import.ts:132-136 | from `[true, false, true]` the indices 0 and 2 are kept |
| ExportImport.ArrayMasteryPlan | src/lib/storage/export-import.ts:130-139 | a mastery array imports as `{0: true, 2: true}` |
| ExportImport.ArrayPlan | src/lib/storage/export-import.ts:105-157 | such a backup writes only the mastery |
| ExportImport.ArrayPlanWrites | src/lib/storage/export-import.ts:138 | writing that plan stores records 0 and 2 only |
| ExportImport.ArrayMasteryImport | src/lib/storage/export-import.ts:105-157 | importing it replaces the mastery and nothing else |
| ExportImport.ExportAllData | src/lib/storage/export-import.ts:62-82 | the backup holds the stored records, with the bank or the seeds in place of empty questions or documents, `{name: "Applicant"}` in place of missing settings, and version 0.1.0 |
| ExportImport.IsExportOf | src/lib/storage/export-import.ts:62-82 | what `exportAllData` assembles from the store, with the bank, the seeds and `{name: "Applicant"}` as stand-ins; `ExportImport.ExportAllData` ensures it |
| ExportImport.EmptyStoreExport | src/lib/storage/export-import.ts:72-81 | an empty store exports no events, the bank, the seeds, no mastery or notes, and settings named Applicant |
| ExportImport.ListRoundTrip | src/lib/storage/export-import.ts:106-127 | a written non-empty list passes the validation filter whole and decodes back unchanged |
| ExportImport.MasteryEntryReadBack | src/lib/storage/export-import.ts:130-139 | every mastered id written to a backup is read back |
| ExportImport.MasteryEntryFromMap | src/lib/storage/export-import.ts:130-139 | every id read back from the backup was mastered |
| ExportImport.MasteryEncodingReadsBack | src/lib/storage/export-import.ts:130-139 | the mastery read back is exactly the mastered ids |
| ExportImport.ExportedMasteryRecords | src/lib/storage/export-import.ts:67-138 | saving the exported mastery rebuilds the stored collection |
| ExportImport.NotesEncodingReadsBack | src/lib/storage/export-import.ts:142-150 | the notes read back are exactly the ones written |
| ExportImport.ExportedEventsReadBack | src/lib/storage/export-import.ts:106-111 | a backup's events are read back unchanged, or left alone when there are none |
| ExportImport.ExportedQuestionsReadBack | src/lib/storage/export-import.ts:114-119 | the same for questions |
| ExportImport.ExportedDocsReadBack | src/lib/storage/export-import.ts:122-127 | the same for documents |
| ExportImport.ExportedMasteryReadBack | src/lib/storage/export-import.ts:130-139 | a backup's mastery reads back as its mastered ids |
| ExportImport.ExportedNotesReadBack | src/lib/storage/export-import.ts:142-150 | a backup's notes read back unchanged |
| ExportImport.ExportedSettingsReadBack | src/lib/storage/export-import.ts:153-155 | a backup's settings read back unchanged |
| ExportImport.ExportPlan | src/lib/storage/export-import.ts:101-157 | the writes an import of a backup makes, read off the backup: each non-empty list, the true mastery entries, the notes, the settings |
| ExportImport.ExportReadsBack | src/lib/storage/export-import.ts:101-157 | importing a backup writes exactly what it holds |
| ExportImport.Restored | src/lib/storage/export-import.ts:62-82 | the store a backup restores into an empty one: the same records, with the stand-ins for empty kinds (`ExportImport.ExportImportRoundTrip`) |
| ExportImport.ExportPlanRestoresLists | src/lib/storage/export-import.ts:62-82 | imported into an empty store, a backup restores the events, and the questions and documents or their stand-ins |
| ExportImport.ExportPlanRestoresStores | src/lib/storage/export-import.ts:62-82 | imported into an empty store, a backup restores the mastery, the notes and the settings or their stand-in |
| ExportImport.ExportPlanRestores | src/lib/storage/export-import.ts:62-165 | importing a backup into an empty store restores the exported store, with stand-ins for empty kinds |
| ExportImport.ExportImportRoundTrip | src/lib/storage/export-import.ts:62-165 | importing a backup succeeds and, into an empty store, restores what was exported |
| Json.Field | src/lib/storage/export-import.ts:106 | a property is defined exactly on an object that has it |
| Json.Entries | src/lib/storage/export-import.ts:132-144 | `Object.entries` of the mastery or notes container: an object's fields, or an array's elements under their index numerals (`ExportImport.CollectMastery`, `ExportImport.CollectNotes`, `ExportImport.ArrayMasteryEntries`) |
| Json.IndexEntries | src/lib/storage/export-import.ts:132-144 | the entries of an array, element `i` under `String(i)`; what it holds is stated by the two lemmas below |
| Json.IndexEntriesAt | src/lib/storage/export-import.ts:132 | `Object.entries` of an array holds each element under its index numeral |
| Json.IndexEntriesKey | src/lib/storage/export-import.ts:132 | and every key it holds is such a numeral |
| Text.StrLeReflexive | src/components/timeline/TimelinePrintView.tsx:38-39 | every date is within a range ending on itself |
| Text.StrLeTotal | src/components/timeline/TimelineManager.tsx:60 | any two dates are comparable |
| Text.StrLeTransitive | src/components/timeline/TimelineManager.tsx:60 | date order is transitive |
| Text.StrLeAntisymmetric | src/components/timeline/TimelinePrintView.tsx:38-39 | two dates each no later than the other are the same |
| Text.DigitChar | src/lib/storage/export-import.ts:133 | a digit value gives a digit character |
| Text.NatToString | src/lib/storage/export-import.ts:133 | the numeral of a number is a non-empty string of digits |
| Text.ParseNumber | src/lib/storage/export-import.ts:133-134 | `Number` yields a number exactly for a string of digits (the empty one included) or a sign followed by at least one digit; digits read as their decimal value, and a leading `-` negates it |
| Text.NatToStringValue | src/lib/storage/export-import.ts:133 | the digits of a numeral have its value |
| Text.ParseIntToString | src/lib/storage/export-import.ts:133 | `Number(String(n))` is `n` |
| Text.IntToString | src/lib/storage/export-import.ts:87 | `String(id)`, the key a numeric mastery id is written under; `Text.ParseIntToString` reads it back and `Text.IntToStringInjective` keeps ids apart |
| Text.IntToStringInjective | src/lib/storage/export-import.ts:133-135 | distinct ids have distinct keys |
| UseStorage.DefaultCache | src/hooks/useStorage.ts:42-47 | the initial and post-reset cache: no events, the bank, the seed checklist, no mastery or notes, `DEFAULT_SETTINGS` (`UseStorage.StorageHook.constructor`, `UseStorage.ResetMirrors`) |
| UseStorage.Seeded | src/hooks/useStorage.ts:79-87 | the store after first-load seeding: the bank and the checklist written only into an empty collection (`UseStorage.SeededIdempotent`, `UseStorage.SeededKeepsRecords`) |
| UseStorage.LoadedCache | src/hooks/useStorage.ts:56-77 | the cache `loadData` sets from the six reads, the bank, the checklist and `DEFAULT_SETTINGS` standing in for empty or missing data (`UseStorage.LoadedCacheIsLoad`) |
| UseStorage.IsLoadOf | src/hooks/useStorage.ts:56-77 | a cache loaded from a store: its records, the truthy mastery ids and non-empty notes, with the same stand-ins (`UseStorage.LoadedCacheIsLoad`, `UseStorage.LoadMirrors`) |
| UseStorage.SeededIdempotent | src/hooks/useStorage.ts:80-87 | loading a second time seeds nothing more |
| UseStorage.SeededKeepsRecords | src/hooks/useStorage.ts:80-87 | seeding writes questions and documents only, and only into an empty collection |
| UseStorage.LoadedCacheIsLoad | src/hooks/useStorage.ts:56-77 | the loaded cache holds the stored records, with the bank or the seeds in place of empty collections and the default settings in place of missing ones |
| UseStorage.LoadMirrors | src/hooks/useStorage.ts:56-87 | after loading and seeding, the cache mirrors the store |
| UseStorage.AddEventMirrors | src/hooks/useStorage.ts:100-103 | appending an event to the cache after the upsert keeps the mirror |
| Seqs.ReplaceByKey | src/hooks/useStorage.ts:107 | `list.map(x => x.id === v.id ? v : x)`: as long as the list; what it puts where is stated by the three lemmas below |
| Seqs.ReplaceByKeyAt | src/hooks/useStorage.ts:107 | position by position, every record with the key of `v` becomes `v` and every other record is kept in place |
| Seqs.KeyedByReplaceByKey | src/hooks/useStorage.ts:107 | when the key is present, the keyed view gets `v` under its key and nothing else changes |
| Seqs.KeyedByReplaceAbsent | src/hooks/useStorage.ts:107 | when the key is absent, the list comes back unchanged |
| UseStorage.UpdateEventMirrors | src/hooks/useStorage.ts:105-108 | replacing the cached event with the same id after the upsert keeps the mirror, when the cache holds that id |
| UseStorage.UpdateAbsentEventDiverges | src/hooks/useStorage.ts:105-108 | when the cache lacks the id, the cache is unchanged and the mirror breaks |
| Seqs.RemoveKey | src/hooks/useStorage.ts:112 | `list.filter(x => x.id !== id)`: at most as long as the list; what it keeps is stated by the four lemmas below |
| Seqs.RemoveKeyMembers | src/hooks/useStorage.ts:112 | an element is kept exactly when it is in the list and its key differs |
| Seqs.RemoveKeyIsFilter | src/hooks/useStorage.ts:112 | it is the filter on a differing key, so the kept records stay in their order |
| Seqs.RemoveKeyCount | src/hooks/useStorage.ts:112 | each record with another key is kept as often as it occurs, none with the key |
| Seqs.KeyedByRemoveKey | src/hooks/useStorage.ts:112 | the keyed view loses that key and nothing else |
| UseStorage.DeleteEventMirrors | src/hooks/useStorage.ts:110-113 | removing every cached event with the id after the delete keeps the mirror |
| UseStorage.UpdateDocumentMirrors | src/hooks/useStorage.ts:121-124 | replacing the cached document with the same id keeps the mirror, when the cache holds that id |
| UseStorage.Toggled | src/hooks/useStorage.ts:138-150 | toggling flips whether the id is mastered, stores no false entry, and leaves other ids unchanged |
| UseStorage.ToggledNeverFalse | src/hooks/useStorage.ts:138-150 | a map without false entries keeps none after a toggle |
| UseStorage.ToggleTwice | src/hooks/useStorage.ts:138-150 | toggling twice restores a map that does not store the id as false; a false entry comes back deleted |
| UseStorage.ToggleMasteryMirrors | src/hooks/useStorage.ts:138-150 | the store write and the cache update of a toggle keep the mirror |
| UseStorage.NoteUpdated | src/hooks/useStorage.ts:158-169 | empty content removes the note and other content sets it; other notes are unchanged |
| UseStorage.UpdateNoteMirrors | src/hooks/useStorage.ts:158-169 | a note update keeps the mirror |
| UseStorage.UpdateSettingsMirrors | src/hooks/useStorage.ts:177-180 | a settings update keeps the mirror |
| UseStorage.ResetMirrors | src/hooks/useStorage.ts:183-195 | the reset store and the default cache mirror each other |
| UseStorage.StorageHook.constructor | src/hooks/useStorage.ts:42-49 | the hook starts with no events, the bank, the seeds, empty mastery and notes, default settings, loading and no error |
| UseStorage.StorageHook.ReadAll | src/hooks/useStorage.ts:56-70 | the six reads return the store's contents, or fail together |
| UseStorage.StorageHook.SeedEmpty | src/hooks/useStorage.ts:80-87 | the bank and the seeds are stored only into an empty collection |
| UseStorage.StorageHook.LoadData | src/hooks/useStorage.ts:52-97 | on success the cache is the loaded data, the store is seeded and the two mirror each other; on failure the error message is set and the cache is kept; loading ends in either case |
| UseStorage.StorageHook.AddEvent | src/hooks/useStorage.ts:100-103 | store upsert, then the event is appended to the cache; a failed write changes neither; the mirror is kept |
| UseStorage.StorageHook.UpdateEvent | src/hooks/useStorage.ts:105-108 | store upsert, then every cached event with that id is replaced in place and the others kept (`Seqs.ReplaceByKeyAt`); the mirror is kept when the cache held the id |
| UseStorage.StorageHook.DeleteEvent | src/hooks/useStorage.ts:110-113 | store delete, then the cache becomes `Seqs.RemoveKey` of the old events: every event with that id removed and the others kept in order and multiplicity (`Seqs.RemoveKeyIsFilter`, `Seqs.RemoveKeyCount`); the mirror is kept |
| UseStorage.StorageHook.SetAllEvents | src/hooks/useStorage.ts:115-118 | the store and the cache both become the given events |
| UseStorage.StorageHook.UpdateDocument | src/hooks/useStorage.ts:121-124 | store upsert, then every cached document with that id is replaced in place and the others kept (`Seqs.ReplaceByKeyAt`); the mirror is kept when the cache held the id |
| UseStorage.StorageHook.SetAllDocuments | src/hooks/useStorage.ts:126-129 | the store and the cache both become the given documents |
| UseStorage.StorageHook.SetAllQuestions | src/hooks/useStorage.ts:132-135 | the store and the cache both become the given questions |
| UseStorage.StorageHook.ToggleMastery | src/hooks/useStorage.ts:138-150 | the store record is set or deleted, then the cache is toggled; the mirror is kept |
| UseStorage.StorageHook.SetAllMastery | src/hooks/useStorage.ts:152-155 | the store keeps the true entries and the cache takes the map |
| UseStorage.StorageHook.UpdateNote | src/hooks/useStorage.ts:158-169 | the store note is set or deleted, then the cache follows; the mirror is kept |
| UseStorage.StorageHook.SetAllNotes | src/hooks/useStorage.ts:171-174 | the store keeps the non-empty notes and the cache takes the map |
| UseStorage.StorageHook.UpdateSettings | src/hooks/useStorage.ts:177-180 | the settings are stored under `user` and cached |
| UseStorage.StorageHook.ResetAllData | src/hooks/useStorage.ts:183-195 | the store is cleared and re-seeded with the bank and the seeds only; the cache is the default cache and mirrors the store |
| DocManager.StatusIndex | src/components/documents/DocManager.tsx:13-28 | `indexOf` in the status order: the position of the status carrying that label, or -1 when none does |
| DocManager.AdvanceStatus | src/components/documents/DocManager.tsx:26-31 | `advanceStatus`: the next stage in `STATUS_ORDER`, clamped at packed; its behaviour is stated by the five lemmas below |
| DocManager.AdvanceMovesOneStep | src/components/documents/DocManager.tsx:26-31 | a status other than packed moves one place along the order |
| DocManager.AdvancePackedStays | src/components/documents/DocManager.tsx:29 | packed stays packed |
| DocManager.AdvanceUnknownToMissing | src/components/documents/DocManager.tsx:28-29 | an unknown status advances to missing |
| DocManager.AdvanceNeverLowers | src/components/documents/DocManager.tsx:28-29 | advancing never lowers the position, and raises it unless the status is packed |
| DocManager.FiveAdvancesFromMissing | src/components/documents/DocManager.tsx:26-31 | from missing: found, copied, uploaded, packed, packed |
| DocManager.AdvanceOnlyStatus | src/components/documents/DocManager.tsx:30 | advancing changes nothing but the status, and always yields a known status |
| DocManager.ResetStatus | src/components/documents/DocManager.tsx:33-35 | the status becomes missing and nothing else changes |
| DocManager.UpdateMeta | src/components/documents/DocManager.tsx:37-42 | the named meta field takes the value, and every other meta field and document field is unchanged |
| DocManager.UpdateMetaLastWins | src/components/documents/DocManager.tsx:37-42 | of two edits of one field the later wins, and re-entering the current value changes nothing |
| StudyMode.ActiveQuestions | src/components/study/StudyMode.tsx:28-30 | `activeQuestions`: every question, or with Study Needs on the unmastered ones; membership, multiplicity and order are stated by the three lemmas below |
| StudyMode.ActiveQuestionsMembers | src/components/study/StudyMode.tsx:28-30 | a question is on the deck exactly when mastered questions are shown or it is not mastered |
| StudyMode.ActiveQuestionsCount | src/components/study/StudyMode.tsx:28-30 | each question on the deck occurs as often as in the bank, unless hidden |
| StudyMode.ActiveQuestionsOrder | src/components/study/StudyMode.tsx:28-30 | the deck keeps the questions' order |
| StudyMode.StudyNeedsEmpty | src/components/study/StudyMode.tsx:75-81 | the "Study Needs" deck is empty exactly when every question is mastered |
| StudyMode.JsRem | src/components/study/StudyMode.tsx:37-44 | JavaScript `%` differs from the dividend by a multiple of the divisor, takes the dividend's sign with magnitude below the divisor, and a small non-negative dividend is its own remainder |
| StudyMode.SmallRemainder | src/components/study/StudyMode.tsx:37-44 | a dividend below the divisor is its own remainder |
| StudyMode.NextIndex | src/components/study/StudyMode.tsx:37 | the next index stays on the deck, one card on and from the last card back to the first |
| StudyMode.PrevIndex | src/components/study/StudyMode.tsx:44 | the previous index stays on the deck, one card back and from the first card to the last |
| StudyMode.PrevUndoesNext | src/components/study/StudyMode.tsx:37-44 | "previous" after "next" returns to the same card |
| StudyMode.NextUndoesPrev | src/components/study/StudyMode.tsx:37-44 | "next" after "previous" returns to the same card |
| StudyMode.ForwardSteps | src/components/study/StudyMode.tsx:37 | within one lap, k presses of "next" move k cards on, wrapping once |
| StudyMode.FullLap | src/components/study/StudyMode.tsx:37 | one press per card comes back to the starting card |
| StudyMode.CardAt | src/components/study/StudyMode.tsx:32 | a card is shown exactly when the index is on the deck, and it is a card of the deck |
| StudyMode.NoCardAfterSwitch | src/components/study/StudyMode.tsx:75-102 | right after the switch, no card is shown exactly when the deck is empty |
| StudyMode.MasteringLastCardHidesDeck | src/components/study/StudyMode.tsx:28-81 | mastering the last card of the "Study Needs" deck leaves no card shown though one question remains |
| StudyMode.StudySession.constructor | src/components/study/StudyMode.tsx:24-26 | the view starts on card 0, question side up, with every question on the deck |
| StudyMode.StudySession.NextCard | src/components/study/StudyMode.tsx:34-39 | question side up, then the next index, and a card is still shown |
| StudyMode.StudySession.PrevCard | src/components/study/StudyMode.tsx:41-46 | question side up, then the previous index, and a card is still shown |
| StudyMode.StudySession.Flip | src/components/study/StudyMode.tsx:132 | a click turns the card over and changes nothing else; the card is there only while one is shown |
| StudyMode.StudySession.ToggleStudyNeeds | src/components/study/StudyMode.tsx:99-102 | the "Study Needs" switch flips the deck and resets the index to 0; it is rendered, like the card, only while a card is shown (the view returns early otherwise) |
| StudyMode.HandleImport | src/components/study/StudyMode.tsx:57-73 | a parsed array is forwarded element for element, any other parsed value is ignored, and text that does not parse gives the error |
| StudyMode.ImportAlert | src/components/study/StudyMode.tsx:63-68 | an alert is raised unless the file parsed to something other than an array |
| StudyMode.NoElementValidation | src/components/study/StudyMode.tsx:63-66 | array elements are not checked: one the backup import would reject is forwarded |
| Sorting.SortBySorted | src/components/timeline/TimelineManager.tsx:59-62 | a sort with a total, transitive comparator leaves no record ahead of one it must follow |
| Sorting.SortByPermutation | src/components/timeline/TimelineManager.tsx:59-62 | sorting keeps every record as often as before |
| Sorting.SortByStable | src/components/timeline/TimelineManager.tsx:59-62 | records with an equal key keep their order |
| TimelineManager.NewestFirstIsOrder | src/components/timeline/TimelineManager.tsx:60 | newest first is a total, transitive order on dates |
| TimelineManager.NewerOrSame | src/components/timeline/TimelineManager.tsx:60 | the comparator `b.date - a.date`: `a` may come before `b` when it is not older; a total, transitive order by `TimelineManager.NewestFirstIsOrder` |
| TimelineManager.SortedEvents | src/components/timeline/TimelineManager.tsx:59-62 | `sortedEvents`: the events sorted newest first by a stable sort; a permutation that is ordered and stable by the two lemmas below |
| TimelineManager.SortedEventsNewestFirst | src/components/timeline/TimelineManager.tsx:59-62 | the sorted events are a permutation of the events, newest first |
| TimelineManager.SortedEventsStable | src/components/timeline/TimelineManager.tsx:59-62 | events on the same date keep the order they were added in |
| TimelineManager.FilteredEvents | src/components/timeline/TimelineManager.tsx:64-65 | `filteredEvents`: the sorted events, or those of the chosen type; stated by the three lemmas below |
| TimelineManager.FilteredEventsCount | src/components/timeline/TimelineManager.tsx:64-65 | with "all" every event is listed; with a type, exactly the events of that type, each as often as it occurs |
| TimelineManager.FilteredEventsNewestFirst | src/components/timeline/TimelineManager.tsx:64-65 | the filtered list is still newest first |
| TimelineManager.FilteredEventsKeepOrder | src/components/timeline/TimelineManager.tsx:64-65 | a type filter is the sorted list with the other types taken out, so every event listed has that type |
| TimelineManager.FormEvent | src/components/timeline/TimelineManager.tsx:67-73 | the submitted event has the new id and no linked documents, and carries every form field, the empty ones too |
| TimelineManager.FormEventKeepsForm | src/components/timeline/TimelineManager.tsx:69-72 | nothing typed into the form is lost in the event |
| TimelineManager.EditForm | src/components/timeline/TimelineManager.tsx:214-280 | no input reaches the legacy `evidenceRef` |
| TimelineManager.TimelineEditor.constructor | src/components/timeline/TimelineManager.tsx:37-57 | "all" is selected, the modal is closed and the form is `INITIAL_FORM`: type "address" and every other field empty |
| TimelineManager.TimelineEditor.SetFilter | src/components/timeline/TimelineManager.tsx:101 | a filter button selects its filter and nothing else |
| TimelineManager.TimelineEditor.Open | src/components/timeline/TimelineManager.tsx:89 | "Add Event" opens the modal on the form as it was left |
| TimelineManager.TimelineEditor.Close | src/components/timeline/TimelineManager.tsx:202 | closing the modal keeps what was typed |
| TimelineManager.TimelineEditor.Edit | src/components/timeline/TimelineManager.tsx:214-280 | typing changes one form field |
| TimelineManager.TimelineEditor.HandleSubmit | src/components/timeline/TimelineManager.tsx:67-252 | for a form whose required date and title are filled in, hands the form event with the fresh id to `addEvent` once: when the store is available the event is put under the id in the store and appended to the cache, otherwise neither changes; loading and error flags are kept, and so is the mirror; then closes the modal and resets the form to the initial form |
| TimelinePrintView.EventCategories | src/components/timeline/TimelinePrintView.tsx:20 | the configured category list, even an empty one, else the defaults (`TimelinePrintView.DefaultCategoryLabel`, `TimelinePrintView.EmptyCategoriesFallBack`) |
| TimelinePrintView.FallbackCategory | src/components/timeline/TimelinePrintView.tsx:23 | `{id: typeId, label: typeId, color: 'slate'}` for an unknown type |
| TimelinePrintView.GetCategory | src/components/timeline/TimelinePrintView.tsx:20-24 | the category has the type id and is a configured one (the settings' list, else the defaults) or the slate fallback; it is the first configured category with the id, and the fallback is used exactly when none matches |
| TimelinePrintView.DefaultCategoryLabel | src/components/timeline/TimelinePrintView.tsx:20-24 | without configured categories a "trip" shows as "Travel" |
| TimelinePrintView.EmptyCategoriesFallBack | src/components/timeline/TimelinePrintView.tsx:20-24 | a configured empty list makes every type fall back |
| TimelinePrintView.GetDocName | src/components/timeline/TimelinePrintView.tsx:26-29 | the name of the first document with the id, or the id itself when none matches or that name is empty |
| TimelinePrintView.LinkedDocsText | src/components/timeline/TimelinePrintView.tsx:82 | an event without linked documents shows an empty cell |
| TimelinePrintView.Join | src/components/timeline/TimelinePrintView.tsx:82 | `join(sep)`: empty for no parts, the part alone for one; `TimelinePrintView.JoinSnoc` gives how one more part is joined |
| TimelinePrintView.JoinSnoc | src/components/timeline/TimelinePrintView.tsx:82 | `join(', ')` puts the separator between one more part and the parts before it |
| TimelinePrintView.LinkedDocsSingle | src/components/timeline/TimelinePrintView.tsx:82 | one linked document shows its display name alone |
| TimelinePrintView.LinkedDocsAppend | src/components/timeline/TimelinePrintView.tsx:82 | linking one more document appends `, ` and its display name, so the cell lists the names in link order |
| TimelinePrintView.InRange | src/components/timeline/TimelinePrintView.tsx:33-41 | the range test: an empty bound is ignored, a date before `from` or after `to` is dropped (`TimelinePrintView.InRangeBetween`) |
| TimelinePrintView.InRangeBetween | src/components/timeline/TimelinePrintView.tsx:31-41 | an event is kept exactly when it lies between whichever bounds are set; equal bounds keep just that date |
| TimelinePrintView.OlderOrSame | src/components/timeline/TimelinePrintView.tsx:42 | the comparator `a.date - b.date`: `a` may come before `b` when it is not later; a total, transitive order by `TimelinePrintView.OldestFirstIsOrder` |
| TimelinePrintView.OldestFirstIsOrder | src/components/timeline/TimelinePrintView.tsx:42 | oldest first is a total, transitive order on dates |
| TimelinePrintView.PrintEvents | src/components/timeline/TimelinePrintView.tsx:31-43 | `filteredAndSortedEvents`: the events in range, oldest first; count, order and stability are stated by the lemmas below |
| TimelinePrintView.PrintEventsCount | src/components/timeline/TimelinePrintView.tsx:31-43 | each event in range is printed as often as it occurs, and no other event is printed |
| TimelinePrintView.PrintEventsOldestFirst | src/components/timeline/TimelinePrintView.tsx:42 | the printed events are oldest first |
| TimelinePrintView.PrintEventsStable | src/components/timeline/TimelinePrintView.tsx:42 | among the printed events, those on one date keep their order |
| TimelinePrintView.UnboundedPrintsAll | src/components/timeline/TimelinePrintView.tsx:31-43 | without bounds every event is printed |
| TimelinePrintView.FormatDateRange | src/components/timeline/TimelinePrintView.tsx:45-54 | `formatDateRange`: the heading in its four cases; stated by the two lemmas below |
| TimelinePrintView.AllDatesOnlyUnbounded | src/components/timeline/TimelinePrintView.tsx:45-54 | the heading reads "All dates" exactly when no bound is set |
| TimelinePrintView.DateRangeNamesBounds | src/components/timeline/TimelinePrintView.tsx:45-54 | the heading ends with the upper bound when it is set, and otherwise with the lower one; with both set, it starts with the lower one |
| TimelinePrintView.HasEvidence | src/components/timeline/TimelinePrintView.tsx:83 | `hasEvidence`: a non-empty list of linked documents or a non-empty evidence link (`TimelinePrintView.EvidenceIgnoresRef`, `TimelinePrintView.FormEventEvidence`) |
| TimelinePrintView.EvidenceIgnoresRef | src/components/timeline/TimelinePrintView.tsx:83 | the legacy `evidenceRef` never decides whether evidence is shown |
| TimelinePrintView.FormEventEvidence | src/components/timeline/TimelinePrintView.tsx:83 | an event added through the form shows evidence exactly when a link was typed |

## Left out

- IndexedDB plumbing is not modelled: `openDB`, the upgrade callback, the `by-date` and `by-section` indexes, and the memoised `getDB`. The model keeps the six collections directly as maps.
- Asynchrony is not modelled. Every `await`, every `Promise.all`, and the hook's writes are run in sequence. That includes `clearAllData`'s separate clears, which are not one transaction: the model does not claim they are atomic.
- Storage failure is one flag per store, `available`, which stays fixed for the store's lifetime. An operation that fails part-way, with some writes made and some not, is not modelled. The cache is left unchanged whenever the write fails.
- Db.Store.GetAllEvents, Db.Store.GetAllQuestions, Db.Store.GetAllDocuments: these fix the records returned but not their order. IndexedDB returns them in key order, and the model leaves the order open.
- `JSON.parse` is not modelled. The import takes an already-parsed `Json` value, or `Unparseable`.
- JSON numbers are integers. Floating point is not modelled: a question id or a mastery key like `1.5` cannot be expressed.
- Text.ParseNumber: `Number(key)` is approximated. The empty string reads as 0, an optional sign followed by decimal digits reads as that integer, and anything else is NaN. The source also accepts hexadecimal, exponents, fractions, surrounding whitespace and "Infinity".
- Codec.DecodeEvent, Codec.DecodeQuestion, Codec.DecodeDocument, Codec.DecodeSettings: validated JSON records are decoded to typed records, whereas the source stores the validated objects as they are (`src/lib/storage/export-import.ts:106-154`). The differences:
  - keys outside a record's fields are dropped, so they do not survive a later export;
  - optional fields of the wrong JSON type read as absent;
  - one malformed `eventCategories` element makes the whole list absent, whereas the source keeps the array and its well-formed entries still match in `find`;
  - a document without `meta`, or with a non-object one, gets an empty `meta`, whereas the source stores it without one.
- ExportImport.FailedImportWritesNothing: in the source each `saveAll*` and `saveSettings` call commits on its own. A storage failure part-way through an import returns `success: false` with the earlier collections already written. The model's store is available or not for its whole lifetime, so it does not capture this.
- ExportImport.CollectNotes, ExportImport.NotesFrom, ExportImport.ImportData, Db.NonEmptyNotes, Db.NotesView, Db.Store.GetNotes: notes are keyed by plain strings, and the key `"__proto__"` is treated like any other. In the source, `validNotes[key] = value` (`src/lib/storage/export-import.ts:146`) and `acc[record.id] = record.content` (`src/lib/storage/db.ts:183`) assign to a plain object. For that key, the assignment runs the prototype setter, which ignores a string, so the note is dropped. An import of `{"notes": {"__proto__": "x"}}` therefore writes no note in the source, and `getNotes` never yields such a note. The model writes it and yields it. Object prototypes are not modelled. Note ids the views create carry a prefix, so only a hand-edited backup reaches this case.
- TimelineManager.TimelineEditor.HandleSubmit: the browser's `required` date and title are a precondition. The `type="url"` check on the evidence link (`src/components/timeline/TimelineManager.tsx:276`) and the date input's format are not modelled: any text is accepted there.
- The 100 civics questions are not transcribed. `src/data/civics-2008.ts` is a parameter, `bank`.
- Dates are not parsed. They are the `YYYY-MM-DD` strings the forms produce, compared as text: for such strings this is the order of `new Date` values.
- TimelinePrintView.InRangeBetween: an event whose date does not parse is kept by the source, because every comparison with an invalid date is false. The model compares its text with each set bound, so whether it is kept depends on text order: for example, "x" is kept under `from` = "2024-01-01" and dropped under `to` = "2024-12-31".
- `Date.now()` ids and `new Date().toISOString()` timestamps are parameters.
- The 200 ms `setTimeout` before the card index moves is not modelled. The flip and the move happen in one step.
- File and browser I/O is not modelled: `downloadBackup`, `importFromFile`, Blob, FileReader, the download anchor, `alert`, `confirm` and the page reload. The alert texts of the question import are modelled as values (`StudyMode.ImportAlert`).
- StudyMode.HandleImport: the forwarded array stays untyped JSON. The hook's `setAllQuestions` takes typed questions, and the unchecked conversion in between is not modelled.
- StudyMode's question export (`handleExport`) is a download and is not modelled.
- `handleDelete` in TimelineManager is a `confirm` and then the hook's `deleteEvent`. Only the latter is modelled.
- The rendering of every view is not modelled: colours, icons and the plural text. Nor are the other components (Dashboard, Settings, IntegratedNote, ProgressBar and the UI kit) or the legacy `src/App.jsx` prototype.
- UseStorage.StorageHook.LoadData: a failure is all-or-nothing. Either every read succeeds or the data is left at its defaults, and a failure during seeding is not modelled.
