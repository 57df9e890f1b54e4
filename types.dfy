/** The records of the application (src/types/index.ts). A TypeScript optional field
    (`field?: T`) is an `Option<T>`; identifiers are strings except question ids, which
    are numbers (modelled as integers). */
module Types {
  import opened Wrappers

  /** A timeline category: id, display label (`label` in the source; `label` is a Dafny keyword) and a colour token. */
  datatype EventCategory = EventCategory(id: string, labelText: string, color: string)

  const DEFAULT_EVENT_CATEGORIES: seq<EventCategory> := [
    EventCategory("address", "Address", "green"),
    EventCategory("employment", "Employment", "blue"),
    EventCategory("trip", "Travel", "purple"),
    EventCategory("tax", "Tax", "amber"),
    EventCategory("legal", "Legal", "red"),
    EventCategory("other", "Other", "slate")
  ]

  /** A life event. Required: id, date, type (an open category id) and title.
      `evidenceRef` is the legacy single-string reference kept for reading old data. */
  datatype TimelineEvent = TimelineEvent(
    id: string,
    date: string,
    endDate: Option<string>,
    eventType: string,
    title: string,
    desc: Option<string>,
    linkedDocIds: Option<seq<string>>,
    evidenceLink: Option<string>,
    evidenceRef: Option<string>)

  /** A civics flashcard; its numeric id is its key. */
  datatype CivicsQuestion = CivicsQuestion(id: int, q: string, a: string, section: string)

  /** The five checklist stages, in the order a document moves through them. */
  datatype DocumentStatus = Missing | Found | Copied | Uploaded | Packed {
    /** The string the application stores for the stage. */
    function Label(): string {
      match this
      case Missing => "missing"
      case Found => "found"
      case Copied => "copied"
      case Uploaded => "uploaded"
      case Packed => "packed"
    }
  }

  /** Reads a stored status string back as a stage; None for any other string. */
  function ParseStatus(text: string): (r: Option<DocumentStatus>)
    ensures r.Some? ==> r.value.Label() == text
    ensures r.None? ==> forall s: DocumentStatus :: s.Label() != text
  {
    if text == "missing" then Some(Missing)
    else if text == "found" then Some(Found)
    else if text == "copied" then Some(Copied)
    else if text == "uploaded" then Some(Uploaded)
    else if text == "packed" then Some(Packed)
    else None
  }

  /** Exactly five stages, told apart by their labels. */
  lemma StatusLabelsRoundTrip(s: DocumentStatus)
    ensures ParseStatus(s.Label()) == Some(s)
  {
  }

  datatype DocumentMeta = DocumentMeta(expiry: Option<string>, issuer: Option<string>, location: Option<string>)

  const EMPTY_META := DocumentMeta(None, None, None)

  /** A checklist document. `status` holds a stage label; an imported record may carry any
      string there (the import check only asks for a string), so it is kept as a string.
      `parentId` groups a document under another one. */
  datatype Document = Document(
    id: string,
    name: string,
    status: string,
    required: bool,
    notes: Option<string>,
    meta: DocumentMeta,
    parentId: Option<string>,
    isCustom: Option<bool>,
    submittedToUSCIS: Option<bool>)

  /** The singleton profile record. */
  datatype UserSettings = UserSettings(
    name: string,
    arrivalDate: Option<string>,
    greenCardDate: Option<string>,
    filingDate: Option<string>,
    interviewDate: Option<string>,
    darkMode: Option<bool>,
    eventCategories: Option<seq<EventCategory>>,
    alienNumber: Option<string>,
    alienNumberBlurred: Option<bool>)

  /** Settings with only a name. */
  function NamedSettings(name: string): UserSettings {
    UserSettings(name, None, None, None, None, None, None, None, None)
  }

  /** Question id to mastered flag; presence with `true` means mastered. */
  type MasteryStore = map<int, bool>

  /** Whether a question counts as mastered (`mastery[id]` is truthy). */
  predicate IsMastered(m: MasteryStore, id: int) {
    id in m && m[id]
  }

  /** Note-scope key to note text. */
  type NotesStore = map<string, string>

  /** The export/import snapshot: the six data kinds plus a format version and a timestamp. */
  datatype AppData = AppData(
    events: seq<TimelineEvent>,
    questions: seq<CivicsQuestion>,
    docs: seq<Document>,
    mastery: MasteryStore,
    notes: NotesStore,
    settings: UserSettings,
    version: string,
    exportedAt: string)

  function EventKey(e: TimelineEvent): string { e.id }
  function QuestionKey(q: CivicsQuestion): int { q.id }
  function DocumentKey(d: Document): string { d.id }
  function CategoryKey(c: EventCategory): string { c.id }

  /** The six default categories have pairwise distinct ids, one of them "other". */
  lemma DefaultCategories()
    ensures |DEFAULT_EVENT_CATEGORIES| == 6
    ensures forall i, j :: 0 <= i < j < 6 ==> DEFAULT_EVENT_CATEGORIES[i].id != DEFAULT_EVENT_CATEGORIES[j].id
    ensures DEFAULT_EVENT_CATEGORIES[5] == EventCategory("other", "Other", "slate")
  {
  }
}
