/** The JSON shape of each record: what `JSON.stringify` writes for it in a backup, and the
    typed record a validated JSON value stands for once it is stored. A field that
    `JSON.stringify` leaves out is an absent optional field; an optional field of the wrong
    JSON type reads as absent. */
module Codec {
  import opened Wrappers
  import opened Types
  import opened Json
  import Seqs
  import Text

  function OptStr(o: Option<string>): Option<Json> {
    if o.Some? then Some(JStr(o.value)) else None
  }

  function OptBool(o: Option<bool>): Option<Json> {
    if o.Some? then Some(JBool(o.value)) else None
  }

  function StrJson(s: string): Json { JStr(s) }

  function StrList(l: seq<string>): Json {
    JArr(Seqs.MapSeq(l, StrJson))
  }

  /** A string field's text; only read once validation has shown the field is a string. */
  function StrField(v: Json, key: string): string {
    match Field(v, key)
    case Some(JStr(s)) => s
    case _ => ""
  }

  function OptStrField(v: Json, key: string): (r: Option<string>)
    ensures r.Some? <==> Field(v, key).Some? && Field(v, key).value.JStr?
  {
    match Field(v, key)
    case Some(JStr(s)) => Some(s)
    case _ => None
  }

  function OptBoolField(v: Json, key: string): Option<bool> {
    match Field(v, key)
    case Some(JBool(b)) => Some(b)
    case _ => None
  }

  function JsonText(j: Json): string {
    if j.JStr? then j.s else ""
  }

  predicate IsStr(j: Json) { j.JStr? }

  /** An array of strings, read as a list of strings. */
  function OptStrListField(v: Json, key: string): Option<seq<string>> {
    match Field(v, key)
    case Some(JArr(items)) =>
      if forall i :: 0 <= i < |items| ==> items[i].JStr? then Some(Seqs.MapSeq(items, JsonText)) else None
    case _ => None
  }

  lemma StrListRoundTrip(l: seq<string>)
    ensures Seqs.MapSeq(StrList(l).items, JsonText) == l
  {
  }

  // ---- timeline events ----

  const EVENT_KEYS := {"id", "date", "endDate", "type", "title", "desc", "linkedDocIds", "evidenceLink", "evidenceRef"}

  function EventField(e: TimelineEvent, k: string): Option<Json> {
    if k == "id" then Some(JStr(e.id))
    else if k == "date" then Some(JStr(e.date))
    else if k == "endDate" then OptStr(e.endDate)
    else if k == "type" then Some(JStr(e.eventType))
    else if k == "title" then Some(JStr(e.title))
    else if k == "desc" then OptStr(e.desc)
    else if k == "linkedDocIds" then (if e.linkedDocIds.Some? then Some(StrList(e.linkedDocIds.value)) else None)
    else if k == "evidenceLink" then OptStr(e.evidenceLink)
    else if k == "evidenceRef" then OptStr(e.evidenceRef)
    else None
  }

  /** `JSON.stringify` leaves out the optional fields that are `undefined`. */
  function EncodeEvent(e: TimelineEvent): Json {
    JObj(map k | k in EVENT_KEYS && EventField(e, k).Some? :: EventField(e, k).value)
  }

  lemma EventFieldOf(e: TimelineEvent, k: string)
    ensures Field(EncodeEvent(e), k) == if k in EVENT_KEYS then EventField(e, k) else None
  {
  }

  function DecodeEvent(v: Json): TimelineEvent {
    TimelineEvent(StrField(v, "id"), StrField(v, "date"), OptStrField(v, "endDate"),
                  StrField(v, "type"), StrField(v, "title"), OptStrField(v, "desc"),
                  OptStrListField(v, "linkedDocIds"), OptStrField(v, "evidenceLink"),
                  OptStrField(v, "evidenceRef"))
  }

  lemma EventRoundTrip(e: TimelineEvent)
    ensures DecodeEvent(EncodeEvent(e)) == e
  {
    EventFieldOf(e, "id");
    EventFieldOf(e, "date");
    EventFieldOf(e, "endDate");
    EventFieldOf(e, "type");
    EventFieldOf(e, "title");
    EventFieldOf(e, "desc");
    EventFieldOf(e, "linkedDocIds");
    EventFieldOf(e, "evidenceLink");
    EventFieldOf(e, "evidenceRef");
    if e.linkedDocIds.Some? {
      StrListRoundTrip(e.linkedDocIds.value);
    }
  }

  // ---- questions ----

  function EncodeQuestion(q: CivicsQuestion): Json {
    JObj(map["id" := JNum(q.id), "q" := JStr(q.q), "a" := JStr(q.a), "section" := JStr(q.section)])
  }

  function DecodeQuestion(v: Json): CivicsQuestion {
    var id := match Field(v, "id") case Some(JNum(n)) => n case _ => 0;
    CivicsQuestion(id, StrField(v, "q"), StrField(v, "a"), StrField(v, "section"))
  }

  lemma QuestionRoundTrip(q: CivicsQuestion)
    ensures DecodeQuestion(EncodeQuestion(q)) == q
  {
  }

  // ---- documents ----

  function MetaField(m: DocumentMeta, k: string): Option<Json> {
    if k == "expiry" then OptStr(m.expiry)
    else if k == "issuer" then OptStr(m.issuer)
    else if k == "location" then OptStr(m.location)
    else None
  }

  const META_KEYS := {"expiry", "issuer", "location"}

  function EncodeMeta(m: DocumentMeta): Json {
    JObj(map k | k in META_KEYS && MetaField(m, k).Some? :: MetaField(m, k).value)
  }

  lemma MetaFieldOf(m: DocumentMeta, k: string)
    ensures Field(EncodeMeta(m), k) == if k in META_KEYS then MetaField(m, k) else None
  {
  }

  /** A document's `meta` sub-record; a missing or non-object `meta` reads as empty. */
  function DecodeMeta(v: Json): DocumentMeta {
    match Field(v, "meta")
    case Some(m) => DocumentMeta(OptStrField(m, "expiry"), OptStrField(m, "issuer"), OptStrField(m, "location"))
    case None => EMPTY_META
  }

  const DOCUMENT_KEYS := {"id", "name", "status", "required", "notes", "meta", "parentId", "isCustom", "submittedToUSCIS"}

  function DocumentField(d: Document, k: string): Option<Json> {
    if k == "id" then Some(JStr(d.id))
    else if k == "name" then Some(JStr(d.name))
    else if k == "status" then Some(JStr(d.status))
    else if k == "required" then Some(JBool(d.required))
    else if k == "notes" then OptStr(d.notes)
    else if k == "meta" then Some(EncodeMeta(d.meta))
    else if k == "parentId" then OptStr(d.parentId)
    else if k == "isCustom" then OptBool(d.isCustom)
    else if k == "submittedToUSCIS" then OptBool(d.submittedToUSCIS)
    else None
  }

  function EncodeDocument(d: Document): Json {
    JObj(map k | k in DOCUMENT_KEYS && DocumentField(d, k).Some? :: DocumentField(d, k).value)
  }

  lemma DocumentFieldOf(d: Document, k: string)
    ensures Field(EncodeDocument(d), k) == if k in DOCUMENT_KEYS then DocumentField(d, k) else None
  {
  }

  function DecodeDocument(v: Json): Document {
    var required := match Field(v, "required") case Some(JBool(b)) => b case _ => false;
    Document(StrField(v, "id"), StrField(v, "name"), StrField(v, "status"), required,
             OptStrField(v, "notes"), DecodeMeta(v), OptStrField(v, "parentId"),
             OptBoolField(v, "isCustom"), OptBoolField(v, "submittedToUSCIS"))
  }

  lemma MetaRoundTrip(m: DocumentMeta)
    ensures DocumentMeta(OptStrField(EncodeMeta(m), "expiry"), OptStrField(EncodeMeta(m), "issuer"),
                         OptStrField(EncodeMeta(m), "location")) == m
  {
    MetaFieldOf(m, "expiry");
    MetaFieldOf(m, "issuer");
    MetaFieldOf(m, "location");
  }

  lemma DocumentRoundTrip(d: Document)
    ensures DecodeDocument(EncodeDocument(d)) == d
  {
    var o := EncodeDocument(d);
    DocumentFieldOf(d, "id");
    DocumentFieldOf(d, "name");
    DocumentFieldOf(d, "status");
    DocumentFieldOf(d, "required");
    DocumentFieldOf(d, "notes");
    DocumentFieldOf(d, "meta");
    DocumentFieldOf(d, "parentId");
    DocumentFieldOf(d, "isCustom");
    DocumentFieldOf(d, "submittedToUSCIS");
    MetaRoundTrip(d.meta);
    assert DecodeMeta(o) == d.meta;
  }

  // ---- settings ----

  function EncodeCategory(c: EventCategory): Json {
    JObj(map["id" := JStr(c.id), "label" := JStr(c.labelText), "color" := JStr(c.color)])
  }

  predicate IsCategory(j: Json) {
    OptStrField(j, "id").Some? && OptStrField(j, "label").Some? && OptStrField(j, "color").Some?
  }

  function DecodeCategory(j: Json): EventCategory {
    EventCategory(StrField(j, "id"), StrField(j, "label"), StrField(j, "color"))
  }

  /** A list of categories is read only when every element is a well-formed category. */
  function OptCategoriesField(v: Json, key: string): Option<seq<EventCategory>> {
    match Field(v, key)
    case Some(JArr(items)) =>
      if forall i :: 0 <= i < |items| ==> IsCategory(items[i]) then Some(Seqs.MapSeq(items, DecodeCategory)) else None
    case _ => None
  }

  const SETTINGS_KEYS := {"name", "arrivalDate", "greenCardDate", "filingDate", "interviewDate", "darkMode",
                          "eventCategories", "alienNumber", "alienNumberBlurred"}

  function SettingsField(s: UserSettings, k: string): Option<Json> {
    if k == "name" then Some(JStr(s.name))
    else if k == "arrivalDate" then OptStr(s.arrivalDate)
    else if k == "greenCardDate" then OptStr(s.greenCardDate)
    else if k == "filingDate" then OptStr(s.filingDate)
    else if k == "interviewDate" then OptStr(s.interviewDate)
    else if k == "darkMode" then OptBool(s.darkMode)
    else if k == "eventCategories" then
      (if s.eventCategories.Some? then Some(JArr(Seqs.MapSeq(s.eventCategories.value, EncodeCategory))) else None)
    else if k == "alienNumber" then OptStr(s.alienNumber)
    else if k == "alienNumberBlurred" then OptBool(s.alienNumberBlurred)
    else None
  }

  function EncodeSettings(s: UserSettings): Json {
    JObj(map k | k in SETTINGS_KEYS && SettingsField(s, k).Some? :: SettingsField(s, k).value)
  }

  lemma SettingsFieldOf(s: UserSettings, k: string)
    ensures Field(EncodeSettings(s), k) == if k in SETTINGS_KEYS then SettingsField(s, k) else None
  {
  }

  function DecodeSettings(v: Json): UserSettings {
    UserSettings(StrField(v, "name"), OptStrField(v, "arrivalDate"), OptStrField(v, "greenCardDate"),
                 OptStrField(v, "filingDate"), OptStrField(v, "interviewDate"), OptBoolField(v, "darkMode"),
                 OptCategoriesField(v, "eventCategories"), OptStrField(v, "alienNumber"),
                 OptBoolField(v, "alienNumberBlurred"))
  }

  lemma SettingsRoundTrip(s: UserSettings)
    ensures DecodeSettings(EncodeSettings(s)) == s
  {
    SettingsFieldOf(s, "name");
    SettingsFieldOf(s, "arrivalDate");
    SettingsFieldOf(s, "greenCardDate");
    SettingsFieldOf(s, "filingDate");
    SettingsFieldOf(s, "interviewDate");
    SettingsFieldOf(s, "darkMode");
    SettingsFieldOf(s, "eventCategories");
    SettingsFieldOf(s, "alienNumber");
    SettingsFieldOf(s, "alienNumberBlurred");
    if s.eventCategories.Some? {
      CategoriesRoundTrip(EncodeSettings(s), "eventCategories", s.eventCategories.value);
    }
  }

  /** An encoded list of categories reads back as the same list. */
  lemma CategoriesRoundTrip(v: Json, key: string, cs: seq<EventCategory>)
    requires Field(v, key) == Some(JArr(Seqs.MapSeq(cs, EncodeCategory)))
    ensures OptCategoriesField(v, key) == Some(cs)
  {
    var items := Seqs.MapSeq(cs, EncodeCategory);
    assert forall i :: 0 <= i < |items| ==> IsCategory(items[i]);
    assert Seqs.MapSeq(items, DecodeCategory) == cs;
  }

  // ---- mastery, notes and the whole snapshot ----

  /** The mastery record as a JSON object: `String(id)` to the flag. */
  function EncodeMastery(m: MasteryStore): Json {
    Text.IntToStringInjective();
    JObj(map n | n in m :: Text.IntToString(n) := JBool(m[n]))
  }

  function EncodeNotes(m: NotesStore): Json {
    JObj(map k | k in m :: JStr(m[k]))
  }

  const APP_DATA_KEYS := {"events", "questions", "docs", "mastery", "notes", "settings", "version", "exportedAt"}

  function AppDataField(d: AppData, k: string): Json {
    if k == "events" then JArr(Seqs.MapSeq(d.events, EncodeEvent))
    else if k == "questions" then JArr(Seqs.MapSeq(d.questions, EncodeQuestion))
    else if k == "docs" then JArr(Seqs.MapSeq(d.docs, EncodeDocument))
    else if k == "mastery" then EncodeMastery(d.mastery)
    else if k == "notes" then EncodeNotes(d.notes)
    else if k == "settings" then EncodeSettings(d.settings)
    else if k == "version" then JStr(d.version)
    else JStr(d.exportedAt)
  }

  /** The backup document: the six data keys plus `version` and `exportedAt`. */
  function EncodeAppData(d: AppData): Json {
    JObj(map k | k in APP_DATA_KEYS :: AppDataField(d, k))
  }

  lemma AppDataFieldOf(d: AppData, k: string)
    ensures Field(EncodeAppData(d), k) == if k in APP_DATA_KEYS then Some(AppDataField(d, k)) else None
  {
  }
}
