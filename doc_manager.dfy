/** The status progression and metadata edits of the document checklist
    (src/components/documents/DocManager.tsx). Each handler builds the new record and
    hands it to `onUpdateDocument`; here each is the function that builds it. */
module DocManager {
  import opened Wrappers
  import opened Types
  import opened Seqs

  /** The checklist stages in order. */
  const STATUS_ORDER: seq<DocumentStatus> := [Missing, Found, Copied, Uploaded, Packed]

  function StatusLabel(s: DocumentStatus): string { s.Label() }

  /** `STATUS_ORDER.indexOf(status)`: the position of a stored label, -1 for any other string. */
  function StatusIndex(status: string): (i: int)
    ensures -1 <= i < |STATUS_ORDER|
    ensures i >= 0 ==> STATUS_ORDER[i].Label() == status
    ensures i == -1 <==> ParseStatus(status).None?
  {
    var labels := MapSeq(STATUS_ORDER, StatusLabel);
    var i := IndexOf(labels, status);
    if i == -1 then
      assert forall s: DocumentStatus :: s.Label() != status by {
        forall s: DocumentStatus ensures s.Label() != status {
          assert s == STATUS_ORDER[Position(s)];
          assert labels[Position(s)] == s.Label();
        }
      }
      i
    else i
  }

  /** Where a stage stands in `STATUS_ORDER`. */
  function Position(s: DocumentStatus): (i: nat)
    ensures i < |STATUS_ORDER| && STATUS_ORDER[i] == s
  {
    match s
    case Missing => 0
    case Found => 1
    case Copied => 2
    case Uploaded => 3
    case Packed => 4
  }

  function Min(a: int, b: int): int { if a <= b then a else b }

  /** `advanceStatus`: the stage after the current one, clamped at the last. */
  function AdvanceStatus(doc: Document): Document {
    var idx := StatusIndex(doc.status);
    doc.(status := STATUS_ORDER[Min(idx + 1, |STATUS_ORDER| - 1)].Label())
  }

  /** Each stage but the last advances to the next one. */
  lemma AdvanceMovesOneStep(doc: Document, s: DocumentStatus)
    requires doc.status == s.Label() && s != Packed
    ensures AdvanceStatus(doc).status == STATUS_ORDER[Position(s) + 1].Label()
  {
    StatusLabelsRoundTrip(s);
    assert StatusIndex(doc.status) == Position(s);
  }

  /** Advancing `packed` keeps `packed`. */
  lemma AdvancePackedStays(doc: Document)
    requires doc.status == "packed"
    ensures AdvanceStatus(doc).status == "packed"
  {
    assert StatusIndex(doc.status) == 4;
  }

  /** A string that is no stage (index -1) advances to `missing`. */
  lemma AdvanceUnknownToMissing(doc: Document)
    requires ParseStatus(doc.status).None?
    ensures AdvanceStatus(doc).status == "missing"
  {
  }

  /** Advancing never moves a document back in `STATUS_ORDER`, and moves it forward unless
      it is packed. */
  lemma AdvanceNeverLowers(doc: Document)
    ensures StatusIndex(AdvanceStatus(doc).status) >= StatusIndex(doc.status)
    ensures doc.status != "packed" ==> StatusIndex(AdvanceStatus(doc).status) > StatusIndex(doc.status)
  {
    var i := StatusIndex(doc.status);
    var j := Min(i + 1, |STATUS_ORDER| - 1);
    StatusLabelsRoundTrip(STATUS_ORDER[j]);
    assert StatusIndex(STATUS_ORDER[j].Label()) == Position(STATUS_ORDER[j]) == j;
  }

  /** Five advances from `missing` give found, copied, uploaded, packed, packed. */
  lemma FiveAdvancesFromMissing(doc: Document)
    requires doc.status == "missing"
    ensures AdvanceStatus(doc).status == "found"
    ensures AdvanceStatus(AdvanceStatus(doc)).status == "copied"
    ensures AdvanceStatus(AdvanceStatus(AdvanceStatus(doc))).status == "uploaded"
    ensures AdvanceStatus(AdvanceStatus(AdvanceStatus(AdvanceStatus(doc)))).status == "packed"
    ensures AdvanceStatus(AdvanceStatus(AdvanceStatus(AdvanceStatus(AdvanceStatus(doc))))).status == "packed"
  {
    var d1 := AdvanceStatus(doc);
    AdvanceMovesOneStep(doc, Missing);
    var d2 := AdvanceStatus(d1);
    AdvanceMovesOneStep(d1, Found);
    var d3 := AdvanceStatus(d2);
    AdvanceMovesOneStep(d2, Copied);
    var d4 := AdvanceStatus(d3);
    AdvanceMovesOneStep(d3, Uploaded);
    AdvancePackedStays(d4);
  }

  /** Advancing changes the status and nothing else. */
  lemma AdvanceOnlyStatus(doc: Document)
    ensures AdvanceStatus(doc).(status := doc.status) == doc
    ensures ParseStatus(AdvanceStatus(doc).status).Some?
  {
    var j := Min(StatusIndex(doc.status) + 1, |STATUS_ORDER| - 1);
    StatusLabelsRoundTrip(STATUS_ORDER[j]);
  }

  /** `resetStatus`: back to `missing`, every other field kept. */
  function ResetStatus(doc: Document): (r: Document)
    ensures r.status == "missing" && StatusIndex(r.status) == 0
    ensures r.(status := doc.status) == doc
  {
    assert StatusIndex("missing") == 0 by {
      StatusLabelsRoundTrip(Missing);
    }
    doc.(status := "missing")
  }

  /** The three metadata fields an edit can name. */
  datatype MetaKey = Expiry | Issuer | Location

  function MetaValue(m: DocumentMeta, field: MetaKey): Option<string> {
    match field
    case Expiry => m.expiry
    case Issuer => m.issuer
    case Location => m.location
  }

  /** `updateMeta`: the named field set to `value`. */
  function UpdateMeta(doc: Document, field: MetaKey, value: string): (r: Document)
    ensures MetaValue(r.meta, field) == Some(value)
    ensures forall f :: f != field ==> MetaValue(r.meta, f) == MetaValue(doc.meta, f)
    ensures r.(meta := doc.meta) == doc
  {
    var m := doc.meta;
    doc.(meta := match field
      case Expiry => m.(expiry := Some(value))
      case Issuer => m.(issuer := Some(value))
      case Location => m.(location := Some(value)))
  }

  /** Editing a field twice keeps the second value; editing it back restores the record. */
  lemma UpdateMetaLastWins(doc: Document, field: MetaKey, a: string, b: string)
    ensures UpdateMeta(UpdateMeta(doc, field, a), field, b) == UpdateMeta(doc, field, b)
    ensures MetaValue(doc.meta, field) == Some(a) ==> UpdateMeta(doc, field, a) == doc
  {
  }
}
