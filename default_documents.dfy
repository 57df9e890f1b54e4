/** The seeded N-400 document checklist (src/data/default-documents.ts). */
module DefaultDocuments {
  import opened Wrappers
  import opened Types
  import Seqs

  function Seed(id: string, name: string, required: bool, notes: string, expiry: string, issuer: string): Document {
    Document(id, name, "missing", required, Some(notes),
             DocumentMeta(Some(expiry), Some(issuer), Some("")), None, None, None)
  }

  const DEFAULT_DOCUMENTS: seq<Document> := [
    Seed("d1", "Permanent Resident Card (Green Card)", true, "Front & Back copy - Current card", "", "USCIS"),
    Seed("d2", "Driver's License / State ID", true, "Current and valid government-issued photo ID", "", "DMV"),
    Seed("d3", "All Passports (Current & Expired)", true, "All passports held during the statutory period", "", ""),
    Seed("d4", "Marriage Certificate", false, "If applying based on marriage to U.S. citizen", "N/A", ""),
    Seed("d5", "Divorce/Annulment Decrees", false, "For all prior marriages (if applicable)", "N/A", ""),
    Seed("d6", "Tax Transcripts (5 Years)", true, "IRS Form 1040 transcripts or returns for past 5 years", "N/A", "IRS"),
    Seed("d7", "Employment History Records", false, "W-2s, pay stubs, or letters from employers for past 5 years", "N/A", ""),
    Seed("d8", "Travel Records", false, "Records of all trips outside the U.S. during statutory period", "N/A", ""),
    Seed("d9", "Address History", false, "Documentation of all addresses for past 5 years", "N/A", ""),
    Seed("d10", "Court/Arrest Records", false, "If applicable - certified copies of all records", "N/A", ""),
    Seed("d11", "Selective Service Registration", false, "For males who were 18-25 in the U.S.", "N/A", "SSS"),
    Seed("d12", "Child Support Documentation", false, "If applicable - proof of compliance with support orders", "N/A", "")
  ]

  const SEED_IDS := ["d1", "d2", "d3", "d4", "d5", "d6", "d7", "d8", "d9", "d10", "d11", "d12"]

  /** There are twelve seeds. */
  lemma SeedCount()
    ensures |DEFAULT_DOCUMENTS| == 12
  {
  }

  /** The seeds carry the ids d1 to d12, in that order. */
  lemma SeedIds()
    ensures Seqs.MapSeq(DEFAULT_DOCUMENTS, DocumentKey) == SEED_IDS
  {
  }

  /** No two seeds share an id, so seeding puts twelve records. */
  lemma DistinctSeeds()
    ensures Seqs.DistinctKeys(DEFAULT_DOCUMENTS, DocumentKey)
  {
    SeedIds();
    assert forall i, j :: 0 <= i < j < |SEED_IDS| ==> SEED_IDS[i] != SEED_IDS[j];
  }

  /** Every seed starts missing. */
  lemma SeedsStartMissing()
    ensures forall i :: 0 <= i < |DEFAULT_DOCUMENTS| ==> DEFAULT_DOCUMENTS[i].status == "missing"
  {
  }

  /** No seed belongs to a parent, so the checklist starts flat. */
  lemma SeedsUngrouped()
    ensures forall i :: 0 <= i < |DEFAULT_DOCUMENTS| ==> DEFAULT_DOCUMENTS[i].parentId.None?
  {
  }

  /** Exactly d1, d2, d3 and d6 are required. */
  lemma RequiredSeeds()
    ensures Seqs.MapSeq(DEFAULT_DOCUMENTS, (d: Document) => d.required)
         == [true, true, true, false, false, true, false, false, false, false, false, false]
  {
  }
}
