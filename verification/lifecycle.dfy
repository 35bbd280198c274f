/**
 * The life of an uploaded document's record: a placeholder while the AI is
 * at work, then exactly one of the processed, AI-failed or PDF-stub updates.
 * The browser upload and the server route write the same updates.
 */
module Lifecycle {
  import opened Wrappers
  import opened Text
  import opened Records

  const Processing: string := "Processing..."
  const ProcessingFailed: string := "Processing Failed"
  const FailureSummary: string := "Could not analyze this document."
  const PdfType: string := "PDF Document"
  const PdfSummary: string := "PDF content analysis is not yet supported."

  /**
   * The metadata flow's output. `expiryDate` arrives as a date, kept here as
   * milliseconds since the epoch.
   */
  datatype Metadata = Metadata(
    owner: string,
    company: Option<string>,
    documentType: string,
    expiryDate: Option<int>,
    country: Option<string>,
    keywords: seq<string>,
    summary: string)

  /** The fields an update never writes: which file, whose, where, when. */
  predicate SameFile(a: Document, b: Document) {
    && a.id == b.id && a.userId == b.userId && a.fileName == b.fileName && a.fileUrl == b.fileUrl
    && a.mimeType == b.mimeType && a.storagePath == b.storagePath && a.driveFileId == b.driveFileId
    && a.folderId == b.folderId && a.uploadedAt == b.uploadedAt
  }

  /** The analysed fields a placeholder starts with. */
  predicate IsPlaceholder(d: Document) {
    && d.owner == Some(Processing) && d.docType == Some(Processing) && d.summary == Some(Processing)
    && d.keywords == Some([]) && d.expiry.None? && d.isProcessing
  }

  /**
   * The successful update as the code writes it: the metadata object is
   * spread into the record, so `owner`, `company`, `country` and `summary`
   * land on their fields, the keyword flow's list replaces the keywords and
   * processing ends; but the metadata names the type `documentType` and the
   * expiry `expiryDate`, which are not the record's `type` and `expiry`, so
   * those two keep whatever the record held.
   */
  function ApplyMetadataAsWritten(d: Document, m: Metadata, keywords: seq<string>): (r: Document)
    ensures SameFile(r, d)
    ensures r.owner == Some(m.owner) && r.company == m.company && r.country == m.country
    ensures r.summary == Some(m.summary) && r.keywords == Some(keywords) && !r.isProcessing
    ensures r.docType == d.docType && r.expiry == d.expiry && r.textContent == d.textContent
  {
    d.(owner := Some(m.owner), company := m.company, country := m.country,
       summary := Some(m.summary), keywords := Some(keywords), isProcessing := false)
  }

  /** As written, a processed placeholder keeps the type "Processing..." and no expiry, whatever the AI found. */
  lemma AsWrittenKeepsPlaceholderType(d: Document, m: Metadata, keywords: seq<string>)
    requires IsPlaceholder(d)
    ensures ApplyMetadataAsWritten(d, m, keywords).docType == Some(Processing)
    ensures ApplyMetadataAsWritten(d, m, keywords).expiry.None?
  {
  }

  /** A passport with an expiry date, processed as written: the record still says "Processing..." and never expires. */
  lemma AsWrittenLosesPassport(d: Document)
    requires IsPlaceholder(d)
    ensures var m := Metadata("Ada Lovelace", None, "Passport", Some(1_900_000_000_000), Some("United Kingdom"), [], "A passport.");
      var r := ApplyMetadataAsWritten(d, m, ["passport"]);
      && !r.isProcessing && r.docType == Some(Processing) && r.docType != Some(m.documentType)
      && r.expiry.None? && r.expiry != m.expiryDate
  {
  }

  /** The successful update as intended: the metadata's type and expiry land on `type` and `expiry` too. */
  function ApplyMetadata(d: Document, m: Metadata, keywords: seq<string>): (r: Document)
    ensures SameFile(r, d)
    ensures r.owner == Some(m.owner) && r.company == m.company && r.country == m.country
    ensures r.summary == Some(m.summary) && r.keywords == Some(keywords) && !r.isProcessing
    ensures r.docType == Some(m.documentType) && r.expiry == m.expiryDate
    ensures r.textContent == d.textContent
  {
    ApplyMetadataAsWritten(d, m, keywords).(docType := Some(m.documentType), expiry := m.expiryDate)
  }

  /** The intended update leaves a placeholder's type exactly when the AI itself answered "Processing...". */
  lemma IntendedUpdateRecordsTheType(d: Document, m: Metadata, keywords: seq<string>)
    requires IsPlaceholder(d)
    ensures ApplyMetadata(d, m, keywords).docType == ApplyMetadataAsWritten(d, m, keywords).docType
      <==> m.documentType == Processing
  {
  }

  /** The AI-failed update: the file name stands in for the owner and the type says processing failed. */
  function MarkFailed(d: Document, fileName: string): (r: Document)
    ensures SameFile(r, d)
    ensures r.owner == Some(fileName) && r.docType == Some(ProcessingFailed)
    ensures r.summary == Some(FailureSummary) && !r.isProcessing
    ensures r.keywords == d.keywords && r.company == d.company && r.country == d.country
    ensures r.expiry == d.expiry && r.textContent == d.textContent
  {
    d.(owner := Some(fileName), docType := Some(ProcessingFailed), summary := Some(FailureSummary), isProcessing := false)
  }

  /** The non-image update: a PDF stub keyed by the file name up to its first dot. */
  function MarkPdf(d: Document, fileName: string): (r: Document)
    ensures SameFile(r, d)
    ensures r.owner == Some(fileName) && r.docType == Some(PdfType)
    ensures r.summary == Some(PdfSummary) && !r.isProcessing
    ensures r.keywords.Some? && |r.keywords.value| == 1
    ensures r.company == d.company && r.country == d.country && r.expiry == d.expiry
  {
    d.(owner := Some(fileName), docType := Some(PdfType), keywords := Some([Split(fileName, ".")[0]]),
       summary := Some(PdfSummary), isProcessing := false)
  }

  /**
   * The PDF stub's one keyword is the file name before its first dot: the
   * whole name when there is no dot, and otherwise a dot-free prefix followed
   * by a dot.
   */
  lemma PdfKeywordIsStem(d: Document, fileName: string)
    ensures var k := MarkPdf(d, fileName).keywords.value[0];
      && |k| <= |fileName| && fileName[..|k|] == k && !Contains(k, ".")
      && (k == fileName <==> !Contains(fileName, "."))
      && (k != fileName ==> fileName[|k|] == '.')
  {
    SplitHead(fileName, ".");
    var k := Split(fileName, ".")[0];
    if k != fileName {
      assert fileName[|k|..|k| + 1] == ".";
    }
  }

  /** The three ways out of a placeholder. */
  datatype Outcome = Analysed(m: Metadata, keywords: seq<string>) | AnalysisFailed | PdfStub

  /** The record after processing ends, with the intended successful update. */
  function Settle(d: Document, fileName: string, outcome: Outcome): (r: Document)
    ensures SameFile(r, d) && !r.isProcessing
    ensures outcome.Analysed? ==> r.docType == Some(outcome.m.documentType)
    ensures outcome.AnalysisFailed? ==> r.docType == Some(ProcessingFailed) && r.owner == Some(fileName)
    ensures outcome.PdfStub? ==> r.docType == Some(PdfType) && r.owner == Some(fileName)
  {
    match outcome
    case Analysed(m, keywords) => ApplyMetadata(d, m, keywords)
    case AnalysisFailed => MarkFailed(d, fileName)
    case PdfStub => MarkPdf(d, fileName)
  }

  /** Whichever way processing ends, the record leaves the placeholder state for good. */
  lemma SettledIsNoLongerPlaceholder(d: Document, fileName: string, outcome: Outcome)
    ensures !IsPlaceholder(Settle(d, fileName, outcome))
  {
  }
}
