/**
 * The server upload route: the bearer-token check guarding uploads, and the
 * background processing that writes a placeholder record and then the
 * analysed or failed one. Token verification and the AI flows are
 * parameters.
 */
module UploadRoute {
  import opened Wrappers
  import opened Text
  import opened Records
  import opened Lifecycle

  /** What a verified ID token yields. */
  datatype DecodedToken = DecodedToken(uid: string)

  /** `auth.verifyIdToken`: the decoded token, or `None` where the call rejects. */
  type Verifier = string -> Option<DecodedToken>

  const BearerPrefix: string := "Bearer "

  /**
   * `authHeader.split('Bearer ')[1]`: present exactly when the header holds
   * "Bearer ", and then the text after the first "Bearer ", up to the next
   * "Bearer " or the end of the header.
   */
  function BearerToken(header: string): (token: Option<string>)
    ensures token.Some? <==> Contains(header, BearerPrefix)
    ensures token.Some? ==>
      var start := IndexOf(header, BearerPrefix).value + |BearerPrefix|;
      var t := token.value;
      && start + |t| <= |header|
      && header[start..start + |t|] == t
      && !Contains(t, BearerPrefix)
      && (start + |t| == |header| || OccursAt(header, BearerPrefix, start + |t|))
  {
    match IndexOf(header, BearerPrefix)
    case None => Element(Split(header, BearerPrefix), 1)
    case Some(i) =>
      TokenAfterFirstPrefix(header, i);
      TokenPlacement(header, i);
      Element(Split(header, BearerPrefix), 1)
  }

  /** The second piece of the split is the first piece of what follows the first "Bearer ". */
  lemma TokenAfterFirstPrefix(header: string, i: nat)
    requires IndexOf(header, BearerPrefix) == Some(i)
    ensures var start := i + |BearerPrefix|;
      var t := Split(header[start..], BearerPrefix)[0];
      && |Split(header, BearerPrefix)| >= 2 && Split(header, BearerPrefix)[1] == t
  {
    var start := i + |BearerPrefix|;
    var rest := header[start..];
    assert Split(header, BearerPrefix) == [header[..i]] + Split(rest, BearerPrefix);
  }

  /** The first piece after the first "Bearer " sits in the header right after it, and ends at the next "Bearer " or the end. */
  lemma TokenPlacement(header: string, i: nat)
    requires IndexOf(header, BearerPrefix) == Some(i)
    ensures var start := i + |BearerPrefix|;
      var t := Split(header[start..], BearerPrefix)[0];
      && start + |t| <= |header| && header[start..start + |t|] == t && !Contains(t, BearerPrefix)
      && (start + |t| == |header| || OccursAt(header, BearerPrefix, start + |t|))
  {
    var start := i + |BearerPrefix|;
    var rest := header[start..];
    SplitHead(rest, BearerPrefix);
    var t := Split(rest, BearerPrefix)[0];
    InSuffix(header, start, t);
  }

  /** What holds of a prefix of `s[start..]` holds of `s` at offset `start`. */
  lemma InSuffix(s: string, start: nat, t: string)
    requires start <= |s|
    requires |t| <= |s| - start && s[start..][..|t|] == t
    requires t == s[start..] || OccursAt(s[start..], BearerPrefix, |t|)
    ensures start + |t| <= |s| && s[start..start + |t|] == t
    ensures start + |t| == |s| || OccursAt(s, BearerPrefix, start + |t|)
  {
    var rest := s[start..];
    assert s[start..start + |t|] == rest[..|t|];
    if t != rest {
      assert s[start + |t|..start + |t| + |BearerPrefix|] == rest[|t|..|t| + |BearerPrefix|];
    }
  }

  /**
   * `getUser`: no user for a missing or empty header, for a header with no
   * non-empty piece after the first "Bearer ", or for a token verification
   * rejects; otherwise the verified token.
   */
  function GetUser(header: Option<string>, verify: Verifier): (user: Option<DecodedToken>)
    ensures !Truthy(header) ==> user.None?
    ensures Truthy(header) && !Truthy(BearerToken(header.value)) ==> user.None?
    ensures Truthy(header) && Truthy(BearerToken(header.value)) ==> user == verify(BearerToken(header.value).value)
  {
    if !Truthy(header) then None
    else
      var token := BearerToken(header.value);
      if !Truthy(token) then None
      else verify(token.value)
  }

  /** A well-formed header carries exactly its token to verification. */
  lemma WellFormedHeaderVerifiesToken(t: string, verify: Verifier)
    requires t != "" && !Contains(t, BearerPrefix)
    ensures GetUser(Some(BearerPrefix + t), verify) == verify(t)
  {
    var h := BearerPrefix + t;
    assert OccursAt(h, BearerPrefix, 0);
    assert IndexOf(h, BearerPrefix) == Some(0);
    assert h[7..] == t;
    assert Split(h, BearerPrefix) == [""] + Split(t, BearerPrefix);
  }

  /** A header without "Bearer " never reaches verification. */
  lemma HeaderWithoutBearerHasNoUser(h: string, verify: Verifier)
    requires !Contains(h, BearerPrefix)
    ensures GetUser(Some(h), verify).None?
  {
  }

  /** "Bearer " alone yields an empty token, hence no user. */
  lemma BareBearerHasNoUser(verify: Verifier)
    ensures GetUser(Some(BearerPrefix), verify).None?
  {
    WellFormedHeaderTail(BearerPrefix);
  }

  /** `"Bearer ".split("Bearer ")` is `["", ""]`. */
  lemma WellFormedHeaderTail(h: string)
    requires h == BearerPrefix
    ensures Split(h, BearerPrefix) == ["", ""]
  {
    assert OccursAt(h, BearerPrefix, 0);
    assert IndexOf(h, BearerPrefix) == Some(0);
    assert h[7..] == "";
    assert !Contains("", BearerPrefix);
  }

  /** A rejected verification yields no user; the rejection goes no further. */
  lemma RejectedTokenHasNoUser(t: string, verify: Verifier)
    requires t != "" && !Contains(t, BearerPrefix)
    requires verify(t).None?
    ensures GetUser(Some(BearerPrefix + t), verify).None?
  {
    WellFormedHeaderVerifiesToken(t, verify);
  }

  /** The route's middleware: "Unauthorized" without a user, the user's uid as upload metadata otherwise. */
  function Middleware(header: Option<string>, verify: Verifier): (r: Result<string, string>)
    ensures r.Failure? <==> GetUser(header, verify).None?
    ensures r.Failure? ==> r.error == "Unauthorized"
    ensures r.Success? ==> GetUser(header, verify) == Some(DecodedToken(r.value))
  {
    match GetUser(header, verify)
    case None => Failure("Unauthorized")
    case Some(user) => Success(user.uid)
  }

  /** The placeholder the server writes before processing. */
  function ServerPlaceholder(id: string, userId: string, fileName: string, fileUrl: string, fileKey: string,
                             mimeType: string, now: int): (d: Document)
    ensures IsPlaceholder(d)
    ensures d.id == id && d.userId == Some(userId) && d.fileName == Some(fileName) && d.fileUrl == Some(fileUrl)
    ensures d.storagePath == Some(fileKey) && d.mimeType == Some(mimeType) && d.uploadedAt == Some(now)
    ensures d.textContent == Some("") && d.company.None? && d.country.None? && d.expiry.None?
  {
    BlankDocument(id).(userId := Some(userId), fileName := Some(fileName), fileUrl := Some(fileUrl),
      storagePath := Some(fileKey), mimeType := Some(mimeType), uploadedAt := Some(now),
      owner := Some(Processing), docType := Some(Processing), keywords := Some([]),
      summary := Some(Processing), textContent := Some(""), expiry := None, company := None,
      country := None, isProcessing := true)
  }

  /** What the fetch and the three AI flows gave: the metadata, the extracted text and the keywords, or a throw. */
  datatype ServerAnalysis = ServerAnswered(m: Metadata, text: string, keywords: seq<string>) | ServerFailed

  /** The successful update as the route writes it, with the metadata spread as is. */
  function ProcessFileAsWritten(placeholder: Document, fileName: string, analysis: ServerAnalysis): (r: Document)
    ensures SameFile(r, placeholder) && !r.isProcessing
    ensures analysis.ServerAnswered? ==>
      && r.textContent == Some(analysis.text) && r.keywords == Some(analysis.keywords)
      && r.owner == Some(analysis.m.owner) && r.docType == placeholder.docType && r.expiry == placeholder.expiry
    ensures analysis.ServerFailed? ==> r == MarkFailed(placeholder, fileName)
  {
    match analysis
    case ServerAnswered(m, text, keywords) => ApplyMetadataAsWritten(placeholder, m, keywords).(textContent := Some(text))
    case ServerFailed => MarkFailed(placeholder, fileName)
  }

  /** As written, the server's processed record keeps the placeholder type whatever the AI found. */
  lemma ServerAsWrittenKeepsPlaceholderType(placeholder: Document, fileName: string, m: Metadata, text: string,
                                            keywords: seq<string>)
    requires IsPlaceholder(placeholder)
    ensures ProcessFileAsWritten(placeholder, fileName, ServerAnswered(m, text, keywords)).docType == Some(Processing)
  {
  }

  /** `processFileInBackground` after its placeholder, with the intended update on success. */
  function ProcessFile(placeholder: Document, fileName: string, analysis: ServerAnalysis): (r: Document)
    ensures SameFile(r, placeholder) && !r.isProcessing
    ensures analysis.ServerAnswered? ==>
      && r.textContent == Some(analysis.text) && r.keywords == Some(analysis.keywords)
      && r.owner == Some(analysis.m.owner) && r.summary == Some(analysis.m.summary)
      && r.docType == Some(analysis.m.documentType) && r.expiry == analysis.m.expiryDate
    ensures analysis.ServerFailed? ==>
      && r.owner == Some(fileName) && r.docType == Some(ProcessingFailed)
      && r.summary == Some(FailureSummary) && r.textContent == placeholder.textContent
  {
    match analysis
    case ServerAnswered(m, text, keywords) => ApplyMetadata(placeholder, m, keywords).(textContent := Some(text))
    case ServerFailed => MarkFailed(placeholder, fileName)
  }

  /** The browser and the server write the same failed record over the same placeholder fields. */
  lemma FailureAgreesWithBrowser(placeholder: Document, fileName: string)
    ensures ProcessFile(placeholder, fileName, ServerFailed) == Settle(placeholder, fileName, AnalysisFailed)
  {
  }
}
