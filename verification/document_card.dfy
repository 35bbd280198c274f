/**
 * The document card's two small classifiers: the image hint chosen from the
 * document type, and whether the stored URL can be shown as an image.
 */
module DocumentCard {
  import opened Wrappers
  import opened Text
  import opened Records

  /** `getAiHint`: a fixed hint per known type, matched case-insensitively. */
  function GetAiHint(docType: string): (hint: string)
    ensures Lower(docType) == "passport" ==> hint == "passport document"
    ensures Lower(docType) == "contract" ==> hint == "contract paper"
    ensures Lower(docType) == "receipt" ==> hint == "bill receipt"
    ensures Lower(docType) == "visa" ==> hint == "visa stamp"
    ensures Lower(docType) !in {"passport", "contract", "receipt", "visa"} ==> hint == "document paper"
  {
    match Lower(docType)
    case "passport" => "passport document"
    case "contract" => "contract paper"
    case "receipt" => "bill receipt"
    case "visa" => "visa stamp"
    case _ => "document paper"
  }

  /** The hint does not depend on letter case. */
  lemma AiHintIgnoresCase(docType: string)
    ensures GetAiHint(docType) == GetAiHint(Lower(docType))
  {
    LowerIdempotent(docType);
  }

  /** `isImage`: a non-empty URL that is not a Google Drive link. */
  predicate IsImage(fileUrl: Option<string>) {
    Truthy(fileUrl) && !Contains(fileUrl.value, "drive.google.com")
  }

  /** Every Drive link is shown as a file icon, whatever else the URL holds. */
  lemma DriveLinksAreNotImages(prefix: string, suffix: string)
    ensures !IsImage(Some(prefix + "drive.google.com" + suffix))
  {
    var url := prefix + "drive.google.com" + suffix;
    assert url[|prefix|..|prefix| + 16] == "drive.google.com";
    assert OccursAt(url, "drive.google.com", |prefix|);
  }

  /** What the top of the card shows. */
  datatype CardMedia = Spinner | Picture(src: string, hint: string) | FileIcon

  /**
   * The card header: a spinner while processing, the picture with its hint
   * for an image URL, the file icon otherwise. The hint reads the type, so a
   * missing type in the picture branch is the `TypeError` the render throws.
   */
  function RenderMedia(d: Document): (r: Result<CardMedia, string>)
    ensures d.isProcessing ==> r == Success(Spinner)
    ensures !d.isProcessing && !IsImage(d.fileUrl) ==> r == Success(FileIcon)
    ensures !d.isProcessing && IsImage(d.fileUrl) ==>
      (r.Success? <==> d.docType.Some?)
    ensures r.Success? && r.value.Picture? ==>
      IsImage(d.fileUrl) && r.value.src == d.fileUrl.value && r.value.hint == GetAiHint(d.docType.value)
  {
    if d.isProcessing then Success(Spinner)
    else if IsImage(d.fileUrl) then
      match d.docType
      case Some(t) => Success(Picture(d.fileUrl.value, GetAiHint(t)))
      case None => Failure("TypeError")
    else Success(FileIcon)
  }
}
