/**
 * The stored records: a document as read back from the `documents`
 * collection and a folder from `folders`. Every field the code reads may be
 * missing in a stored record, so each is an `Option`; `isProcessing` reads
 * as `false` when absent.
 */
module Records {
  import opened Wrappers

  datatype Document = Document(
    id: string,
    userId: Option<string>,
    fileName: Option<string>,
    fileUrl: Option<string>,
    mimeType: Option<string>,
    storagePath: Option<string>,
    driveFileId: Option<string>,
    folderId: Option<string>,
    owner: Option<string>,
    docType: Option<string>,        // the `type` field
    company: Option<string>,
    country: Option<string>,
    keywords: Option<seq<string>>,
    summary: Option<string>,
    textContent: Option<string>,
    expiry: Option<int>,            // milliseconds since the epoch
    uploadedAt: Option<int>,        // milliseconds since the epoch; absent while the server timestamp is pending
    isProcessing: bool)

  /** A record with only an id; the starting point for the records the upload code writes. */
  function BlankDocument(id: string): Document {
    Document(id, None, None, None, None, None, None, None, None, None, None, None, None, None, None, None, None, false)
  }

  datatype Folder = Folder(id: string, name: string, createdAt: Option<int>)

  /** `FilterCategory`: the four document fields offered as sidebar filters. */
  datatype Category = Owner | Type | Company | Country

  /** `doc[category]`. */
  function FieldOf(d: Document, c: Category): Option<string> {
    match c
    case Owner => d.owner
    case Type => d.docType
    case Company => d.company
    case Country => d.country
  }

  /** A JavaScript-truthy string field: present and non-empty. */
  predicate Truthy(v: Option<string>) {
    v.Some? && v.value != ""
  }

  /** `Record<FilterCategory, T>`: one value per filter category. */
  datatype PerCategory<T> = PerCategory(owner: T, docType: T, company: T, country: T) {

    function Get(c: Category): T {
      match c
      case Owner => owner
      case Type => docType
      case Company => company
      case Country => country
    }

    /** `{ ...record, [c]: v }`. */
    function With(c: Category, v: T): (r: PerCategory<T>)
      ensures r.Get(c) == v
      ensures forall c' :: c' != c ==> r.Get(c') == Get(c')
    {
      match c
      case Owner => this.(owner := v)
      case Type => this.(docType := v)
      case Company => this.(company := v)
      case Country => this.(country := v)
    }
  }
}
