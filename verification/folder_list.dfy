/** The folder grid: one card per folder with the number of documents filed in it. */
module FolderList {
  import opened Wrappers
  import opened Seqs
  import opened Records

  /** `documents.filter(doc => doc.folderId === folderId).length`. */
  function GetDocumentCount(docs: seq<Document>, folderId: string): (n: nat)
    ensures n <= |docs|
    ensures n == 0 <==> forall d :: d in docs ==> d.folderId != Some(folderId)
    ensures n == |docs| <==> forall d :: d in docs ==> d.folderId == Some(folderId)
  {
    FilterExtremes(docs, (d: Document) => d.folderId == Some(folderId));
    Count(docs, (d: Document) => d.folderId == Some(folderId))
  }

  /**
   * Counting splits over concatenation, and a document filed in no folder (or
   * another folder) adds nothing to a folder's count.
   */
  lemma {:induction false} CountAppend(a: seq<Document>, b: seq<Document>, folderId: string)
    ensures GetDocumentCount(a + b, folderId) == GetDocumentCount(a, folderId) + GetDocumentCount(b, folderId)
  {
    FilterAppend(a, b, (d: Document) => d.folderId == Some(folderId));
  }

  lemma UnfiledDocumentCountsNowhere(docs: seq<Document>, d: Document, folderId: string)
    requires d.folderId != Some(folderId)
    ensures GetDocumentCount(docs + [d], folderId) == GetDocumentCount(docs, folderId)
  {
    CountAppend(docs, [d], folderId);
    assert Filter([d], (x: Document) => x.folderId == Some(folderId)) == [];
  }

  datatype FolderCardView = FolderCardView(folder: Folder, documentCount: nat)

  datatype FolderListView = EmptyFolders | Cards(cards: seq<FolderCardView>)

  /** `FolderList`: the empty state for no folders, otherwise one card per folder in input order. */
  function RenderFolderList(folders: seq<Folder>, docs: seq<Document>): (v: FolderListView)
    ensures v.EmptyFolders? <==> |folders| == 0
    ensures v.Cards? ==> |v.cards| == |folders|
    ensures v.Cards? ==> forall i :: 0 <= i < |folders| ==>
      v.cards[i].folder == folders[i] && v.cards[i].documentCount == GetDocumentCount(docs, folders[i].id)
  {
    if |folders| == 0 then EmptyFolders
    else Cards(seq(|folders|, i requires 0 <= i < |folders| => FolderCardView(folders[i], GetDocumentCount(docs, folders[i].id))))
  }
}
