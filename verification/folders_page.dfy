/** The folders page: the folder snapshot, newest first, and the name search. */
module FoldersPage {
  import opened Wrappers
  import opened Text
  import opened Seqs
  import opened Sorting
  import opened Records

  function CreationTime(f: Folder): int {
    f.createdAt.GetOr(0)
  }

  /** A folder as the snapshot listener stores it: a missing creation time reads as `now`. */
  function StampFolder(f: Folder, now: int): (r: Folder)
    ensures r.createdAt.Some?
    ensures f.createdAt.Some? ==> r == f
    ensures f.createdAt.None? ==> CreationTime(r) == now && r.(createdAt := None) == f
  {
    if f.createdAt.Some? then f else f.(createdAt := Some(now))
  }

  predicate NewerOrSameFolder(a: Folder, b: Folder) {
    CreationTime(a) >= CreationTime(b)
  }

  /** The folder list from one snapshot: stamped and sorted by creation time, newest first. */
  function LoadFolders(raw: seq<Folder>, now: int): (r: seq<Folder>)
    ensures multiset(r) == multiset(StampFolders(raw, now))
    ensures |r| == |raw|
    ensures forall f :: f in r ==> f.createdAt.Some?
    ensures forall i, j :: 0 <= i < j < |r| ==> r[i].createdAt.value >= r[j].createdAt.value
    ensures forall i :: 0 <= i < |raw| ==> StampFolder(raw[i], now) in r
    ensures forall f :: f in r ==> exists i :: 0 <= i < |raw| && f == StampFolder(raw[i], now)
  {
    var stamped := StampFolders(raw, now);
    NewerOrSameFolderIsTotalPreorder();
    var r := SortBy(stamped, NewerOrSameFolder);
    SortedFolders(raw, now, stamped, r);
    r
  }

  function StampFolders(raw: seq<Folder>, now: int): (r: seq<Folder>)
    ensures |r| == |raw|
    ensures forall i :: 0 <= i < |raw| ==> r[i] == StampFolder(raw[i], now)
  {
    seq(|raw|, i requires 0 <= i < |raw| => StampFolder(raw[i], now))
  }

  lemma NewerOrSameFolderIsTotalPreorder()
    ensures TotalPreorder(NewerOrSameFolder)
  {
    forall a: Folder, b: Folder ensures NewerOrSameFolder(a, b) || NewerOrSameFolder(b, a) {}
    forall a: Folder, b: Folder, c: Folder | NewerOrSameFolder(a, b) && NewerOrSameFolder(b, c)
      ensures NewerOrSameFolder(a, c) {}
  }

  lemma SortedFolders(raw: seq<Folder>, now: int, stamped: seq<Folder>, r: seq<Folder>)
    requires stamped == StampFolders(raw, now)
    requires multiset(r) == multiset(stamped) && SortedBy(r, NewerOrSameFolder)
    ensures |r| == |raw|
    ensures forall f :: f in r ==> f.createdAt.Some?
    ensures forall i, j :: 0 <= i < j < |r| ==> r[i].createdAt.value >= r[j].createdAt.value
    ensures forall i :: 0 <= i < |raw| ==> StampFolder(raw[i], now) in r
    ensures forall f :: f in r ==> exists i :: 0 <= i < |raw| && f == StampFolder(raw[i], now)
  {
    assert |r| == |multiset(r)| == |stamped|;
    forall f | f in r ensures f.createdAt.Some? && exists i :: 0 <= i < |raw| && f == StampFolder(raw[i], now) {
      assert f in multiset(stamped);
      var i :| 0 <= i < |stamped| && stamped[i] == f;
    }
    forall i | 0 <= i < |raw| ensures StampFolder(raw[i], now) in r {
      assert stamped[i] in multiset(r);
    }
    forall i, j | 0 <= i < j < |r| ensures r[i].createdAt.value >= r[j].createdAt.value {
      assert NewerOrSameFolder(r[i], r[j]);
    }
  }

  /**
   * `filteredFolders`: the folders whose lowered name includes the lowered
   * query, in their original order; all of them for an empty query.
   */
  function FilteredFolders(folders: seq<Folder>, searchQuery: string): (r: seq<Folder>)
    ensures searchQuery == "" ==> r == folders
    ensures IsSubsequence(r, folders)
    ensures forall f :: f in r <==> f in folders && Contains(Lower(f.name), Lower(searchQuery))
  {
    if searchQuery == "" then
      SubsequenceReflexive(folders);
      assert forall f :: f in folders ==> Contains(Lower(f.name), Lower(searchQuery)) by {
        forall f | f in folders ensures Contains(Lower(f.name), Lower(searchQuery)) {
          ContainsEmpty(Lower(f.name));
        }
      }
      folders
    else
      var lowered := Lower(searchQuery);
      Filter(folders, (f: Folder) => Contains(Lower(f.name), lowered))
  }
}
