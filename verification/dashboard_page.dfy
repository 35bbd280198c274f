/**
 * The dashboard ("My Documents") page: the live snapshot list, newest first,
 * and the plain case-insensitive substring search over it.
 */
module DashboardPage {
  import opened Wrappers
  import opened Text
  import opened Seqs
  import opened Sorting
  import opened Records

  /** The upload time of a loaded record; every loaded record has one (see `Stamp`). */
  function UploadTime(d: Document): int {
    d.uploadedAt.GetOr(0)
  }

  /** A record as the snapshot listener stores it: a missing server timestamp reads as `now`. */
  function Stamp(d: Document, now: int): (r: Document)
    ensures r.uploadedAt.Some?
    ensures d.uploadedAt.Some? ==> r == d
    ensures d.uploadedAt.None? ==> UploadTime(r) == now && r.(uploadedAt := None) == d
  {
    if d.uploadedAt.Some? then d else d.(uploadedAt := Some(now))
  }

  function StampAll(raw: seq<Document>, now: int): (r: seq<Document>)
    ensures |r| == |raw|
    ensures forall i :: 0 <= i < |raw| ==> r[i] == Stamp(raw[i], now)
  {
    seq(|raw|, i requires 0 <= i < |raw| => Stamp(raw[i], now))
  }

  /** The order the comparator `(a, b) => time(b) - time(a)` asks for: newer first. */
  predicate NewerOrSame(a: Document, b: Document) {
    UploadTime(a) >= UploadTime(b)
  }

  /**
   * The documents list built from one snapshot: every record stamped, then
   * sorted by upload time, newest first. Nothing is dropped or added.
   */
  function LoadSnapshot(raw: seq<Document>, now: int): (r: seq<Document>)
    ensures multiset(r) == multiset(StampAll(raw, now))
    ensures forall d :: d in r ==> d.uploadedAt.Some?
    ensures forall i, j :: 0 <= i < j < |r| ==> r[i].uploadedAt.value >= r[j].uploadedAt.value
    ensures forall i :: 0 <= i < |raw| ==> Stamp(raw[i], now) in r
  {
    var stamped := StampAll(raw, now);
    NewerOrSameIsTotalPreorder();
    var r := SortBy(stamped, NewerOrSame);
    SortedSnapshot(raw, now, stamped, r);
    r
  }

  lemma NewerOrSameIsTotalPreorder()
    ensures TotalPreorder(NewerOrSame)
  {
    forall a: Document, b: Document ensures NewerOrSame(a, b) || NewerOrSame(b, a) {}
    forall a: Document, b: Document, c: Document | NewerOrSame(a, b) && NewerOrSame(b, c)
      ensures NewerOrSame(a, c) {}
  }

  lemma SortedSnapshot(raw: seq<Document>, now: int, stamped: seq<Document>, r: seq<Document>)
    requires stamped == StampAll(raw, now)
    requires multiset(r) == multiset(stamped) && SortedBy(r, NewerOrSame)
    ensures forall d :: d in r ==> d.uploadedAt.Some?
    ensures forall i, j :: 0 <= i < j < |r| ==> r[i].uploadedAt.value >= r[j].uploadedAt.value
    ensures forall i :: 0 <= i < |raw| ==> Stamp(raw[i], now) in r
  {
    forall d | d in r ensures d.uploadedAt.Some? {
      assert d in multiset(stamped);
    }
    forall i | 0 <= i < |raw| ensures Stamp(raw[i], now) in r {
      assert stamped[i] in multiset(r);
    }
    forall i, j | 0 <= i < j < |r| ensures r[i].uploadedAt.value >= r[j].uploadedAt.value {
      assert NewerOrSame(r[i], r[j]);
    }
  }

  /** `field && field.toLowerCase().includes(q)`. */
  predicate FieldMentions(field: Option<string>, lowered: string) {
    Truthy(field) && Contains(Lower(field.value), lowered)
  }

  /** `keywords && keywords.some(k => k.toLowerCase().includes(q))`. */
  predicate KeywordsMention(keywords: Option<seq<string>>, lowered: string) {
    keywords.Some? && exists k | k in keywords.value :: Contains(Lower(k), lowered)
  }

  /** The document's owner, company, type or one of its keywords contains the lowered query. */
  predicate Mentions(d: Document, lowered: string) {
    || FieldMentions(d.owner, lowered)
    || FieldMentions(d.company, lowered)
    || FieldMentions(d.docType, lowered)
    || KeywordsMention(d.keywords, lowered)
  }

  /**
   * `filteredDocuments`: everything for an empty query, otherwise the
   * documents mentioning the lowered query, in their original order.
   */
  function FilteredDocuments(docs: seq<Document>, searchQuery: string): (r: seq<Document>)
    ensures searchQuery == "" ==> r == docs
    ensures IsSubsequence(r, docs)
    ensures searchQuery != "" ==> forall d :: d in r <==> d in docs && Mentions(d, Lower(searchQuery))
  {
    if searchQuery == "" then
      SubsequenceReflexive(docs);
      docs
    else
      var lowered := Lower(searchQuery);
      Filter(docs, (d: Document) => Mentions(d, lowered))
  }

  /** A missing or empty field, and missing or empty keywords, never match a non-empty query. */
  lemma AbsentFieldsNeverMatch(lowered: string)
    requires lowered != ""
    ensures !FieldMentions(None, lowered) && !FieldMentions(Some(""), lowered)
    ensures !KeywordsMention(None, lowered) && !KeywordsMention(Some([]), lowered)
  {
  }

  /** A document mentioning a query mentions every substring of it. */
  lemma MentionsSubstring(d: Document, q: string, q2: string)
    requires Contains(q2, q)
    requires Mentions(d, Lower(q2))
    ensures Mentions(d, Lower(q))
  {
    LowerKeepsContains(q2, q);
    var l, l2 := Lower(q), Lower(q2);
    if FieldMentions(d.owner, l2) {
      ContainsTransitive(Lower(d.owner.value), l2, l);
    } else if FieldMentions(d.company, l2) {
      ContainsTransitive(Lower(d.company.value), l2, l);
    } else if FieldMentions(d.docType, l2) {
      ContainsTransitive(Lower(d.docType.value), l2, l);
    } else {
      var k :| k in d.keywords.value && Contains(Lower(k), l2);
      ContainsTransitive(Lower(k), l2, l);
    }
  }

  /** Typing more narrows: the hits for a query are among the hits for any substring of it. */
  lemma LongerQueryNarrows(docs: seq<Document>, q: string, q2: string)
    requires Contains(q2, q)
    ensures forall d :: d in FilteredDocuments(docs, q2) ==> d in FilteredDocuments(docs, q)
  {
    forall d | d in FilteredDocuments(docs, q2)
      ensures d in FilteredDocuments(docs, q)
    {
      if q != "" {
        MentionsSubstring(d, q, q2);
      }
    }
  }
}
