/**
 * The document-type chart: documents tallied by type, a missing or empty
 * type counting as "Uncategorized", the tallies sorted by total, largest
 * first.
 */
module TypeChart {
  import opened Wrappers
  import opened Seqs
  import opened Sorting
  import opened Records

  const Uncategorized: string := "Uncategorized"

  /** One bar of the chart. */
  datatype ChartEntry = ChartEntry(name: string, total: nat)

  /** `doc.type || 'Uncategorized'`. */
  function TypeKey(d: Document): (k: string)
    ensures Truthy(d.docType) ==> k == d.docType.value
    ensures !Truthy(d.docType) ==> k == Uncategorized
    ensures k != ""
  {
    if Truthy(d.docType) then d.docType.value else Uncategorized
  }

  /** The number of documents filed under `name`: the reference count the tallies are measured against. */
  function KeyCount(docs: seq<Document>, name: string): nat {
    Count(docs, (d: Document) => TypeKey(d) == name)
  }

  /** Counting a sequence grown by one document. */
  lemma KeyCountSnoc(init: seq<Document>, last: Document, name: string)
    ensures KeyCount(init + [last], name) == KeyCount(init, name) + (if TypeKey(last) == name then 1 else 0)
  {
    FilterAppend(init, [last], (d: Document) => TypeKey(d) == name);
  }

  /** The entry names, in order. */
  function Names(e: seq<ChartEntry>): (ns: seq<string>)
    ensures |ns| == |e|
    ensures forall i :: 0 <= i < |e| ==> ns[i] == e[i].name
    decreases |e|
  {
    if |e| == 0 then [] else [e[0].name] + Names(e[1..])
  }

  /** No two entries share a name, as no two keys of an object do. */
  predicate DistinctNames(e: seq<ChartEntry>) {
    NoDup(Names(e))
  }

  predicate AllPositive(e: seq<ChartEntry>) {
    forall i :: 0 <= i < |e| ==> e[i].total >= 1
  }

  /** The total stored under `name`, 0 when there is no such key (`acc[type] || 0`). */
  function TotalOf(e: seq<ChartEntry>, name: string): nat
    decreases |e|
  {
    if |e| == 0 then 0
    else if e[0].name == name then e[0].total
    else TotalOf(e[1..], name)
  }

  function Sum(e: seq<ChartEntry>): nat
    decreases |e|
  {
    if |e| == 0 then 0 else e[0].total + Sum(e[1..])
  }

  /** With distinct names, the total stored under an entry's name is that entry's total. */
  lemma {:induction false} TotalOfEntry(e: seq<ChartEntry>, i: nat)
    requires DistinctNames(e) && i < |e|
    ensures TotalOf(e, e[i].name) == e[i].total
    decreases |e|
  {
    if i > 0 {
      assert Names(e)[0] != Names(e)[i];
      assert Names(e[1..]) == Names(e)[1..];
      assert e[1..][i - 1] == e[i];
      TotalOfEntry(e[1..], i - 1);
    }
  }

  /** A name without an entry has total 0; one with an entry, among positive totals, has a positive total. */
  lemma {:induction false} TotalOfPresence(e: seq<ChartEntry>, name: string)
    ensures name !in Names(e) ==> TotalOf(e, name) == 0
    ensures name in Names(e) && AllPositive(e) ==> TotalOf(e, name) >= 1
    decreases |e|
  {
    if |e| > 0 {
      assert Names(e) == [e[0].name] + Names(e[1..]);
      TotalOfPresence(e[1..], name);
    }
  }

  /** `acc[type] = (acc[type] || 0) + 1`: bump an existing key in place or append a new one. */
  function Bump(e: seq<ChartEntry>, key: string): (r: seq<ChartEntry>)
    ensures Names(r) == if key in Names(e) then Names(e) else Names(e) + [key]
    ensures TotalOf(r, key) == TotalOf(e, key) + 1
    ensures forall n :: n != key ==> TotalOf(r, n) == TotalOf(e, n)
    ensures Sum(r) == Sum(e) + 1
    ensures AllPositive(e) ==> AllPositive(r)
    decreases |e|
  {
    if |e| == 0 then [ChartEntry(key, 1)]
    else if e[0].name == key then
      var r := [e[0].(total := e[0].total + 1)] + e[1..];
      assert r[1..] == e[1..];
      assert Names(e) == [key] + Names(e[1..]);
      r
    else
      var rest := Bump(e[1..], key);
      var r := [e[0]] + rest;
      assert r[1..] == rest;
      assert Names(e) == [e[0].name] + Names(e[1..]);
      assert Names(r) == [e[0].name] + Names(rest);
      r
  }

  lemma NoDupSnoc(s: seq<string>, x: string)
    requires NoDup(s) && x !in s
    ensures NoDup(s + [x])
  {
  }

  lemma BumpKeepsDistinctNames(e: seq<ChartEntry>, key: string)
    requires DistinctNames(e)
    ensures DistinctNames(Bump(e, key))
  {
    if key !in Names(e) {
      NoDupSnoc(Names(e), key);
    }
  }

  /** The `reduce` over the documents, in order. */
  function Tally(docs: seq<Document>): (e: seq<ChartEntry>)
    ensures DistinctNames(e) && AllPositive(e)
    ensures Sum(e) == |docs|
    ensures forall n :: TotalOf(e, n) == KeyCount(docs, n)
    ensures forall n :: n in Names(e) <==> KeyCount(docs, n) > 0
    decreases |docs|
  {
    if |docs| == 0 then []
    else
      var init := docs[..|docs| - 1];
      var last := docs[|docs| - 1];
      assert docs == init + [last];
      var prev := Tally(init);
      TallyStep(init, last, prev);
      Bump(prev, TypeKey(last))
  }

  /** One step of the fold keeps the tallies in step with the counts. */
  lemma TallyStep(init: seq<Document>, last: Document, prev: seq<ChartEntry>)
    requires DistinctNames(prev) && AllPositive(prev)
    requires forall n :: TotalOf(prev, n) == KeyCount(init, n)
    ensures var e := Bump(prev, TypeKey(last));
      && DistinctNames(e)
      && (forall n :: TotalOf(e, n) == KeyCount(init + [last], n))
      && (forall n :: n in Names(e) <==> KeyCount(init + [last], n) > 0)
  {
    var e := Bump(prev, TypeKey(last));
    BumpKeepsDistinctNames(prev, TypeKey(last));
    forall n ensures TotalOf(e, n) == KeyCount(init + [last], n) {
      KeyCountSnoc(init, last, n);
    }
    forall n ensures n in Names(e) <==> KeyCount(init + [last], n) > 0 {
      TotalOfPresence(e, n);
    }
  }

  /** `(a, b) => b.total - a.total`: larger totals first. */
  predicate MoreOrEqual(a: ChartEntry, b: ChartEntry) {
    a.total >= b.total
  }

  lemma MoreOrEqualIsTotalPreorder()
    ensures TotalPreorder(MoreOrEqual)
  {
  }

  lemma {:induction false} SumSplit(a: seq<ChartEntry>, b: seq<ChartEntry>)
    ensures Sum(a + b) == Sum(a) + Sum(b)
    decreases |a|
  {
    if |a| == 0 {
      assert a + b == b;
    } else {
      assert (a + b)[1..] == a[1..] + b;
      SumSplit(a[1..], b);
    }
  }

  /** Taking one entry out of the middle takes its total out of the sum. */
  lemma SumRemove(b: seq<ChartEntry>, j: nat)
    requires j < |b|
    ensures Sum(b) == b[j].total + Sum(b[..j] + b[j + 1..])
  {
    assert b == b[..j] + ([b[j]] + b[j + 1..]);
    SumSplit(b[..j], [b[j]] + b[j + 1..]);
    SumSplit(b[..j], b[j + 1..]);
    assert ([b[j]] + b[j + 1..])[1..] == b[j + 1..];
  }

  /** Summing does not depend on the order of the entries. */
  lemma {:induction false} SumPermutation(a: seq<ChartEntry>, b: seq<ChartEntry>)
    requires multiset(a) == multiset(b)
    ensures Sum(a) == Sum(b)
    decreases |a|
  {
    if |a| == 0 {
      assert |b| == |multiset(b)| == 0;
    } else {
      assert a[0] in multiset(b);
      var j :| 0 <= j < |b| && b[j] == a[0];
      var rest := b[..j] + b[j + 1..];
      RemoveOneMultiset(a, b, j);
      SumPermutation(a[1..], rest);
      SumRemove(b, j);
    }
  }

  lemma RemoveOneMultiset(a: seq<ChartEntry>, b: seq<ChartEntry>, j: nat)
    requires multiset(a) == multiset(b) && 0 < |a| && j < |b| && b[j] == a[0]
    ensures multiset(a[1..]) == multiset(b[..j] + b[j + 1..])
  {
    assert a == [a[0]] + a[1..];
    assert b == b[..j] + [b[j]] + b[j + 1..];
    assert multiset(a) == multiset{a[0]} + multiset(a[1..]);
    assert multiset(b) == multiset(b[..j]) + multiset{b[j]} + multiset(b[j + 1..]);
    assert multiset(b[..j] + b[j + 1..]) == multiset(b[..j]) + multiset(b[j + 1..]);
    assert multiset(a[1..]) == multiset(a) - multiset{a[0]};
  }

  /** Distinct names make distinct entries. */
  lemma DistinctNamesDistinctEntries(e: seq<ChartEntry>)
    requires DistinctNames(e)
    ensures NoDup(e)
  {
    forall i, j | 0 <= i < j < |e| ensures e[i] != e[j] {
      assert Names(e)[i] != Names(e)[j];
    }
  }

  /** Each entry of a rearrangement of the tallies carries its key's count. */
  lemma PermutedTotals(docs: seq<Document>, r: seq<ChartEntry>)
    requires multiset(r) == multiset(Tally(docs))
    ensures forall i :: 0 <= i < |r| ==> r[i].total == KeyCount(docs, r[i].name) && r[i].total >= 1
  {
    var t := Tally(docs);
    forall i | 0 <= i < |r|
      ensures r[i].total == KeyCount(docs, r[i].name) && r[i].total >= 1
    {
      assert r[i] in multiset(t);
      var p :| 0 <= p < |t| && t[p] == r[i];
      TotalOfEntry(t, p);
    }
  }

  /**
   * Two entries of the same name in a rearrangement of the tallies carry the
   * same count, so they are one repeated entry, which the rearrangement of
   * distinct entries cannot hold.
   */
  lemma PermutedDistinctNames(docs: seq<Document>, r: seq<ChartEntry>)
    requires multiset(r) == multiset(Tally(docs))
    ensures DistinctNames(r)
  {
    var t := Tally(docs);
    PermutedTotals(docs, r);
    DistinctNamesDistinctEntries(t);
    PermutationKeepsNoDup(t, r);
    forall i, j | 0 <= i < j < |r|
      ensures Names(r)[i] != Names(r)[j]
    {
      assert r[i] != r[j];
    }
  }

  /** A rearrangement keeps the set of names. */
  lemma PermutedName(t: seq<ChartEntry>, r: seq<ChartEntry>, n: string)
    requires multiset(r) == multiset(t)
    requires n in Names(t)
    ensures n in Names(r)
  {
    var p :| 0 <= p < |t| && Names(t)[p] == n;
    assert t[p] in multiset(r);
    var i :| 0 <= i < |r| && r[i] == t[p];
    assert Names(r)[i] == n;
  }

  /** A rearrangement of the tallies names exactly the keys with documents. */
  lemma PermutedNames(docs: seq<Document>, r: seq<ChartEntry>)
    requires multiset(r) == multiset(Tally(docs))
    ensures forall n :: n in Names(r) <==> KeyCount(docs, n) > 0
  {
    var t := Tally(docs);
    forall n ensures n in Names(r) <==> n in Names(t) {
      if n in Names(r) {
        PermutedName(r, t, n);
      }
      if n in Names(t) {
        PermutedName(t, r, n);
      }
    }
  }

  /**
   * `getChartData`: one entry per key, each total the number of documents
   * under that key, all totals positive and summing to the number of
   * documents, sorted largest first.
   */
  function GetChartData(docs: seq<Document>): (r: seq<ChartEntry>)
    ensures forall i, j :: 0 <= i < j < |r| ==> r[i].total >= r[j].total
    ensures multiset(r) == multiset(Tally(docs))
    ensures DistinctNames(r)
    ensures forall i :: 0 <= i < |r| ==> r[i].total == KeyCount(docs, r[i].name) && r[i].total >= 1
    ensures forall n :: n in Names(r) <==> KeyCount(docs, n) > 0
    ensures Sum(r) == |docs|
    ensures |docs| == 0 ==> r == []
  {
    var t := Tally(docs);
    MoreOrEqualIsTotalPreorder();
    var r := SortBy(t, MoreOrEqual);
    PermutedTotals(docs, r);
    PermutedDistinctNames(docs, r);
    PermutedNames(docs, r);
    SumPermutation(t, r);
    r
  }

  /** Every document's key has its bar. */
  lemma EveryDocumentIsCharted(docs: seq<Document>, d: Document)
    requires d in docs
    ensures TypeKey(d) in Names(GetChartData(docs))
  {
    assert d in Filter(docs, (x: Document) => TypeKey(x) == TypeKey(d));
  }

  datatype ChartView = NoData | Bars(data: seq<ChartEntry>)

  /** `DocumentTypeChart`: the placeholder for no data, the bars otherwise. */
  function RenderChart(data: seq<ChartEntry>): (v: ChartView)
    ensures v.NoData? <==> |data| == 0
    ensures v.Bars? ==> v.data == data
  {
    if |data| == 0 then NoData else Bars(data)
  }

  /** With no documents the chart shows its placeholder; with any, it shows bars. */
  lemma ChartPlaceholderIffNoDocuments(docs: seq<Document>)
    ensures RenderChart(GetChartData(docs)) == NoData <==> |docs| == 0
  {
    var r := GetChartData(docs);
    if |docs| > 0 {
      assert docs[0] in docs;
      EveryDocumentIsCharted(docs, docs[0]);
    }
  }
}
