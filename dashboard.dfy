/** The dashboard: every stored document, tagged with its kind and listed newest first, and
    the per-kind labels, edit routes and download contents. */
module Dashboard {
  import opened Wrappers
  import opened LocalStorage
  import Export

  const CvTag := "cv"
  const LetterTag := "lettre-motivation"
  const ResiliationTag := "resiliation"
  const KnownTags: set<string> := {CvTag, LetterTag, ResiliationTag}

  /** `docs.map(doc => ({ ...doc, type: tag }))`: the tag replaces any stored one. */
  function Tag(docs: seq<Doc>, tag: string): (r: seq<Doc>)
    ensures |r| == |docs|
    ensures forall i :: 0 <= i < |docs| ==> r[i] == docs[i].(kind := Some(tag))
  {
    seq(|docs|, i requires 0 <= i < |docs| => docs[i].(kind := Some(tag)))
  }

  /** The three collections, each tagged by the key it comes from, one after the other. */
  function Merge(m: map<string, seq<Doc>>): (r: seq<Doc>)
    ensures |r| == |ReadCollection(m, CvsKey)| + |ReadCollection(m, LettersKey)| + |ReadCollection(m, ResiliationsKey)|
    ensures forall d :: d in r ==> d.kind.Some? && d.kind.value in KnownTags
  {
    Tag(ReadCollection(m, CvsKey), CvTag)
      + Tag(ReadCollection(m, LettersKey), LetterTag)
      + Tag(ReadCollection(m, ResiliationsKey), ResiliationTag)
  }

  /** Newest first: dates never increase along the list. */
  predicate SortedDesc(s: seq<Doc>) {
    forall i, j :: 0 <= i < j < |s| ==> s[i].date >= s[j].date
  }

  /** The documents dated `d`, in their order. */
  function WithDate(s: seq<Doc>, d: int): seq<Doc>
  {
    if s == [] then []
    else WithDate(s[..|s| - 1], d) + (if s[|s| - 1].date == d then [s[|s| - 1]] else [])
  }

  /** Insert `x` into `t` after every document at least as recent as it. */
  function Insert(t: seq<Doc>, x: Doc): seq<Doc>
  {
    if t == [] then [x]
    else if t[|t| - 1].date >= x.date then t + [x]
    else Insert(t[..|t| - 1], x) + [t[|t| - 1]]
  }

  /** The reference order: a stable sort by date, newest first, which is what
      `allDocs.sort((a, b) => b.date - a.date)` yields with a stable sort. */
  function SortDesc(s: seq<Doc>): seq<Doc>
  {
    if s == [] then [] else Insert(SortDesc(s[..|s| - 1]), s[|s| - 1])
  }

  /** A non-empty sequence is its prefix followed by its last element. */
  lemma SplitLast<T>(s: seq<T>)
    requires s != []
    ensures s == s[..|s| - 1] + [s[|s| - 1]]
    ensures multiset(s) == multiset(s[..|s| - 1]) + multiset{s[|s| - 1]}
  {
    assert s == s[..|s| - 1] + [s[|s| - 1]];
  }

  lemma {:induction false} InsertMultiset(t: seq<Doc>, x: Doc)
    ensures multiset(Insert(t, x)) == multiset(t) + multiset{x}
  {
    if t != [] && t[|t| - 1].date < x.date {
      InsertMultiset(t[..|t| - 1], x);
      SplitLast(t);
    }
  }

  lemma {:induction false} InsertSorted(t: seq<Doc>, x: Doc)
    requires SortedDesc(t)
    ensures SortedDesc(Insert(t, x))
  {
    if t != [] && t[|t| - 1].date < x.date {
      var t', last := t[..|t| - 1], t[|t| - 1];
      InsertSorted(t', x);
      InsertMultiset(t', x);
      var r := Insert(t', x);
      forall k | 0 <= k < |r| ensures r[k].date >= last.date {
        assert r[k] in multiset(t') + multiset{x};
      }
    }
  }

  lemma {:induction false} WithDateConcat(a: seq<Doc>, b: seq<Doc>, d: int)
    ensures WithDate(a + b, d) == WithDate(a, d) + WithDate(b, d)
  {
    if b == [] {
      assert a + b == a;
    } else {
      WithDateConcat(a, b[..|b| - 1], d);
      assert (a + b)[..|a + b| - 1] == a + b[..|b| - 1];
    }
  }

  /** Insertion puts `x` among the documents of its own date last, and moves no other. */
  lemma {:induction false} InsertWithDate(t: seq<Doc>, x: Doc, d: int)
    ensures WithDate(Insert(t, x), d) == WithDate(t, d) + WithDate([x], d)
  {
    if t == [] {
    } else if t[|t| - 1].date >= x.date {
      WithDateConcat(t, [x], d);
    } else {
      var t', last := t[..|t| - 1], t[|t| - 1];
      InsertWithDate(t', x, d);
      WithDateConcat(Insert(t', x), [last], d);
      WithDateConcat(t', [last], d);
      SplitLast(t);
      WithDateSingletons(last, x, d);
    }
  }

  /** Two documents of different dates cannot both have date `d`. */
  lemma WithDateSingletons(a: Doc, b: Doc, d: int)
    requires a.date != b.date
    ensures WithDate([a], d) == [] || WithDate([b], d) == []
  {
    assert [a][..0] == [] && [b][..0] == [];
  }

  /** The reference order is sorted newest first. */
  lemma {:induction false} SortDescSorted(s: seq<Doc>)
    ensures SortedDesc(SortDesc(s))
  {
    if s != [] {
      SortDescSorted(s[..|s| - 1]);
      InsertSorted(SortDesc(s[..|s| - 1]), s[|s| - 1]);
    }
  }

  /** ... holds exactly the documents it was given ... */
  lemma {:induction false} SortDescPermutation(s: seq<Doc>)
    ensures multiset(SortDesc(s)) == multiset(s)
  {
    if s != [] {
      SortDescPermutation(s[..|s| - 1]);
      InsertMultiset(SortDesc(s[..|s| - 1]), s[|s| - 1]);
      SplitLast(s);
    }
  }

  /** ... and keeps documents of equal date in the order they were given. */
  lemma {:induction false} SortDescStable(s: seq<Doc>, d: int)
    ensures WithDate(SortDesc(s), d) == WithDate(s, d)
  {
    if s != [] {
      var s', last := s[..|s| - 1], s[|s| - 1];
      SortDescStable(s', d);
      InsertWithDate(SortDesc(s'), last, d);
    }
  }

  /** `x` goes right after the last document at least as recent as it: every document after
      position `j` is strictly older, and the one before it (if any) is not. */
  lemma {:induction false} InsertAt(t: seq<Doc>, x: Doc, j: nat)
    requires j <= |t| && (j == 0 || t[j - 1].date >= x.date)
    requires forall k :: j <= k < |t| ==> t[k].date < x.date
    ensures Insert(t, x) == t[..j] + [x] + t[j..]
  {
    if j < |t| {
      var t', last := t[..|t| - 1], t[|t| - 1];
      assert Insert(t, x) == Insert(t', x) + [last];
      InsertAt(t', x, j);
      SplitAround(t, j);
    } else {
      assert t[..j] == t && t[j..] == [];
    }
  }

  /** Cutting off the last element of `t` leaves the part before `j` alone. */
  lemma SplitAround<T>(t: seq<T>, j: nat)
    requires j < |t|
    ensures t[..|t| - 1][..j] == t[..j]
    ensures t[j..] == t[..|t| - 1][j..] + [t[|t| - 1]]
  {
  }

  /** A sequence that agrees with `t` before `j`, holds `x` at `j` and agrees with `t` shifted
      by one after it is `t` with `x` inserted at `j`. */
  lemma InsertedPointwise<T>(r: seq<T>, t: seq<T>, x: T, j: nat)
    requires j <= |t| && |r| == |t| + 1
    requires forall k :: 0 <= k < j ==> r[k] == t[k]
    requires r[j] == x
    requires forall k :: j < k < |r| ==> r[k] == t[k - 1]
    ensures r == t[..j] + [x] + t[j..]
  {
  }

  /** One step of the insertion sort: move `a[i]` left past every strictly older document. */
  method InsertLast(a: array<Doc>, i: nat)
    requires i < a.Length
    modifies a
    ensures a[..i + 1] == Insert(old(a[..i]), old(a[i]))
    ensures a[i + 1..] == old(a[i + 1..])
  {
    var x := a[i];
    ghost var t := a[..i];
    var j := i;
    while j > 0 && a[j - 1].date < x.date
      invariant 0 <= j <= i
      invariant forall k :: 0 <= k < j ==> a[k] == t[k]
      invariant forall k :: j < k <= i ==> a[k] == t[k - 1]
      invariant forall k :: j <= k < i ==> t[k].date < x.date
      invariant forall k :: i < k < a.Length ==> a[k] == old(a[k])
    {
      a[j] := a[j - 1];
      j := j - 1;
    }
    a[j] := x;
    InsertAt(t, x, j);
    InsertedPointwise(a[..i + 1], t, x, j);
  }

  /** `allDocs.sort(...)`: a stable insertion sort, in place. */
  method SortByDateDesc(a: array<Doc>)
    modifies a
    ensures a[..] == SortDesc(old(a[..]))
  {
    ghost var s := a[..];
    var i := 0;
    while i < a.Length
      invariant 0 <= i <= a.Length
      invariant a[..i] == SortDesc(s[..i])
      invariant a[i..] == s[i..]
    {
      assert a[i] == s[i];
      InsertLast(a, i);
      assert s[..i + 1][..i] == s[..i];
      i := i + 1;
    }
    assert s[..a.Length] == s;
  }

  class DashboardPage {
    var documents: seq<Doc>
    var isLoading: bool

    constructor ()
      ensures documents == [] && isLoading
    {
      documents, isLoading := [], true;
    }

    /** `loadDocuments`: merge and tag the collections, sort them newest first, and stop loading. */
    method LoadDocuments(store: Store)
      modifies this
      ensures documents == SortDesc(Merge(store.collections))
      ensures !isLoading
    {
      var allDocs := Merge(store.collections);
      var a := new Doc[|allDocs|](i requires 0 <= i < |allDocs| => allDocs[i]);
      assert a[..] == allDocs;
      SortByDateDesc(a);
      documents := a[..];
      isLoading := false;
    }
  }

  /** What the loaded list is: newest first, every stored document exactly once, one per
      stored entry, and entries of the same date in collection order (cvs, then letters,
      then cancellation letters). */
  lemma LoadedDocuments(m: map<string, seq<Doc>>)
    ensures SortedDesc(SortDesc(Merge(m)))
    ensures multiset(SortDesc(Merge(m))) == multiset(Merge(m))
    ensures |SortDesc(Merge(m))| == |ReadCollection(m, CvsKey)| + |ReadCollection(m, LettersKey)| + |ReadCollection(m, ResiliationsKey)|
    ensures forall d :: WithDate(SortDesc(Merge(m)), d) == WithDate(Merge(m), d)
  {
    SortDescSorted(Merge(m));
    SortDescPermutation(Merge(m));
    assert |multiset(SortDesc(Merge(m)))| == |multiset(Merge(m))|;
    forall d ensures WithDate(SortDesc(Merge(m)), d) == WithDate(Merge(m), d) {
      SortDescStable(Merge(m), d);
    }
  }

  /** The label shown for a tag. */
  function TypeName(tag: string): (name: string)
    ensures tag == CvTag ==> name == "CV"
    ensures tag == LetterTag ==> name == "Lettre de motivation"
    ensures tag == ResiliationTag ==> name == "Lettre de résiliation"
    ensures name == "Document" <==> tag !in KnownTags
  {
    match tag
    case "cv" => "CV"
    case "lettre-motivation" => "Lettre de motivation"
    case "resiliation" => "Lettre de résiliation"
    case _ => "Document"
  }

  /** `handleEdit`: the page a document is opened on; an unknown tag goes nowhere. */
  function EditRoute(tag: string): (route: Option<string>)
    ensures route.Some? <==> tag in KnownTags
    ensures route.Some? ==> route.value == "/" + tag
  {
    match tag
    case "cv" => Some("/cv")
    case "lettre-motivation" => Some("/lettre-motivation")
    case "resiliation" => Some("/resiliation")
    case _ => None
  }

  /** The page rendered for download: the document's name as heading and, for a known tag,
      a body holding its content or the kind's placeholder when the content is empty. */
  datatype DownloadPage = DownloadPage(heading: string, body: Option<string>)

  function Placeholder(tag: string): string
  {
    match tag
    case "cv" => "Contenu du CV"
    case "lettre-motivation" => "Contenu de la lettre de motivation"
    case _ => "Contenu de la lettre de résiliation"
  }

  function DownloadPageOf(doc: Doc): (p: DownloadPage)
    ensures p.heading == doc.name
    ensures p.body.Some? <==> doc.kind.GetOr("") in KnownTags
    ensures p.body.Some? && doc.content != "" ==> p.body.value == doc.content
    ensures p.body.Some? && doc.content == "" ==> p.body.value == Placeholder(doc.kind.value)
    ensures p.body.Some? ==> p.body.value != ""
  {
    var tag := doc.kind.GetOr("");
    if tag in KnownTags then
      DownloadPage(doc.name, Some(if doc.content != "" then doc.content else Placeholder(tag)))
    else
      DownloadPage(doc.name, None)
  }

  /** `${document.name}.pdf`. */
  function DownloadFileName(doc: Doc): (name: string)
    ensures |name| >= 4 && name[|name| - 4..] == ".pdf"
    ensures Export.StemOf(name) == doc.name
  {
    Export.PdfFileName(doc.name)
  }

  /** Every document on the dashboard has a known label, an edit page and a download body. */
  lemma LoadedDocumentsAreKnown(m: map<string, seq<Doc>>, doc: Doc)
    requires doc in SortDesc(Merge(m))
    ensures doc.kind.Some? && TypeName(doc.kind.value) != "Document"
    ensures EditRoute(doc.kind.value).Some?
    ensures DownloadPageOf(doc).body.Some?
  {
    SortDescPermutation(Merge(m));
    assert doc in multiset(Merge(m));
  }
}
