/** Formatting of the German prepositions queried from Wikidata.

    Each queried record may carry a preposition and a grammatical case. Case
    labels are shortened to "Acc", "Dat" or "Gen", the cases of one preposition
    are joined with "/" in input order, every joined annotation is put into a
    canonical (sorted) order, and the table is finally sorted by preposition. */
module GermanPrepositions {

  datatype Option<T> = None | Some(value: T)

  /** One queried record; either field may be missing. */
  datatype Record = Record(preposition: Option<string>, caseLabel: Option<string>)

  // ---------------------------------------------------------------------------
  // Text helpers: Python's str.split(sep)[0], str.split("/") and "/".join
  // ---------------------------------------------------------------------------

  /** `sep` occurs somewhere in `s`. */
  predicate Contains(s: string, sep: string)
  {
    exists i | 0 <= i <= |s| :: OccursAt(s, sep, i)
  }

  /** `sep` occurs in `s` at position `i`. */
  predicate OccursAt(s: string, sep: string, i: int)
  {
    0 <= i && i + |sep| <= |s| && s[i..i + |sep|] == sep
  }

  /** The part of `s` before the first occurrence of `sep`, or all of `s`. */
  function BeforeFirst(s: string, sep: string): (r: string)
    requires sep != []
    ensures r <= s
    decreases |s|
  {
    if |s| < |sep| then s
    else if s[..|sep|] == sep then ""
    else [s[0]] + BeforeFirst(s[1..], sep)
  }

  /** A string in which the separator's first character never occurs is
      returned whole. */
  lemma {:induction false} BeforeFirstNoOccurrence(w: string, sep: string)
    requires sep != [] && sep[0] !in w
    ensures BeforeFirst(w, sep) == w
    decreases |w|
  {
    if |w| >= |sep| {
      assert w[..|sep|][0] == w[0];
      BeforeFirstNoOccurrence(w[1..], sep);
      assert [w[0]] + w[1..] == w;
    }
  }

  /** Everything from the separator on is cut away. */
  lemma {:induction false} BeforeFirstCuts(w: string, sep: string, rest: string)
    requires sep != [] && sep[0] !in w
    ensures BeforeFirst(w + sep + rest, sep) == w
    decreases |w|
  {
    var s := w + sep + rest;
    if w == [] {
      assert s[..|sep|] == sep;
    } else {
      assert s[..|sep|][0] == w[0];
      BeforeFirstCuts(w[1..], sep, rest);
      assert s[1..] == w[1..] + sep + rest;
      assert [w[0]] + w[1..] == w;
    }
  }

  /** What is left holds no occurrence of the separator. */
  lemma {:induction false} BeforeFirstFree(s: string, sep: string)
    requires sep != []
    ensures !Contains(BeforeFirst(s, sep), sep)
    decreases |s|
  {
    var r := BeforeFirst(s, sep);
    if |s| >= |sep| && s[..|sep|] != sep {
      var tail := BeforeFirst(s[1..], sep);
      BeforeFirstFree(s[1..], sep);
      assert r == [s[0]] + tail;
      forall i | 0 <= i <= |r| && OccursAt(r, sep, i) ensures false {
        if i > 0 {
          OccursAfterHead(s[0], tail, sep, i);
        }
      }
    }
  }

  /** An occurrence past the first character is an occurrence in the rest. */
  lemma OccursAfterHead(c: char, tail: string, sep: string, i: int)
    requires 0 < i && OccursAt([c] + tail, sep, i)
    ensures OccursAt(tail, sep, i - 1)
  {
    assert ([c] + tail)[i..i + |sep|] == tail[i - 1..i - 1 + |sep|];
  }

  lemma {:induction false} BeforeFirstIdempotent(s: string, sep: string)
    requires sep != []
    ensures BeforeFirst(BeforeFirst(s, sep), sep) == BeforeFirst(s, sep)
  {
    BeforeFirstFree(s, sep);
    BeforeFirstWhole(BeforeFirst(s, sep), sep);
  }

  lemma {:induction false} BeforeFirstWhole(w: string, sep: string)
    requires sep != [] && !Contains(w, sep)
    ensures BeforeFirst(w, sep) == w
    decreases |w|
  {
    if |w| >= |sep| {
      assert !OccursAt(w, sep, 0);
      assert !Contains(w[1..], sep) by {
        forall i | OccursAt(w[1..], sep, i) ensures false {
          assert w[1..][i..i + |sep|] == w[i + 1..i + 1 + |sep|];
          assert OccursAt(w, sep, i + 1);
        }
      }
      BeforeFirstWhole(w[1..], sep);
      assert [w[0]] + w[1..] == w;
    }
  }

  /** Python's `s.split(d)` for a one-character separator. */
  function Split(s: string, d: char): (parts: seq<string>)
    ensures |parts| >= 1
    ensures forall k :: 0 <= k < |parts| ==> d !in parts[k]
    decreases |s|
  {
    if s == [] then [""]
    else
      var rest := Split(s[1..], d);
      if s[0] == d then [""] + rest
      else [[s[0]] + rest[0]] + rest[1..]
  }

  /** Python's `d.join(parts)`. */
  function Join(parts: seq<string>, d: char): string
  {
    if |parts| == 0 then ""
    else if |parts| == 1 then parts[0]
    else parts[0] + [d] + Join(parts[1..], d)
  }

  lemma {:induction false} JoinSplit(s: string, d: char)
    ensures Join(Split(s, d), d) == s
    decreases |s|
  {
    if s != [] {
      var rest := Split(s[1..], d);
      JoinSplit(s[1..], d);
      if s[0] != d {
        if |rest| == 1 {
        } else {
          assert Join(rest, d) == rest[0] + [d] + Join(rest[1..], d);
          assert ([[s[0]] + rest[0]] + rest[1..])[1..] == rest[1..];
        }
      } else {
        assert ([""] + rest)[1..] == rest;
      }
    }
  }

  lemma {:induction false} SplitJoin(parts: seq<string>, d: char)
    requires |parts| >= 1
    requires forall k :: 0 <= k < |parts| ==> d !in parts[k]
    ensures Split(Join(parts, d), d) == parts
    decreases |parts|, |parts[0]|
  {
    if |parts| == 1 {
      SplitNoSeparator(parts[0], d);
    } else if parts[0] == [] {
      var tail := parts[1..];
      SplitJoin(tail, d);
      assert Join(parts, d) == [d] + Join(tail, d);
      assert ([d] + Join(tail, d))[1..] == Join(tail, d);
      assert parts == [""] + tail;
    } else {
      var p := parts[0];
      var shorter := [p[1..]] + parts[1..];
      SplitJoin(shorter, d);
      assert Join(shorter, d) == p[1..] + [d] + Join(parts[1..], d);
      assert Join(parts, d) == [p[0]] + Join(shorter, d);
      assert (([p[0]] + Join(shorter, d)))[1..] == Join(shorter, d);
      assert p[0] != d by { assert p[0] in p; }
      assert [p[0]] + p[1..] == p;
    }
  }

  lemma {:induction false} SplitNoSeparator(s: string, d: char)
    requires d !in s
    ensures Split(s, d) == [s]
    decreases |s|
  {
    if s != [] {
      assert s == [s[0]] + s[1..];
      SplitNoSeparator(s[1..], d);
      assert [s[0]] + s[1..] == s;
    }
  }

  lemma {:induction false} JoinSnoc(parts: seq<string>, x: string, d: char)
    requires |parts| >= 1
    ensures Join(parts + [x], d) == Join(parts, d) + [d] + x
    decreases |parts|
  {
    if |parts| == 1 {
      assert parts + [x] == [parts[0], x];
    } else {
      assert (parts + [x])[1..] == parts[1..] + [x];
      JoinSnoc(parts[1..], x, d);
    }
  }

  // ---------------------------------------------------------------------------
  // Ordering of strings by code point (Python's str comparison) and sorting
  // ---------------------------------------------------------------------------

  /** `a` comes no later than `b` in code-point lexicographic order. */
  predicate Below(a: string, b: string)
    decreases |a|
  {
    a == [] || (b != [] && (a[0] < b[0] || (a[0] == b[0] && Below(a[1..], b[1..]))))
  }

  lemma {:induction false} BelowTotal(a: string, b: string)
    ensures Below(a, b) || Below(b, a)
    decreases |a|
  {
    if a != [] && b != [] && a[0] == b[0] {
      BelowTotal(a[1..], b[1..]);
    }
  }

  lemma {:induction false} BelowAntisymmetric(a: string, b: string)
    requires Below(a, b) && Below(b, a)
    ensures a == b
    decreases |a|
  {
    if a != [] {
      BelowAntisymmetric(a[1..], b[1..]);
      assert a == [a[0]] + a[1..] && b == [b[0]] + b[1..];
    }
  }

  lemma {:induction false} BelowTransitive(a: string, b: string, c: string)
    requires Below(a, b) && Below(b, c)
    ensures Below(a, c)
    decreases |a|
  {
    if a != [] && a[0] == b[0] && b[0] == c[0] {
      BelowTransitive(a[1..], b[1..], c[1..]);
    }
  }

  predicate Sorted(xs: seq<string>)
  {
    forall i, j :: 0 <= i < j < |xs| ==> Below(xs[i], xs[j])
  }

  /** Every element of `ys` comes no earlier than `a`. */
  predicate LowerBound(a: string, ys: seq<string>)
  {
    forall k :: 0 <= k < |ys| ==> Below(a, ys[k])
  }

  lemma SortedCons(a: string, ys: seq<string>)
    requires LowerBound(a, ys) && Sorted(ys)
    ensures Sorted([a] + ys)
  {
    forall i, j | 0 <= i < j < |[a] + ys| ensures Below(([a] + ys)[i], ([a] + ys)[j]) {
      if i > 0 {
        assert ([a] + ys)[i] == ys[i - 1] && ([a] + ys)[j] == ys[j - 1];
      }
    }
  }

  function Insert(x: string, xs: seq<string>): seq<string>
    decreases |xs|
  {
    if xs == [] then [x]
    else if Below(x, xs[0]) then [x] + xs
    else [xs[0]] + Insert(x, xs[1..])
  }

  lemma {:induction false} InsertBound(a: string, x: string, xs: seq<string>)
    requires LowerBound(a, xs) && Below(a, x)
    ensures LowerBound(a, Insert(x, xs))
    decreases |xs|
  {
    if xs != [] && !Below(x, xs[0]) {
      InsertBound(a, x, xs[1..]);
    }
  }

  lemma {:induction false} InsertKeepsSorted(x: string, xs: seq<string>)
    requires Sorted(xs)
    ensures Sorted(Insert(x, xs))
    decreases |xs|
  {
    if xs == [] {
    } else if Below(x, xs[0]) {
      forall k | 0 <= k < |xs| ensures Below(x, xs[k]) {
        if k > 0 { BelowTransitive(x, xs[0], xs[k]); }
      }
      SortedCons(x, xs);
    } else {
      BelowTotal(x, xs[0]);
      InsertKeepsSorted(x, xs[1..]);
      assert LowerBound(xs[0], xs[1..]);
      InsertBound(xs[0], x, xs[1..]);
      SortedCons(xs[0], Insert(x, xs[1..]));
    }
  }

  lemma {:induction false} InsertPermutes(x: string, xs: seq<string>)
    ensures multiset(Insert(x, xs)) == multiset(xs) + multiset{x}
    decreases |xs|
  {
    if xs != [] && !Below(x, xs[0]) {
      InsertPermutes(x, xs[1..]);
      assert xs == [xs[0]] + xs[1..];
    }
  }

  /** Insertion sort: the result is ordered and a permutation of the input. */
  function Sort(xs: seq<string>): (r: seq<string>)
    ensures Sorted(r)
    ensures multiset(r) == multiset(xs)
    decreases |xs|
  {
    if xs == [] then []
    else
      var rest := Sort(xs[1..]);
      InsertKeepsSorted(xs[0], rest);
      InsertPermutes(xs[0], rest);
      assert xs == [xs[0]] + xs[1..];
      Insert(xs[0], rest)
  }

  lemma {:induction false} SortOfSorted(xs: seq<string>)
    requires Sorted(xs)
    ensures Sort(xs) == xs
    decreases |xs|
  {
    if xs != [] {
      SortOfSorted(xs[1..]);
      if |xs| > 1 {
        assert Below(xs[0], xs[1..][0]);
      }
    }
  }

  // ---------------------------------------------------------------------------
  // convert_cases and order_annotations
  // ---------------------------------------------------------------------------

  /** A Wikidata case label or case ID in its short form; the label is read up
      to its first " case". */
  function ConvertCases(caseText: string): (tag: string)
    ensures tag in {"Acc", "Dat", "Gen", ""}
  {
    var c := BeforeFirst(caseText, " case");
    if c in ["accusative", "Q146078"] then "Acc"
    else if c in ["dative", "Q145599"] then "Dat"
    else if c in ["genitive", "Q146233"] then "Gen"
    else ""
  }

  /** Only the text before the first " case" decides the tag. */
  lemma ConvertCasesIgnoresCaseSuffix(caseText: string)
    ensures ConvertCases(caseText) == ConvertCases(BeforeFirst(caseText, " case"))
  {
    BeforeFirstIdempotent(caseText, " case");
  }

  /** A case word (no spaces) gives the same tag with or without its
      " case" suffix; the word forms and Wikidata IDs of the accusative,
      dative and genitive give their tags, and any other word none. */
  lemma ConvertCasesForms(w: string)
    requires ' ' !in w
    ensures ConvertCases(w + " case") == ConvertCases(w)
    ensures w in ["accusative", "Q146078"] ==> ConvertCases(w) == "Acc"
    ensures w in ["dative", "Q145599"] ==> ConvertCases(w) == "Dat"
    ensures w in ["genitive", "Q146233"] ==> ConvertCases(w) == "Gen"
    ensures w !in ["accusative", "Q146078", "dative", "Q145599", "genitive", "Q146233"] ==> ConvertCases(w) == ""
  {
    CaseWord(w);
  }

  lemma CaseWord(w: string)
    requires ' ' !in w
    ensures BeforeFirst(w, " case") == w && BeforeFirst(w + " case", " case") == w
  {
    BeforeFirstNoOccurrence(w, " case");
    BeforeFirstCuts(w, " case", "");
    assert w + " case" + "" == w + " case";
  }

  /** The tags that the source lets through unsorted. */
  const SingleAnnotations: seq<string> := ["Akk", "Dat", "Gen"]

  /** The canonical form of a "/"-joined annotation: its components sorted. */
  function OrderAnnotations(annotation: string): string
  {
    if annotation in SingleAnnotations then annotation
    else Join(Sort(Split(annotation, '/')), '/')
  }

  /** An annotation without "/" is its own canonical form. */
  lemma {:induction false} OrderAnnotationsSingle(annotation: string)
    requires '/' !in annotation
    ensures OrderAnnotations(annotation) == annotation
  {
    SplitNoSeparator(annotation, '/');
  }

  /** The canonical form is the "/"-join of the sorted components, in both
      branches of the source. */
  lemma {:induction false} OrderAnnotationsSortsComponents(annotation: string)
    ensures OrderAnnotations(annotation) == Join(Sort(Split(annotation, '/')), '/')
    ensures Split(OrderAnnotations(annotation), '/') == Sort(Split(annotation, '/'))
    ensures multiset(Split(OrderAnnotations(annotation), '/')) == multiset(Split(annotation, '/'))
  {
    if annotation in SingleAnnotations {
      SplitNoSeparator(annotation, '/');
    }
    var sorted := Sort(Split(annotation, '/'));
    assert forall k :: 0 <= k < |sorted| ==> '/' !in sorted[k] by {
      forall k | 0 <= k < |sorted| ensures '/' !in sorted[k] {
        assert sorted[k] in multiset(sorted);
        assert sorted[k] in Split(annotation, '/');
      }
    }
    assert |sorted| >= 1 by {
      assert |multiset(sorted)| == |multiset(Split(annotation, '/'))|;
    }
    SplitJoin(sorted, '/');
  }

  lemma {:induction false} OrderAnnotationsIdempotent(annotation: string)
    ensures OrderAnnotations(OrderAnnotations(annotation)) == OrderAnnotations(annotation)
  {
    var once := OrderAnnotations(annotation);
    OrderAnnotationsSortsComponents(annotation);
    OrderAnnotationsSortsComponents(once);
    SortOfSorted(Split(once, '/'));
  }

  // ---------------------------------------------------------------------------
  // The aggregation pass (lines 56-72)
  // ---------------------------------------------------------------------------

  /** The effect of one record on the table being built. */
  function AddRecord(m: map<string, string>, r: Record): map<string, string>
  {
    match r.preposition
    case None => m
    case Some(p) =>
      match r.caseLabel
      case Some(c) =>
        if p !in m then m[p := ConvertCases(c)] else m[p := m[p] + "/" + ConvertCases(c)]
      case None =>
        if p != "a" then m[p := ""] else m
  }

  /** The table after all of `records`, in order. */
  function Aggregate(records: seq<Record>): map<string, string>
    decreases |records|
  {
    if records == [] then map[]
    else AddRecord(Aggregate(records[..|records| - 1]), records[|records| - 1])
  }

  /** The aggregation loop of the script. */
  method AggregatePrepositions(records: seq<Record>) returns (formatted: map<string, string>)
    ensures formatted == Aggregate(records)
  {
    formatted := map[];
    for i := 0 to |records|
      invariant formatted == Aggregate(records[..i])
    {
      assert records[..i + 1][..i] == records[..i];
      var r := records[i];
      if r.preposition.Some? {
        var p := r.preposition.value;
        if r.caseLabel.Some? {
          if p !in formatted {
            formatted := formatted[p := ConvertCases(r.caseLabel.value)];
          } else {
            formatted := formatted[p := formatted[p] + "/" + ConvertCases(r.caseLabel.value)];
          }
        } else if p != "a" {
          formatted := formatted[p := ""];
        }
      }
    }
    assert records[..|records|] == records;
  }

  /** A record without a preposition leaves the table alone. */
  lemma AggregateIgnoresMissingPreposition(records: seq<Record>, c: Option<string>)
    ensures Aggregate(records + [Record(None, c)]) == Aggregate(records)
  {
    assert (records + [Record(None, c)])[..|records|] == records;
  }

  /** A record without a case empties its preposition's annotation, except for "a". */
  lemma AggregateCaselessRecord(records: seq<Record>, p: string)
    ensures p != "a" ==> Aggregate(records + [Record(Some(p), None)]) == Aggregate(records)[p := ""]
    ensures p == "a" ==> Aggregate(records + [Record(Some(p), None)]) == Aggregate(records)
  {
    assert (records + [Record(Some(p), None)])[..|records|] == records;
  }

  /** The converted cases of the records for `p` that carry a case, in input order. */
  function CasesOf(records: seq<Record>, p: string): seq<string>
    decreases |records|
  {
    if records == [] then []
    else
      var r := records[|records| - 1];
      CasesOf(records[..|records| - 1], p)
      + (if r.preposition == Some(p) && r.caseLabel.Some? then [ConvertCases(r.caseLabel.value)] else [])
  }

  /** Some record for `p` without a case would empty its annotation. */
  predicate Resets(records: seq<Record>, p: string)
  {
    p != "a" && exists k :: 0 <= k < |records| && records[k] == Record(Some(p), None)
  }

  /** Without an emptying record, the annotation of `p` is the "/"-join of the
      converted cases of its records, in input order. */
  lemma {:induction false} AggregateJoins(records: seq<Record>, p: string)
    requires !Resets(records, p)
    ensures p in Aggregate(records) <==> |CasesOf(records, p)| > 0
    ensures p in Aggregate(records) ==> Aggregate(records)[p] == Join(CasesOf(records, p), '/')
    decreases |records|
  {
    if records != [] {
      var init := records[..|records| - 1];
      var r := records[|records| - 1];
      var m := Aggregate(init);
      var cs := CasesOf(init, p);
      assert !Resets(init, p);
      AggregateJoins(init, p);
      assert Aggregate(records) == AddRecord(m, r);
      if r.preposition == Some(p) && r.caseLabel.Some? {
        var c := ConvertCases(r.caseLabel.value);
        assert CasesOf(records, p) == cs + [c];
        if |cs| > 0 {
          JoinSnoc(cs, c, '/');
          assert Aggregate(records)[p] == m[p] + "/" + c;
        } else {
          assert cs + [c] == [c];
        }
      } else {
        assert CasesOf(records, p) == cs;
        if r.preposition == Some(p) {
          assert p == "a" by {
            assert records[|records| - 1] == Record(Some(p), None);
          }
        }
      }
    }
  }

  /** Without an emptying record, the annotation of `p` holds one component
      per case-carrying record for `p`, in input order. */
  lemma AggregateComponents(records: seq<Record>, p: string)
    requires !Resets(records, p)
    ensures p in Aggregate(records) <==> |CasesOf(records, p)| > 0
    ensures p in Aggregate(records) ==> Split(Aggregate(records)[p], '/') == CasesOf(records, p)
  {
    AggregateJoins(records, p);
    if p in Aggregate(records) {
      CasesAreTags(records, p);
      SplitJoin(CasesOf(records, p), '/');
    }
  }

  lemma {:induction false} CasesAreTags(records: seq<Record>, p: string)
    ensures forall k :: 0 <= k < |CasesOf(records, p)| ==> CasesOf(records, p)[k] in {"Acc", "Dat", "Gen", ""}
    ensures forall k :: 0 <= k < |CasesOf(records, p)| ==> '/' !in CasesOf(records, p)[k]
    decreases |records|
  {
    if records != [] {
      CasesAreTags(records[..|records| - 1], p);
    }
  }

  /** The prepositions of the table: those with a record that carries a case,
      or with a record without a case unless the preposition is "a". */
  lemma {:induction false} AggregateKeys(records: seq<Record>, p: string)
    ensures p in Aggregate(records) <==>
      exists k :: 0 <= k < |records| && records[k].preposition == Some(p)
                  && (records[k].caseLabel.Some? || p != "a")
    decreases |records|
  {
    if records != [] {
      var init := records[..|records| - 1];
      AggregateKeys(init, p);
      if exists k :: 0 <= k < |init| && init[k].preposition == Some(p)
                     && (init[k].caseLabel.Some? || p != "a") {
        var k :| 0 <= k < |init| && init[k].preposition == Some(p)
                 && (init[k].caseLabel.Some? || p != "a");
        assert records[k] == init[k];
      }
      if exists k :: 0 <= k < |records| && records[k].preposition == Some(p)
                     && (records[k].caseLabel.Some? || p != "a") {
        var k :| 0 <= k < |records| && records[k].preposition == Some(p)
                 && (records[k].caseLabel.Some? || p != "a");
        if k < |init| { assert init[k] == records[k]; }
      }
    }
  }

  // ---------------------------------------------------------------------------
  // The reorder pass (lines 74-75) and the final sort (line 77)
  // ---------------------------------------------------------------------------

  /** Rewrites every annotation of the table into its canonical form. */
  method ReorderAnnotations(table: map<string, string>) returns (reordered: map<string, string>)
    ensures reordered.Keys == table.Keys
    ensures forall k :: k in table ==> reordered[k] == OrderAnnotations(table[k])
  {
    reordered := table;
    var todo := table.Keys;
    while todo != {}
      invariant todo <= table.Keys
      invariant reordered.Keys == table.Keys
      invariant forall k :: k in table && k !in todo ==> reordered[k] == OrderAnnotations(table[k])
      invariant forall k :: k in todo ==> reordered[k] == table[k]
      decreases todo
    {
      var k :| k in todo;
      reordered := reordered[k := OrderAnnotations(reordered[k])];
      todo := todo - {k};
    }
  }

  /** Keys in strictly ascending order. */
  predicate StrictlyAscending(keys: seq<string>)
  {
    forall i, j :: 0 <= i < j < |keys| ==> Below(keys[i], keys[j]) && keys[i] != keys[j]
  }

  /** Sorting a sequence without repetitions gives strictly ascending keys. */
  lemma SortDistinct(xs: seq<string>)
    requires forall i, j :: 0 <= i < j < |xs| ==> xs[i] != xs[j]
    ensures StrictlyAscending(Sort(xs))
  {
    var r := Sort(xs);
    forall i, j | 0 <= i < j < |r| ensures r[i] != r[j] {
      if r[i] == r[j] {
        RepeatCount(r, i, j);
        DistinctCount(xs, r[i]);
      }
    }
  }

  lemma RepeatCount(r: seq<string>, i: int, j: int)
    requires 0 <= i < j < |r| && r[i] == r[j]
    ensures multiset(r)[r[i]] >= 2
  {
    assert r == r[..j] + r[j..];
    assert r[..j][i] == r[i];
    assert r[j..][0] == r[i];
    assert multiset(r) == multiset(r[..j]) + multiset(r[j..]);
  }

  lemma {:induction false} DistinctCount(xs: seq<string>, x: string)
    requires forall i, j :: 0 <= i < j < |xs| ==> xs[i] != xs[j]
    ensures multiset(xs)[x] <= 1
    decreases |xs|
  {
    if xs != [] {
      DistinctCount(xs[1..], x);
      assert xs == [xs[0]] + xs[1..];
      if xs[0] == x {
        assert forall k :: 0 <= k < |xs[1..]| ==> xs[1..][k] != x;
      }
    }
  }

  /** The keys of the table, each once, in the order the loop visits them. */
  method KeysOf(table: map<string, string>) returns (keys: seq<string>)
    ensures forall k :: k in keys <==> k in table
    ensures forall i, j :: 0 <= i < j < |keys| ==> keys[i] != keys[j]
  {
    keys := [];
    var todo := table.Keys;
    while todo != {}
      invariant todo <= table.Keys
      invariant forall k :: k in table ==> (k in todo <==> k !in keys)
      invariant forall k :: k in keys ==> k in table
      invariant forall i, j :: 0 <= i < j < |keys| ==> keys[i] != keys[j]
      decreases todo
    {
      var k :| k in todo;
      keys := keys + [k];
      todo := todo - {k};
    }
  }

  /** The prepositions of a list of entries, in order. */
  function Prepositions(entries: seq<(string, string)>): (ps: seq<string>)
    ensures |ps| == |entries|
    ensures forall i :: 0 <= i < |entries| ==> ps[i] == entries[i].0
  {
    seq(|entries|, i requires 0 <= i < |entries| => entries[i].0)
  }

  /** The table as an ordered list of (preposition, annotation) entries. */
  method SortByPreposition(table: map<string, string>) returns (entries: seq<(string, string)>)
    ensures StrictlyAscending(Prepositions(entries))
    ensures forall i :: 0 <= i < |entries| ==> entries[i].0 in table && entries[i].1 == table[entries[i].0]
    ensures forall k :: k in table ==> k in Prepositions(entries)
  {
    var keys := KeysOf(table);
    SortDistinct(keys);
    var sorted := Sort(keys);
    assert forall k :: k in sorted <==> k in keys by {
      forall k ensures k in sorted <==> k in keys {
        assert k in sorted <==> k in multiset(sorted);
        assert k in keys <==> k in multiset(keys);
      }
    }
    entries := seq(|sorted|, i requires 0 <= i < |sorted| => (sorted[i], table[sorted[i]]));
    assert Prepositions(entries) == sorted;
  }

  /** The whole script without its file input and output: the entries are
      in strictly ascending order of preposition, cover exactly the aggregated
      prepositions, and every annotation is in canonical form. */
  method FormatPrepositions(records: seq<Record>) returns (entries: seq<(string, string)>)
    ensures StrictlyAscending(Prepositions(entries))
    ensures forall p :: p in Aggregate(records) <==> p in Prepositions(entries)
    ensures forall i :: 0 <= i < |entries| ==>
      entries[i].0 in Aggregate(records)
      && entries[i].1 == OrderAnnotations(Aggregate(records)[entries[i].0])
      && OrderAnnotations(entries[i].1) == entries[i].1
  {
    var formatted := AggregatePrepositions(records);
    formatted := ReorderAnnotations(formatted);
    entries := SortByPreposition(formatted);
    forall i | 0 <= i < |entries|
      ensures OrderAnnotations(entries[i].1) == entries[i].1
    {
      OrderAnnotationsIdempotent(Aggregate(records)[entries[i].0]);
    }
  }
}
