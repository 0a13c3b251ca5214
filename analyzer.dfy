/**
 * The frame analyzer: its class-name list (the sorted directory listing)
 * fixed at construction, and the reduction of the classifier's
 * probability vector to one (label, confidence) pair.
 */
module FrameAnalysis {
  import opened Wrappers
  import opened DosageRules

  /** Python's string order: lexicographic by code point. */
  predicate LexLe(a: string, b: string)
    ensures |a| <= |b| && a == b[..|a|] ==> LexLe(a, b)
    ensures 0 < |a| && 0 < |b| && a[0] < b[0] ==> LexLe(a, b)
    ensures 0 < |a| && 0 < |b| && b[0] < a[0] ==> !LexLe(a, b)
    ensures 0 < |a| && |b| == 0 ==> !LexLe(a, b)
  {
    assert 0 < |a| <= |b| && a == b[..|a|] ==> a[1..] == b[1..][..|a| - 1];
    |a| == 0 || (|b| > 0 && (a[0] < b[0] || (a[0] == b[0] && LexLe(a[1..], b[1..]))))
  }

  lemma {:induction false} LexLeReflexive(a: string)
    ensures LexLe(a, a)
  {
    if |a| > 0 {
      LexLeReflexive(a[1..]);
    }
  }

  lemma {:induction false} LexLeTotal(a: string, b: string)
    ensures LexLe(a, b) || LexLe(b, a)
  {
    if |a| > 0 && |b| > 0 && a[0] == b[0] {
      LexLeTotal(a[1..], b[1..]);
    }
  }

  lemma {:induction false} LexLeAntisymmetric(a: string, b: string)
    requires LexLe(a, b) && LexLe(b, a)
    ensures a == b
  {
    if |a| > 0 && |b| > 0 {
      LexLeAntisymmetric(a[1..], b[1..]);
      assert a == [a[0]] + a[1..] && b == [b[0]] + b[1..];
    }
  }

  lemma {:induction false} LexLeTransitive(a: string, b: string, c: string)
    requires LexLe(a, b) && LexLe(b, c)
    ensures LexLe(a, c)
  {
    if |a| > 0 && a[0] == b[0] && b[0] == c[0] {
      LexLeTransitive(a[1..], b[1..], c[1..]);
    }
  }

  predicate Sorted(s: seq<string>) {
    forall i, j :: 0 <= i < j < |s| ==> LexLe(s[i], s[j])
  }

  /** Inserts x into a sorted list, keeping it sorted. */
  function Insert(x: string, s: seq<string>): (r: seq<string>)
    requires Sorted(s)
    ensures Sorted(r)
    ensures multiset(r) == multiset(s) + multiset{x}
  {
    if s == [] then [x]
    else if LexLe(x, s[0]) then
      PrependSorted(x, s);
      [x] + s
    else
      LexLeTotal(x, s[0]);
      SortedTail(s);
      var rest := Insert(x, s[1..]);
      assert s == [s[0]] + s[1..];
      PrependLeast(s[0], rest, s[1..], x);
      [s[0]] + rest
  }

  lemma PrependSorted(x: string, s: seq<string>)
    requires Sorted(s) && |s| > 0 && LexLe(x, s[0])
    ensures Sorted([x] + s)
  {
    forall j | 0 < j < |s| ensures LexLe(x, s[j]) {
      LexLeTransitive(x, s[0], s[j]);
    }
  }

  /** y is below every element of rest when rest holds tail's names plus x, all above y. */
  lemma PrependLeast(y: string, rest: seq<string>, tail: seq<string>, x: string)
    requires Sorted(rest) && Sorted([y] + tail) && LexLe(y, x)
    requires multiset(rest) == multiset(tail) + multiset{x}
    ensures Sorted([y] + rest)
  {
    forall j | 0 <= j < |rest| ensures LexLe(y, rest[j]) {
      assert rest[j] in multiset(rest);
      if rest[j] != x {
        assert rest[j] in multiset(tail);
        var k :| 0 <= k < |tail| && tail[k] == rest[j];
        assert ([y] + tail)[0] == y && ([y] + tail)[k + 1] == tail[k];
      }
    }
  }

  /** Python's `sorted(...)` on a list of names. */
  function Sort(s: seq<string>): (r: seq<string>)
    ensures Sorted(r)
    ensures multiset(r) == multiset(s)
  {
    if s == [] then []
    else
      assert s == [s[0]] + s[1..];
      Insert(s[0], Sort(s[1..]))
  }

  lemma SortedTail(s: seq<string>)
    requires Sorted(s) && |s| > 0
    ensures Sorted(s[1..])
  {
    forall i, k | 0 <= i < k < |s| - 1 ensures LexLe(s[1..][i], s[1..][k]) {
      assert s[1..][i] == s[i + 1] && s[1..][k] == s[k + 1];
    }
  }

  /** The head of a sorted list is below every element of it. */
  lemma SortedHeadLeast(s: seq<string>, x: string)
    requires Sorted(s) && x in multiset(s)
    ensures LexLe(s[0], x)
  {
    var i :| 0 <= i < |s| && s[i] == x;
    if i == 0 {
      LexLeReflexive(x);
    }
  }

  lemma SameHeadSameTail(a: seq<string>, b: seq<string>)
    requires |a| > 0 && |b| > 0 && a[0] == b[0] && multiset(a) == multiset(b)
    ensures multiset(a[1..]) == multiset(b[1..])
  {
    assert a == [a[0]] + a[1..] && b == [b[0]] + b[1..];
    assert multiset(a[1..]) == multiset(a) - multiset{a[0]};
    assert multiset(b[1..]) == multiset(b) - multiset{b[0]};
  }

  /** Two sorted arrangements of the same names are the same list. */
  lemma {:induction false} SortedUnique(a: seq<string>, b: seq<string>)
    requires Sorted(a) && Sorted(b)
    requires multiset(a) == multiset(b)
    ensures a == b
  {
    if a != [] {
      assert a[0] in multiset(b);
      assert |b| > 0;
      SortedHeadLeast(b, a[0]);
      SortedHeadLeast(a, b[0]);
      LexLeAntisymmetric(a[0], b[0]);
      SameHeadSameTail(a, b);
      SortedTail(a);
      SortedTail(b);
      SortedUnique(a[1..], b[1..]);
    }
  }

  datatype InitError = ModelNotFound | DataDirNotFound

  /** A constructed analyzer: the classifier itself is opaque, the class names are fixed. */
  datatype Analyzer = Analyzer(classNames: seq<string>)

  /**
   * `WheatAnalyzer.__init__`: fails when the checkpoint file is absent,
   * then when the training directory does not exist (both raise
   * FileNotFoundError); otherwise the class names are the sorted listing.
   */
  function NewAnalyzer(modelExists: bool, dataDirListing: Option<seq<string>>): (r: Result<Analyzer, InitError>)
    ensures !modelExists ==> r == Failure(ModelNotFound)
    ensures modelExists && dataDirListing.None? ==> r == Failure(DataDirNotFound)
    ensures modelExists && dataDirListing.Some? ==>
      r.Success? && Sorted(r.value.classNames) && multiset(r.value.classNames) == multiset(dataDirListing.value)
  {
    if !modelExists then Failure(ModelNotFound)
    else match dataDirListing
      case None => Failure(DataDirNotFound)
      case Some(listing) => Success(Analyzer(Sort(listing)))
  }

  /** The class names are THE sorted listing: any sorted arrangement of the listing is them. */
  lemma ClassNamesAreSortedListing(listing: seq<string>, names: seq<string>)
    requires Sorted(names) && multiset(names) == multiset(listing)
    ensures NewAnalyzer(true, Some(listing)) == Success(Analyzer(names))
  {
    SortedUnique(Sort(listing), names);
  }

  /** `np.argmax`: the first index at which the maximum is attained. */
  function ArgMax(p: seq<real>): (i: nat)
    requires |p| > 0
    ensures i < |p|
    ensures forall j :: 0 <= j < |p| ==> p[j] <= p[i]
    ensures forall j :: 0 <= j < i ==> p[j] < p[i]
  {
    if |p| == 1 then 0
    else
      var k := ArgMax(p[..|p| - 1]);
      if p[k] < p[|p| - 1] then |p| - 1 else k
  }

  /** The errors `analyze_frame` can raise: `np.max` of an empty vector, an index past the class names. */
  datatype AnalysisError = EmptyPrediction | ClassIndexOutOfRange(index: nat)

  /** `analyze_frame` on the probability vector the classifier returned for the frame. */
  function AnalyzeFrame(a: Analyzer, probabilities: seq<real>): (r: Result<AnalysisResult, AnalysisError>)
    ensures |probabilities| == 0 <==> r == Failure(EmptyPrediction)
    ensures r.Failure? && r.error.ClassIndexOutOfRange? ==>
      |a.classNames| <= r.error.index < |probabilities|
      && (forall j :: 0 <= j < |probabilities| ==> probabilities[j] <= probabilities[r.error.index])
      && (forall j :: 0 <= j < r.error.index ==> probabilities[j] < probabilities[r.error.index])
    ensures r.Success? ==>
      exists i :: 0 <= i < |probabilities| && i < |a.classNames|
        && r.value.prediction == a.classNames[i] && r.value.confidence == probabilities[i]
        && (forall j :: 0 <= j < |probabilities| ==> probabilities[j] <= probabilities[i])
        && (forall j :: 0 <= j < i ==> probabilities[j] < probabilities[i])
    ensures 0 < |probabilities| <= |a.classNames| ==> r.Success?
  {
    if |probabilities| == 0 then Failure(EmptyPrediction)
    else
      var confidence := probabilities[ArgMax(probabilities)];
      var classIndex := ArgMax(probabilities);
      if classIndex < |a.classNames| then
        Success(AnalysisResult(a.classNames[classIndex], confidence))
      else
        Failure(ClassIndexOutOfRange(classIndex))
  }
}
