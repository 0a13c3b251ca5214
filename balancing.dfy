/**
 * The offline balancing pass over the training directory: every class
 * directory holding between one and 599 images is topped up to 600 with
 * augmented copies of its original images.
 */
module DatasetBalancing {

  /** An entry of the training root: a directory (its file names) or anything else. */
  datatype Entry = Directory(files: seq<string>) | OtherEntry

  const TargetImagesPerClass: nat := 600

  /** `str.lower` on the ASCII letters. */
  function LowerChar(c: char): char {
    if 'A' <= c <= 'Z' then (c as int + 32) as char else c
  }

  function Lower(s: string): (r: string)
    ensures |r| == |s|
    ensures forall i :: 0 <= i < |s| ==> r[i] == LowerChar(s[i])
    ensures forall i :: 0 <= i < |r| ==> !('A' <= r[i] <= 'Z')
    ensures forall i :: 0 <= i < |s| && !('A' <= s[i] <= 'Z') ==> r[i] == s[i]
    ensures forall i :: 0 <= i < |r| ==> LowerChar(r[i]) == r[i]
  {
    seq(|s|, i requires 0 <= i < |s| => LowerChar(s[i]))
  }

  predicate StartsWith(s: string, prefix: string) {
    |prefix| <= |s| && s[..|prefix|] == prefix
  }

  predicate EndsWith(s: string, suffix: string) {
    |suffix| <= |s| && s[|s| - |suffix|..] == suffix
  }

  /** The image filter: the lower-cased name ends in .png, .jpg or .jpeg. */
  predicate IsImageFile(name: string)
    ensures IsImageFile(name) ==> 4 <= |name|
    ensures EndsWith(name, ".png") || EndsWith(name, ".jpg") || EndsWith(name, ".jpeg") ==> IsImageFile(name)
  {
    var lower := Lower(name);
    assert EndsWith(name, ".png") ==> lower[|lower| - 4..] == name[|name| - 4..];
    assert EndsWith(name, ".jpg") ==> lower[|lower| - 4..] == name[|name| - 4..];
    assert EndsWith(name, ".jpeg") ==> lower[|lower| - 5..] == name[|name| - 5..];
    EndsWith(lower, ".png") || EndsWith(lower, ".jpg") || EndsWith(lower, ".jpeg")
  }

  /** The filter does not depend on the case of a name. */
  lemma ImageFilterIgnoresCase(name: string)
    ensures Lower(Lower(name)) == Lower(name)
    ensures IsImageFile(Lower(name)) == IsImageFile(name)
  {
    assert Lower(Lower(name)) == Lower(name);
  }

  lemma ImageFilterAcceptsUpperCase()
    ensures IsImageFile("leaf.JPG") && IsImageFile("aphid.png")
  {
    assert Lower("leaf.JPG") == "leaf.jpg";
    assert EndsWith("aphid.png", ".png");
  }

  lemma ImageFilterAcceptsMixedCase()
    ensures IsImageFile("rust_01.Jpeg")
  {
    assert Lower("rust_01.Jpeg") == "rust_01.jpeg";
  }

  lemma ImageFilterRejectsOthers()
    ensures !IsImageFile("notes.txt") && !IsImageFile("jpg")
  {
    assert Lower("notes.txt") == "notes.txt";
    assert Lower("jpg") == "jpg";
  }

  /** The image files of a directory listing, in listing order. */
  function ImageFiles(files: seq<string>): (r: seq<string>)
    ensures |r| <= |files|
    ensures forall f :: f in r <==> f in files && IsImageFile(f)
  {
    if files == [] then []
    else (if IsImageFile(files[0]) then [files[0]] else []) + ImageFiles(files[1..])
  }

  lemma {:induction false} ImageFilesAppend(a: seq<string>, b: seq<string>)
    ensures ImageFiles(a + b) == ImageFiles(a) + ImageFiles(b)
  {
    if a != [] {
      assert (a + b)[1..] == a[1..] + b;
      ImageFilesAppend(a[1..], b);
    } else {
      assert a + b == b;
    }
  }

  /** The entries of the root that are directories: the classes. */
  function ClassDirs(root: map<string, Entry>): set<string> {
    set d | d in root && root[d].Directory?
  }

  /**
   * The count check: some images, but fewer than the target, so between 1
   * and 599 images are to be generated and there is an original to seed them.
   */
  predicate NeedsAugmentation(files: seq<string>)
    ensures NeedsAugmentation(files) ==> 0 < TargetImagesPerClass - |ImageFiles(files)| < TargetImagesPerClass
    ensures NeedsAugmentation(files) ==> ImageFiles(files)[0] in files && IsImageFile(ImageFiles(files)[0])
  {
    0 < |ImageFiles(files)| < TargetImagesPerClass
  }

  /** A name the augmenter writes for a class: prefix `aug_<class>`, JPEG format. */
  predicate IsAugmentedName(className: string, name: string) {
    StartsWith(name, "aug_" + className) && EndsWith(name, ".jpg")
  }

  /** after is before followed by exactly count new names, each fresh and written for the class. */
  predicate ExtendedWith(className: string, before: seq<string>, after: seq<string>, count: nat) {
    |after| == |before| + count && after[..|before|] == before
    && forall j :: |before| <= j < |after| ==> IsAugmentedName(className, after[j]) && after[j] !in after[..j]
  }

  /** What balancing does to one entry of the root. */
  predicate EntryBalanced(className: string, before: Entry, after: Entry) {
    if before.Directory? && NeedsAugmentation(before.files) then
      after.Directory?
      && ExtendedWith(className, before.files, after.files, TargetImagesPerClass - |ImageFiles(before.files)|)
    else
      after == before
  }

  /** What balancing does to the whole root. */
  predicate BalancedFrom(before: map<string, Entry>, after: map<string, Entry>) {
    after.Keys == before.Keys && forall k :: k in before ==> EntryBalanced(k, before[k], after[k])
  }

  /** Entries of the root that are not directories are never treated as classes, so stay as they were. */
  lemma NonClassEntriesUntouched(before: map<string, Entry>, after: map<string, Entry>, k: string)
    requires BalancedFrom(before, after) && k in before && k !in ClassDirs(before)
    ensures k in after && after[k] == before[k]
  {
    assert EntryBalanced(k, before[k], after[k]);
  }

  /** One generated image: the class, the original it was derived from, and its new name. */
  datatype Augmentation = Augmentation(className: string, seed: string, output: string)

  lemma AugmentedNameIsImage(className: string, name: string)
    requires IsAugmentedName(className, name)
    ensures IsImageFile(name)
  {
    var lower := Lower(name);
    assert lower[|lower| - 4..] == name[|name| - 4..];
  }

  lemma ExtendedDropLast(className: string, before: seq<string>, after: seq<string>, count: nat)
    requires ExtendedWith(className, before, after, count) && count > 0
    ensures ExtendedWith(className, before, after[..|after| - 1], count - 1)
  {
    var shorter := after[..|after| - 1];
    assert shorter[..|before|] == before;
    forall j | |before| <= j < |shorter|
      ensures IsAugmentedName(className, shorter[j]) && shorter[j] !in shorter[..j]
    {
      assert shorter[..j] == after[..j];
    }
  }

  /** Every name added by augmentation is counted as an image. */
  lemma {:induction false} ExtendedImageCount(className: string, before: seq<string>, after: seq<string>, count: nat)
    requires ExtendedWith(className, before, after, count)
    ensures |ImageFiles(after)| == |ImageFiles(before)| + count
  {
    if count == 0 {
      assert after == before;
    } else {
      var shorter := after[..|after| - 1];
      ExtendedDropLast(className, before, after, count);
      ExtendedImageCount(className, before, shorter, count - 1);
      assert after == shorter + [after[|after| - 1]];
      ImageFilesAppend(shorter, [after[|after| - 1]]);
      AugmentedNameIsImage(className, after[|after| - 1]);
      assert ImageFiles([after[|after| - 1]]) == [after[|after| - 1]];
    }
  }

  /** A class that needed augmentation ends with exactly the target count of images. */
  lemma BalancedReachesTarget(before: map<string, Entry>, after: map<string, Entry>, className: string)
    requires BalancedFrom(before, after)
    requires className in before && before[className].Directory? && NeedsAugmentation(before[className].files)
    ensures after[className].Directory? && |ImageFiles(after[className].files)| == TargetImagesPerClass
  {
    var files := before[className].files;
    assert EntryBalanced(className, before[className], after[className]);
    ExtendedImageCount(className, files, after[className].files, TargetImagesPerClass - |ImageFiles(files)|);
  }

  /** After balancing no class needs augmentation any more. */
  lemma BalancedNeedsNothing(before: map<string, Entry>, after: map<string, Entry>, className: string)
    requires BalancedFrom(before, after)
    requires className in after && after[className].Directory?
    ensures !NeedsAugmentation(after[className].files)
  {
    if before[className].Directory? && NeedsAugmentation(before[className].files) {
      BalancedReachesTarget(before, after, className);
    }
  }

  /** Balancing a balanced tree again adds nothing. */
  lemma BalanceIdempotent(t0: map<string, Entry>, t1: map<string, Entry>, t2: map<string, Entry>)
    requires BalancedFrom(t0, t1) && BalancedFrom(t1, t2)
    ensures t2 == t1
  {
    forall k | k in t1 ensures t2[k] == t1[k] {
      if t1[k].Directory? {
        BalancedNeedsNothing(t0, t1, k);
      }
    }
  }

  function MaxLength(names: seq<string>): (m: nat)
    ensures forall f :: f in names ==> |f| <= m
  {
    if names == [] then 0
    else var rest := MaxLength(names[1..]); if |names[0]| > rest then |names[0]| else rest
  }

  /** A fresh augmented name always exists: one longer than every existing name. */
  lemma FreshAugmentedNameExists(className: string, files: seq<string>)
    ensures exists name :: IsAugmentedName(className, name) && name !in files
  {
    var prefix := "aug_" + className;
    var padding := seq(MaxLength(files), _ => '0');
    var name := prefix + padding + ".jpg";
    assert name[..|prefix|] == prefix;
    assert name[|name| - 4..] == ".jpg";
    assert IsAugmentedName(className, name);
    assert |name| > MaxLength(files);
    assert name !in files;
  }

  /** The training root, whose class directories balancing writes into. */
  class TrainingDirectory {
    var root: map<string, Entry>
    var augmentations: seq<Augmentation>

    constructor (root: map<string, Entry>)
      ensures this.root == root && augmentations == []
    {
      this.root := root;
      augmentations := [];
    }

    /**
     * The inner loop: `count` times pick an original at random and write
     * one augmented image of it into the class directory.
     */
    method AugmentClass(className: string, originals: seq<string>, count: nat)
      requires className in root && root[className].Directory?
      requires |originals| > 0
      modifies this
      ensures root.Keys == old(root).Keys
      ensures forall k :: k in root && k != className ==> root[k] == old(root)[k]
      ensures root[className].Directory?
      ensures ExtendedWith(className, old(root)[className].files, root[className].files, count)
      ensures |augmentations| == |old(augmentations)| + count
      ensures augmentations[..|old(augmentations)|] == old(augmentations)
      ensures forall a :: a in augmentations[|old(augmentations)|..] ==>
        a.className == className && a.seed in originals
        && a.output in root[className].files && a.output !in old(root)[className].files
      ensures LogsFiles(augmentations[|old(augmentations)|..], className, root[className].files[|old(root)[className].files|..])
    {
      ghost var before := root[className].files;
      ghost var logBefore := augmentations;
      ghost var added: seq<Augmentation> := [];
      var files := root[className].files;
      assert files[|before|..] == [];
      for i := 0 to count
        invariant root.Keys == old(root).Keys
        invariant forall k :: k in root && k != className ==> root[k] == old(root)[k]
        invariant root[className] == Directory(files)
        invariant ExtendedWith(className, before, files, i)
        invariant augmentations == logBefore + added
        invariant LogsFiles(added, className, files[|before|..]) && SeedsFrom(added, originals)
      {
        assert originals[0] in originals;
        var seed :| seed in originals;
        FreshAugmentedNameExists(className, files);
        var output :| IsAugmentedName(className, output) && output !in files;
        ghost var previous := files;
        files := files + [output];
        assert files[..|previous|] == previous;
        assert files[|before|..] == previous[|before|..] + [output];
        root := root[className := Directory(files)];
        LogsFilesAppend(added, className, previous[|before|..], Augmentation(className, seed, output), output);
        SeedsFromAppend(added, originals, Augmentation(className, seed, output));
        LogAppendAssoc(logBefore, added, [Augmentation(className, seed, output)]);
        augmentations := augmentations + [Augmentation(className, seed, output)];
        added := added + [Augmentation(className, seed, output)];
      }
      LogSuffix(logBefore, added);
      LoggedOutputsAreNew(added, className, before, files, count);
    }

    /**
     * One class of the balancing pass: count its images and, when there
     * are some but fewer than the target, generate the missing number from
     * the images it held before generation began.
     */
    method BalanceClass(className: string)
      requires className in root && root[className].Directory?
      modifies this
      ensures root.Keys == old(root).Keys
      ensures forall k :: k in root && k != className ==> root[k] == old(root)[k]
      ensures EntryBalanced(className, old(root)[className], root[className])
      ensures |augmentations| >= |old(augmentations)|
      ensures augmentations[..|old(augmentations)|] == old(augmentations)
      ensures forall a :: a in augmentations[|old(augmentations)|..] ==>
        a.className == className && a.seed in ImageFiles(old(root)[className].files)
        && root[className].Directory?
        && a.output in root[className].files && a.output !in old(root)[className].files
      ensures |augmentations| == |old(augmentations)|
        + (if NeedsAugmentation(old(root)[className].files)
           then TargetImagesPerClass - |ImageFiles(old(root)[className].files)| else 0)
      ensures root[className].Directory?
      ensures |augmentations| - |old(augmentations)| == |root[className].files| - |old(root)[className].files|
      ensures |old(root)[className].files| <= |root[className].files|
      ensures LogsFiles(augmentations[|old(augmentations)|..], className, root[className].files[|old(root)[className].files|..])
    {
      var imageFiles := ImageFiles(root[className].files);
      var numImages := |imageFiles|;
      if numImages > 0 && numImages < TargetImagesPerClass {
        var numToGenerate := TargetImagesPerClass - numImages;
        var originalImages := imageFiles;
        AugmentClass(className, originalImages, numToGenerate);
      } else {
        assert augmentations[|old(augmentations)|..] == [];
        assert root[className].files[|old(root)[className].files|..] == [];
      }
    }

    /** One iteration of the pass: balancing a pending class keeps both loop invariants. */
    method BalanceNext(className: string, ghost before: map<string, Entry>, ghost logBefore: seq<Augmentation>,
                       ghost generated: seq<Augmentation>, ghost pending: set<string>)
      returns (ghost generated': seq<Augmentation>)
      requires className in pending && pending <= ClassDirs(before)
      requires Progress(before, root, pending) && Provenance(generated, before, root, pending)
      requires augmentations == logBefore + generated
      modifies this
      ensures Progress(before, root, pending - {className})
      ensures Provenance(generated', before, root, pending - {className})
      ensures augmentations == logBefore + generated'
    {
      ghost var current := root;
      ghost var previousLog := augmentations;
      BalanceClass(className);
      ghost var added := augmentations[|previousLog|..];
      LogSplit(augmentations, |previousLog|);
      ProgressStep(before, current, root, className, pending);
      ProvenanceStep(generated, added, before, current, root, className, pending);
      generated' := generated + added;
      LogAppendAssoc(logBefore, generated, added);
    }

    /**
     * The balancing pass over every class directory of the root. A
     * generated image's seed is an image its class held before the pass,
     * and its output is a new file of that class.
     */
    method Balance()
      modifies this
      ensures BalancedFrom(old(root), root)
      ensures |augmentations| >= |old(augmentations)|
      ensures augmentations[..|old(augmentations)|] == old(augmentations)
      ensures Provenance(augmentations[|old(augmentations)|..], old(root), root, {})
    {
      ghost var before := root;
      ghost var logBefore := augmentations;
      ghost var generated: seq<Augmentation> := [];
      var classDirs := ClassDirs(root);
      var pending := classDirs;
      while pending != {}
        invariant pending <= classDirs && classDirs == ClassDirs(before)
        invariant Progress(before, root, pending)
        invariant augmentations == logBefore + generated
        invariant Provenance(generated, before, root, pending)
        decreases pending
      {
        var className :| className in pending;
        generated := BalanceNext(className, before, logBefore, generated, pending);
        pending := pending - {className};
      }
      assert augmentations[|logBefore|..] == generated;
      assert Progress(before, root, {});
    }
  }

  /** Classes outside `pending` are balanced, those in it untouched. */
  ghost predicate Progress(before: map<string, Entry>, now: map<string, Entry>, pending: set<string>) {
    now.Keys == before.Keys
    && (forall k :: k in before && k !in pending ==> EntryBalanced(k, before[k], now[k]))
    && (forall k :: k in pending ==> k in before && now[k] == before[k])
  }

  lemma ProgressStep(before: map<string, Entry>, current: map<string, Entry>, after: map<string, Entry>, c: string, pending: set<string>)
    requires Progress(before, current, pending) && c in pending
    requires after.Keys == current.Keys
    requires forall k :: k in after && k != c ==> after[k] == current[k]
    requires EntryBalanced(c, before[c], after[c])
    ensures Progress(before, after, pending - {c})
  {
  }

  /** A log is its first n entries followed by the rest. */
  lemma LogSplit(log: seq<Augmentation>, n: nat)
    requires n <= |log|
    ensures log == log[..n] + log[n..]
  {
  }

  lemma LogAppendAssoc(a: seq<Augmentation>, b: seq<Augmentation>, c: seq<Augmentation>)
    ensures (a + b) + c == a + (b + c)
  {
  }

  lemma LogSuffix(a: seq<Augmentation>, b: seq<Augmentation>)
    ensures (a + b)[..|a|] == a && (a + b)[|a|..] == b
  {
  }

  /** Every entry was seeded from one of the originals. */
  predicate SeedsFrom(entries: seq<Augmentation>, originals: seq<string>) {
    forall a :: a in entries ==> a.seed in originals
  }

  /** Entries that log the names a directory gained wrote files of that class that were not there before. */
  lemma LoggedOutputsAreNew(entries: seq<Augmentation>, c: string, before: seq<string>, after: seq<string>, count: nat)
    requires ExtendedWith(c, before, after, count) && LogsFiles(entries, c, after[|before|..])
    ensures forall a :: a in entries ==> a.className == c && a.output in after && a.output !in before
  {
    forall a | a in entries
      ensures a.className == c && a.output in after && a.output !in before
    {
      var j :| 0 <= j < |entries| && entries[j] == a;
      assert a.output == after[|before| + j];
      assert after[..|before| + j][..|before|] == before;
    }
  }

  /** The output names of the log entries for one class, in log order. */
  function Outputs(log: seq<Augmentation>, className: string): (r: seq<string>)
    ensures |r| <= |log|
  {
    if log == [] then []
    else
      Outputs(log[..|log| - 1], className)
      + (if log[|log| - 1].className == className then [log[|log| - 1].output] else [])
  }

  lemma {:induction false} OutputsAppend(a: seq<Augmentation>, b: seq<Augmentation>, className: string)
    ensures Outputs(a + b, className) == Outputs(a, className) + Outputs(b, className)
  {
    if b != [] {
      var front := b[..|b| - 1];
      OutputsAppend(a, front, className);
      assert (a + b)[..|a + b| - 1] == a + front;
      assert (a + b)[|a + b| - 1] == b[|b| - 1];
    } else {
      assert a + b == a;
    }
  }

  /** The entries are all of class c, and the j-th wrote newFiles[j]. */
  predicate LogsFiles(entries: seq<Augmentation>, c: string, newFiles: seq<string>) {
    |entries| == |newFiles|
    && forall j :: 0 <= j < |entries| ==> entries[j].className == c && entries[j].output == newFiles[j]
  }

  lemma LogsFilesAppend(entries: seq<Augmentation>, c: string, newFiles: seq<string>, e: Augmentation, f: string)
    requires LogsFiles(entries, c, newFiles) && e.className == c && e.output == f
    ensures LogsFiles(entries + [e], c, newFiles + [f])
  {
  }

  lemma SeedsFromAppend(entries: seq<Augmentation>, originals: seq<string>, e: Augmentation)
    requires SeedsFrom(entries, originals) && e.seed in originals
    ensures SeedsFrom(entries + [e], originals)
  {
  }

  /** Entries that log newFiles for class c have exactly newFiles as c's outputs, and none for another class. */
  lemma {:induction false} OutputsOfChunk(added: seq<Augmentation>, c: string, newFiles: seq<string>, className: string)
    requires LogsFiles(added, c, newFiles)
    ensures Outputs(added, className) == if className == c then newFiles else []
  {
    if added != [] {
      var n := |added|;
      OutputsOfChunk(added[..n - 1], c, newFiles[..n - 1], className);
      assert newFiles == newFiles[..n - 1] + [newFiles[n - 1]];
    }
  }

  /** A name among a class's outputs was written by some log entry of that class. */
  lemma {:induction false} OutputsMember(log: seq<Augmentation>, className: string, name: string)
    requires name in Outputs(log, className)
    ensures exists i :: 0 <= i < |log| && log[i].className == className && log[i].output == name
  {
    var n := |log|;
    if name in Outputs(log[..n - 1], className) {
      OutputsMember(log[..n - 1], className, name);
      var i :| 0 <= i < n - 1 && log[..n - 1][i].className == className && log[..n - 1][i].output == name;
      assert log[i] == log[..n - 1][i];
    } else {
      assert log[n - 1].className == className && log[n - 1].output == name;
    }
  }

  /** A sequence without repeats holds each of its elements exactly once. */
  lemma {:induction false} DistinctCount(s: seq<string>, x: string)
    requires forall j :: 0 <= j < |s| ==> s[j] !in s[..j]
    requires x in s
    ensures multiset(s)[x] == 1
  {
    var n := |s|;
    var front := s[..n - 1];
    assert s == front + [s[n - 1]];
    forall j | 0 <= j < |front|
      ensures front[j] !in front[..j]
    {
      assert front[..j] == s[..j];
    }
    if s[n - 1] == x {
      assert x !in front by { assert front == s[..n - 1]; }
    } else {
      DistinctCount(front, x);
    }
  }

  /**
   * Every generated image so far came from an original of a finished class
   * and is now in it, and each class's new files are, in order, exactly the
   * outputs the log records for it.
   */
  ghost predicate Provenance(log: seq<Augmentation>, before: map<string, Entry>, now: map<string, Entry>, pending: set<string>) {
    (forall a :: a in log ==>
      a.className in before && a.className !in pending && before[a.className].Directory?
      && a.seed in ImageFiles(before[a.className].files)
      && a.className in now && now[a.className].Directory?
      && a.output in now[a.className].files && a.output !in before[a.className].files)
    && (forall k :: k in before && before[k].Directory? ==>
      k in now && now[k].Directory? && |before[k].files| <= |now[k].files|
      && Outputs(log, k) == now[k].files[|before[k].files|..])
  }

  lemma ProvenanceStep(log: seq<Augmentation>, added: seq<Augmentation>, before: map<string, Entry>,
                       current: map<string, Entry>, after: map<string, Entry>, c: string, pending: set<string>)
    requires Provenance(log, before, current, pending) && c in pending
    requires after.Keys == current.Keys
    requires forall k :: k in after && k != c ==> after[k] == current[k]
    requires c in before && before[c].Directory? && c in current && current[c] == before[c]
    requires c in after && after[c].Directory? && |before[c].files| <= |after[c].files|
    requires forall a :: a in added ==>
      a.className == c && a.seed in ImageFiles(before[c].files)
      && a.output in after[c].files && a.output !in before[c].files
    requires LogsFiles(added, c, after[c].files[|before[c].files|..])
    ensures Provenance(log + added, before, after, pending - {c})
  {
    var newFiles := after[c].files[|before[c].files|..];
    forall k | k in before && before[k].Directory?
      ensures Outputs(log + added, k) == after[k].files[|before[k].files|..]
    {
      OutputsAppend(log, added, k);
      OutputsOfChunk(added, c, newFiles, k);
    }
  }

  /** The names balancing appends to a directory are pairwise distinct. */
  lemma ExtendedTailDistinct(className: string, before: seq<string>, after: seq<string>, count: nat)
    requires ExtendedWith(className, before, after, count)
    ensures forall j :: 0 <= j < |after[|before|..]| ==> after[|before|..][j] !in after[|before|..][..j]
  {
    var tail := after[|before|..];
    forall j | 0 <= j < |tail|
      ensures tail[j] !in tail[..j]
    {
      assert tail[j] == after[|before| + j];
      assert after[..|before| + j] == after[..|before|] + tail[..j];
    }
  }

  /**
   * After a whole pass, every image a class gained is the output of exactly
   * one log entry of that class, and that entry's seed is one of the images
   * the class held before the pass.
   */
  lemma GeneratedImageLoggedOnce(log: seq<Augmentation>, before: map<string, Entry>, after: map<string, Entry>,
                                 className: string, name: string)
    requires BalancedFrom(before, after) && Provenance(log, before, after, {})
    requires className in before && before[className].Directory?
    requires name in after[className].files && name !in before[className].files
    ensures multiset(Outputs(log, className))[name] == 1
    ensures exists i :: 0 <= i < |log| && log[i].className == className && log[i].output == name
              && log[i].seed in ImageFiles(before[className].files)
  {
    var original := before[className].files;
    var grown := after[className].files;
    assert EntryBalanced(className, before[className], after[className]);
    if NeedsAugmentation(original) {
      var tail := grown[|original|..];
      assert grown == original + tail;
      ExtendedTailDistinct(className, original, grown, TargetImagesPerClass - |ImageFiles(original)|);
      DistinctCount(tail, name);
      OutputsMember(log, className, name);
      var i :| 0 <= i < |log| && log[i].className == className && log[i].output == name;
      assert log[i] in log;
    } else {
      assert false;
    }
  }
}
