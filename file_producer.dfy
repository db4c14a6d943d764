/**
 * FileProducer: turns the class directories of an image tree into reader pipelines of
 * (filename, label) pairs. Files are kept when they end in ".jpg" and their name falls in
 * the requested side of a hash-based train/test split; each kept file is labelled with the
 * position of its class among the class names; an optional check pass drops files that a
 * validity test rejects; and each reader may shuffle both lists by one shared permutation.
 *
 * `os.walk`, Python's `hash`, the `identify` check and `np.random.permutation` are inputs:
 * `walk(dir)` is what os.walk yields for dir, `hash(name)` the hash of a file name,
 * `intact(path)` whether identify accepts the file, and `shuffler(k, n)` the permutation of
 * n drawn by the k-th call to np.random.permutation.
 */
module FileProducer {
  import opened Permutations

  /**
   * The settings `FileProducer` is built with; its defaults are a queue capacity of 32,
   * 8 training readers, 1 test reader and a subsample size of 64.
   */
  datatype Config = Config(capacity: nat, numTrainInputs: nat, numTestInputs: nat, subsampleSize: nat)

  /**
   * `os.path.join(dir, name)` for a relative name: the directory, a '/' unless it already
   * ends in one (or is empty), then the name.
   */
  function Join(dir: string, name: string): (r: string)
    ensures |dir| + |name| <= |r| <= |dir| + |name| + 1
    ensures r[..|dir|] == dir && r[|r| - |name|..] == name
    ensures dir != [] ==> r[|r| - |name| - 1] == '/'
    ensures |r| == |dir| + |name| + (if dir == [] || dir[|dir| - 1] == '/' then 0 else 1)
  {
    if dir == [] || dir[|dir| - 1] == '/' then dir + name else dir + "/" + name
  }

  /** One directory visited by os.walk: its path and the names of the files directly in it. */
  datatype WalkStep = WalkStep(dir: string, files: seq<string>)

  /** A file found under a class directory: where it was found, its name, and its class. */
  datatype Sample = Sample(dir: string, name: string, className: string) {
    function Path(): string {
      Join(dir, name)
    }
  }

  /** One reader pipeline: the filename queue and the label queue it is fed from. */
  datatype Reader = Reader(filenames: seq<string>, labels: seq<int>)

  /** `name.endswith('.jpg')`. */
  predicate IsJpg(name: string)
    ensures IsJpg(name) <==> exists stem :: name == stem + ".jpg"
  {
    var yes := |name| >= 4 && name[|name| - 4..] == ".jpg";
    assert yes ==> name == name[..|name| - 4] + ".jpg";
    yes
  }

  /**
   * `(hash(name) % subsample_size == 0) == subsample_divisible`. Python's `%` and Dafny's
   * agree for a positive divisor, negative hashes included, and only the test against 0
   * matters here: a name is on the divisible side when its hash is a multiple of the size.
   */
  predicate InSubsample(hash: string -> int, size: nat, divisible: bool, name: string)
    requires size > 0
    ensures InSubsample(hash, size, divisible, name) <==>
      (divisible <==> hash(name) == (hash(name) / size) * size)
  {
    (hash(name) % size == 0) == divisible
  }

  /** The file filter of `_blob`: only ".jpg" files, and only those on the requested side. */
  function Keep(hash: string -> int, size: nat, divisible: bool): (keep: string -> bool)
    requires size > 0
    ensures forall name :: keep(name) ==> IsJpg(name)
  {
    name => IsJpg(name) && InSubsample(hash, size, divisible, name)
  }

  /**
   * Each ".jpg" file falls on exactly one side of the split, and nothing else falls on
   * either.
   */
  lemma SplitSides(hash: string -> int, size: nat, name: string)
    requires size > 0
    ensures !(Keep(hash, size, true)(name) && Keep(hash, size, false)(name))
    ensures Keep(hash, size, true)(name) || Keep(hash, size, false)(name) <==> IsJpg(name)
  {
  }

  /** Every ".jpg" file, whichever side of the split it falls on. */
  function AnyJpg(): string -> bool {
    name => IsJpg(name)
  }

  // ---------------------------------------------------------------------------
  // Selection: the nested loops over classes, walked directories and files.

  function FromFiles(dir: string, files: seq<string>, c: string, keep: string -> bool): (r: seq<Sample>)
    ensures |r| <= |files|
    ensures forall i :: 0 <= i < |r| ==> r[i].dir == dir && r[i].className == c && keep(r[i].name)
  {
    if files == [] then []
    else
      var last := files[|files| - 1];
      FromFiles(dir, files[..|files| - 1], c, keep) + (if keep(last) then [Sample(dir, last, c)] else [])
  }

  function FromWalk(steps: seq<WalkStep>, c: string, keep: string -> bool): (r: seq<Sample>)
    ensures forall i :: 0 <= i < |r| ==> r[i].className == c && keep(r[i].name)
  {
    if steps == [] then []
    else
      var last := steps[|steps| - 1];
      FromWalk(steps[..|steps| - 1], c, keep) + FromFiles(last.dir, last.files, c, keep)
  }

  /** The files `_blob` collects, in the order its loops append them. */
  function Collected(imageDir: string, classes: seq<string>, walk: string -> seq<WalkStep>,
                     keep: string -> bool): (r: seq<Sample>)
    ensures forall i :: 0 <= i < |r| ==> r[i].className in classes && keep(r[i].name)
  {
    if classes == [] then []
    else
      var c := classes[|classes| - 1];
      Collected(imageDir, classes[..|classes| - 1], walk, keep) + FromWalk(walk(Join(imageDir, c)), c, keep)
  }

  function Paths(samples: seq<Sample>): (r: seq<string>)
    ensures |r| == |samples| && forall i :: 0 <= i < |samples| ==> r[i] == samples[i].Path()
  {
    seq(|samples|, i requires 0 <= i < |samples| => samples[i].Path())
  }

  function ClassesOf(samples: seq<Sample>): (r: seq<string>)
    ensures |r| == |samples| && forall i :: 0 <= i < |samples| ==> r[i] == samples[i].className
  {
    seq(|samples|, i requires 0 <= i < |samples| => samples[i].className)
  }

  lemma PathsAppend(a: seq<Sample>, b: seq<Sample>)
    ensures Paths(a + b) == Paths(a) + Paths(b)
    ensures ClassesOf(a + b) == ClassesOf(a) + ClassesOf(b)
  {
  }

  /** Taking one more file of a directory appends it exactly when the filter keeps it. */
  lemma FromFilesSnoc(dir: string, files: seq<string>, i: nat, c: string, keep: string -> bool)
    requires i < |files|
    ensures Paths(FromFiles(dir, files[..i + 1], c, keep)) ==
      Paths(FromFiles(dir, files[..i], c, keep)) + (if keep(files[i]) then [Join(dir, files[i])] else [])
    ensures ClassesOf(FromFiles(dir, files[..i + 1], c, keep)) ==
      ClassesOf(FromFiles(dir, files[..i], c, keep)) + (if keep(files[i]) then [c] else [])
  {
    assert files[..i + 1][..i] == files[..i];
    var extra := if keep(files[i]) then [Sample(dir, files[i], c)] else [];
    PathsAppend(FromFiles(dir, files[..i], c, keep), extra);
  }

  /** The innermost loop of `_blob`: the kept files of one walked directory. */
  method SelectInDir(step: WalkStep, c: string, hash: string -> int, size: nat, divisible: bool)
    returns (filenames: seq<string>, classnames: seq<string>)
    requires size > 0
    ensures filenames == Paths(FromFiles(step.dir, step.files, c, Keep(hash, size, divisible)))
    ensures classnames == ClassesOf(FromFiles(step.dir, step.files, c, Keep(hash, size, divisible)))
  {
    ghost var keep := Keep(hash, size, divisible);
    filenames, classnames := [], [];
    for fi := 0 to |step.files|
      invariant filenames == Paths(FromFiles(step.dir, step.files[..fi], c, keep))
      invariant classnames == ClassesOf(FromFiles(step.dir, step.files[..fi], c, keep))
    {
      FromFilesSnoc(step.dir, step.files, fi, c, keep);
      var name := step.files[fi];
      assert keep(name) == (IsJpg(name) && (hash(name) % size == 0) == divisible);
      if !IsJpg(name) {
        continue;
      }
      if (hash(name) % size == 0) != divisible {
        continue;
      }
      filenames := filenames + [Join(step.dir, name)];
      classnames := classnames + [c];
    }
    assert step.files[..|step.files|] == step.files;
  }

  /** The middle loop of `_blob`: every directory os.walk visits under one class. */
  method SelectInClass(steps: seq<WalkStep>, c: string, hash: string -> int, size: nat, divisible: bool)
    returns (filenames: seq<string>, classnames: seq<string>)
    requires size > 0
    ensures filenames == Paths(FromWalk(steps, c, Keep(hash, size, divisible)))
    ensures classnames == ClassesOf(FromWalk(steps, c, Keep(hash, size, divisible)))
  {
    ghost var keep := Keep(hash, size, divisible);
    filenames, classnames := [], [];
    for si := 0 to |steps|
      invariant filenames == Paths(FromWalk(steps[..si], c, keep))
      invariant classnames == ClassesOf(FromWalk(steps[..si], c, keep))
    {
      assert steps[..si + 1][..si] == steps[..si];
      var fs, cs := SelectInDir(steps[si], c, hash, size, divisible);
      PathsAppend(FromWalk(steps[..si], c, keep), FromFiles(steps[si].dir, steps[si].files, c, keep));
      filenames := filenames + fs;
      classnames := classnames + cs;
    }
    assert steps[..|steps|] == steps;
  }

  /** The outer loop of `_blob`: builds filename_list and classname_list side by side. */
  method SelectFiles(imageDir: string, classNames: seq<string>, walk: string -> seq<WalkStep>,
                     hash: string -> int, size: nat, divisible: bool)
    returns (filenames: seq<string>, classnames: seq<string>)
    requires size > 0
    ensures filenames == Paths(Collected(imageDir, classNames, walk, Keep(hash, size, divisible)))
    ensures classnames == ClassesOf(Collected(imageDir, classNames, walk, Keep(hash, size, divisible)))
  {
    ghost var keep := Keep(hash, size, divisible);
    filenames, classnames := [], [];
    for ci := 0 to |classNames|
      invariant filenames == Paths(Collected(imageDir, classNames[..ci], walk, keep))
      invariant classnames == ClassesOf(Collected(imageDir, classNames[..ci], walk, keep))
    {
      assert classNames[..ci + 1][..ci] == classNames[..ci];
      var c := classNames[ci];
      var fs, cs := SelectInClass(walk(Join(imageDir, c)), c, hash, size, divisible);
      PathsAppend(Collected(imageDir, classNames[..ci], walk, keep), FromWalk(walk(Join(imageDir, c)), c, keep));
      filenames := filenames + fs;
      classnames := classnames + cs;
    }
    assert classNames[..|classNames|] == classNames;
  }

  /** A file is collected exactly when its class is listed and the walk of that class's directory holds it and the filter keeps it. */
  lemma {:induction false} FromFilesMembers(dir: string, files: seq<string>, c: string, keep: string -> bool, s: Sample)
    ensures s in FromFiles(dir, files, c, keep) <==> s.dir == dir && s.name in files && s.className == c && keep(s.name)
  {
    if files != [] {
      FromFilesMembers(dir, files[..|files| - 1], c, keep, s);
      assert files == files[..|files| - 1] + [files[|files| - 1]];
    }
  }

  lemma {:induction false} FromWalkMembers(steps: seq<WalkStep>, c: string, keep: string -> bool, s: Sample)
    ensures s in FromWalk(steps, c, keep) <==>
      s.className == c && keep(s.name) && exists st :: st in steps && st.dir == s.dir && s.name in st.files
  {
    if steps != [] {
      var front, last := steps[..|steps| - 1], steps[|steps| - 1];
      FromWalkMembers(front, c, keep, s);
      FromFilesMembers(last.dir, last.files, c, keep, s);
      assert steps == front + [last];
    }
  }

  lemma {:induction false} CollectedMembers(imageDir: string, classes: seq<string>, walk: string -> seq<WalkStep>,
                                            keep: string -> bool, s: Sample)
    ensures s in Collected(imageDir, classes, walk, keep) <==>
      s.className in classes && s in FromWalk(walk(Join(imageDir, s.className)), s.className, keep)
  {
    if classes != [] {
      var front, c := classes[..|classes| - 1], classes[|classes| - 1];
      CollectedMembers(imageDir, front, walk, keep, s);
      FromWalkMembers(walk(Join(imageDir, c)), c, keep, s);
      assert classes == front + [c];
    }
  }

  /**
   * The selection is exact: a sample is collected iff its class is a listed class, the walk
   * of that class's directory visits its directory and finds its name there, and the filter
   * keeps the name.
   */
  lemma SelectionExact(imageDir: string, classes: seq<string>, walk: string -> seq<WalkStep>,
                       keep: string -> bool, s: Sample)
    ensures s in Collected(imageDir, classes, walk, keep) <==>
      && s.className in classes
      && keep(s.name)
      && exists st :: st in walk(Join(imageDir, s.className)) && st.dir == s.dir && s.name in st.files
  {
    CollectedMembers(imageDir, classes, walk, keep, s);
    FromWalkMembers(walk(Join(imageDir, s.className)), s.className, keep, s);
  }

  // ---------------------------------------------------------------------------
  // The train/test split.

  lemma {:induction false} FromFilesSplit(dir: string, files: seq<string>, c: string, a: string -> bool, b: string -> bool, both: string -> bool)
    requires forall n :: both(n) == (a(n) || b(n)) && !(a(n) && b(n))
    ensures multiset(FromFiles(dir, files, c, a)) + multiset(FromFiles(dir, files, c, b)) == multiset(FromFiles(dir, files, c, both))
  {
    if files != [] {
      FromFilesSplit(dir, files[..|files| - 1], c, a, b, both);
    }
  }

  lemma {:induction false} FromWalkSplit(steps: seq<WalkStep>, c: string, a: string -> bool, b: string -> bool, both: string -> bool)
    requires forall n :: both(n) == (a(n) || b(n)) && !(a(n) && b(n))
    ensures multiset(FromWalk(steps, c, a)) + multiset(FromWalk(steps, c, b)) == multiset(FromWalk(steps, c, both))
  {
    if steps != [] {
      var last := steps[|steps| - 1];
      FromWalkSplit(steps[..|steps| - 1], c, a, b, both);
      FromFilesSplit(last.dir, last.files, c, a, b, both);
    }
  }

  lemma {:induction false} CollectedSplit(imageDir: string, classes: seq<string>, walk: string -> seq<WalkStep>,
                                          a: string -> bool, b: string -> bool, both: string -> bool)
    requires forall n :: both(n) == (a(n) || b(n)) && !(a(n) && b(n))
    ensures multiset(Collected(imageDir, classes, walk, a)) + multiset(Collected(imageDir, classes, walk, b))
         == multiset(Collected(imageDir, classes, walk, both))
  {
    if classes != [] {
      var c := classes[|classes| - 1];
      CollectedSplit(imageDir, classes[..|classes| - 1], walk, a, b, both);
      FromWalkSplit(walk(Join(imageDir, c)), c, a, b, both);
    }
  }

  /**
   * The train side (subsample_divisible = False) and the test side (True) share no file,
   * and together they hold every ".jpg" file under the class directories, each exactly as
   * often as the walk visits it.
   */
  lemma TrainTestPartition(imageDir: string, classes: seq<string>, walk: string -> seq<WalkStep>,
                           hash: string -> int, size: nat)
    requires size > 0
    ensures forall s :: s in Collected(imageDir, classes, walk, Keep(hash, size, false)) ==>
      s !in Collected(imageDir, classes, walk, Keep(hash, size, true))
    ensures multiset(Collected(imageDir, classes, walk, Keep(hash, size, false)))
          + multiset(Collected(imageDir, classes, walk, Keep(hash, size, true)))
         == multiset(Collected(imageDir, classes, walk, AnyJpg()))
  {
    var train, test := Keep(hash, size, false), Keep(hash, size, true);
    forall s | s in Collected(imageDir, classes, walk, train)
      ensures s !in Collected(imageDir, classes, walk, test)
    {
      SelectionExact(imageDir, classes, walk, train, s);
      SelectionExact(imageDir, classes, walk, test, s);
    }
    CollectedSplit(imageDir, classes, walk, train, test, AnyJpg());
  }

  // ---------------------------------------------------------------------------
  // Labels: `map(META.class_names.index, classname_list)`.

  /** `xs.index(x)`: the first position holding x. */
  function IndexOf(xs: seq<string>, x: string): (r: nat)
    requires x in xs
    ensures r < |xs| && xs[r] == x
    ensures forall j :: 0 <= j < r ==> xs[j] != x
  {
    if xs[0] == x then 0 else 1 + IndexOf(xs[1..], x)
  }

  function Labels(classNames: seq<string>, classnames: seq<string>): (r: seq<int>)
    requires forall i :: 0 <= i < |classnames| ==> classnames[i] in classNames
    ensures |r| == |classnames|
    ensures forall i :: 0 <= i < |classnames| ==> 0 <= r[i] < |classNames| && classNames[r[i]] == classnames[i]
    ensures forall i, j :: 0 <= i < |classnames| && 0 <= j < r[i] ==> classNames[j] != classnames[i]
  {
    seq(|classnames|, i requires 0 <= i < |classnames| => IndexOf(classNames, classnames[i]) as int)
  }

  lemma CollectedClassesListed(imageDir: string, classes: seq<string>, walk: string -> seq<WalkStep>, keep: string -> bool)
    ensures forall i :: 0 <= i < |Collected(imageDir, classes, walk, keep)| ==>
      Collected(imageDir, classes, walk, keep)[i].className in classes
  {
    var all := Collected(imageDir, classes, walk, keep);
    forall i | 0 <= i < |all| ensures all[i].className in classes {
      CollectedMembers(imageDir, classes, walk, keep, all[i]);
    }
  }

  // ---------------------------------------------------------------------------
  // The check pass.

  /** The positions of the files the check accepts, in order. */
  function KeptIndices(files: seq<string>, intact: string -> bool): (r: seq<nat>)
    ensures |r| <= |files|
    ensures forall i :: 0 <= i < |r| ==> r[i] < |files| && intact(files[r[i]])
  {
    if files == [] then []
    else
      KeptIndices(files[..|files| - 1], intact) + (if intact(files[|files| - 1]) then [|files| - 1] else [])
  }

  /** The check keeps exactly the accepted files, in their original order. */
  lemma {:induction false} KeptIndicesExact(files: seq<string>, intact: string -> bool)
    ensures InBounds(KeptIndices(files, intact), |files|)
    ensures forall a, b :: 0 <= a < b < |KeptIndices(files, intact)| ==>
      KeptIndices(files, intact)[a] < KeptIndices(files, intact)[b]
    ensures forall i :: 0 <= i < |files| ==> (i in KeptIndices(files, intact) <==> intact(files[i]))
  {
    if files != [] {
      var front := files[..|files| - 1];
      KeptIndicesExact(front, intact);
      assert forall i :: 0 <= i < |front| ==> front[i] == files[i];
    }
  }

  /** The loop of `_blob` that runs the check on every file and records the survivors. */
  method CheckPass(filenames: seq<string>, intact: string -> bool) returns (kept: seq<nat>)
    ensures kept == KeptIndices(filenames, intact)
  {
    kept := [];
    for i := 0 to |filenames|
      invariant kept == KeptIndices(filenames[..i], intact)
    {
      assert filenames[..i + 1][..i] == filenames[..i];
      if intact(filenames[i]) {
        kept := kept + [i];
      }
    }
    assert filenames[..|filenames|] == filenames;
  }

  // ---------------------------------------------------------------------------
  // Shuffling and the reader pipelines.

  ghost predicate ValidShuffler(shuffler: (nat, nat) -> seq<nat>) {
    forall k, n :: IsPermutation(shuffler(k, n), n)
  }

  /** The list after the permutations of the first k readers have been applied in turn. */
  function Shuffled<T>(s: seq<T>, shuffler: (nat, nat) -> seq<nat>, k: nat): (r: seq<T>)
    requires ValidShuffler(shuffler)
    ensures |r| == |s|
  {
    if k == 0 then s
    else
      var prev := Shuffled(s, shuffler, k - 1);
      PermutationShape(shuffler(k - 1, |s|), |s|);
      Pick(prev, shuffler(k - 1, |s|))
  }

  /** However often the lists are shuffled, they stay a permutation of the same pairs. */
  lemma {:induction false} ShuffledPairs<A, B>(a: seq<A>, b: seq<B>, shuffler: (nat, nat) -> seq<nat>, k: nat)
    requires |a| == |b| && ValidShuffler(shuffler)
    ensures multiset(Zip(Shuffled(a, shuffler, k), Shuffled(b, shuffler, k))) == multiset(Zip(a, b))
  {
    if k > 0 {
      ShuffledPairs(a, b, shuffler, k - 1);
      PermutedPairs(Shuffled(a, shuffler, k - 1), Shuffled(b, shuffler, k - 1), shuffler(k - 1, |a|));
    }
  }

  /**
   * Every reader serves a permutation of the given (filename, label) pairs, and without
   * shuffling it serves the pairs themselves, in order.
   */
  ghost predicate Serves(readers: seq<Reader>, files: seq<string>, labels: seq<int>, shuffle: bool)
    requires |files| == |labels|
  {
    forall k :: 0 <= k < |readers| ==>
      && |readers[k].filenames| == |readers[k].labels| == |files|
      && multiset(Zip(readers[k].filenames, readers[k].labels)) == multiset(Zip(files, labels))
      && (!shuffle ==> readers[k] == Reader(files, labels))
  }

  /** The loop of `_blob` that creates one reader per input, reshuffling before each. */
  method Readers(filenames: seq<string>, labels: seq<int>, numInputs: nat, shuffle: bool,
                 shuffler: (nat, nat) -> seq<nat>)
    returns (readers: seq<Reader>)
    requires |filenames| == |labels| && ValidShuffler(shuffler)
    ensures |readers| == numInputs
    ensures forall k :: 0 <= k < numInputs ==>
      readers[k] == (if shuffle then Reader(Shuffled(filenames, shuffler, k + 1), Shuffled(labels, shuffler, k + 1))
                     else Reader(filenames, labels))
    ensures Serves(readers, filenames, labels, shuffle)
  {
    var files, labs := filenames, labels;
    readers := [];
    for k := 0 to numInputs
      invariant |readers| == k
      invariant shuffle ==> files == Shuffled(filenames, shuffler, k) && labs == Shuffled(labels, shuffler, k)
      invariant !shuffle ==> files == filenames && labs == labels
      invariant forall j :: 0 <= j < k ==>
        readers[j] == (if shuffle then Reader(Shuffled(filenames, shuffler, j + 1), Shuffled(labels, shuffler, j + 1))
                       else Reader(filenames, labels))
    {
      if shuffle {
        var perm := shuffler(k, |files|);
        PermutationShape(perm, |files|);
        files := Pick(files, perm);
        labs := Pick(labs, perm);
      }
      readers := readers + [Reader(files, labs)];
    }
    forall k | 0 <= k < numInputs
      ensures multiset(Zip(readers[k].filenames, readers[k].labels)) == multiset(Zip(filenames, labels))
    {
      if shuffle {
        ShuffledPairs(filenames, labels, shuffler, k + 1);
      }
    }
  }

  // ---------------------------------------------------------------------------
  // `_blob`, `trainBlob` and `testBlob`.

  /** The filename and label lists `_blob` hands to its readers before any shuffle. */
  function Listed(imageDir: string, classNames: seq<string>, walk: string -> seq<WalkStep>,
                  hash: string -> int, size: nat, divisible: bool, check: bool,
                  intact: string -> bool): (r: (seq<string>, seq<int>))
    requires size > 0
    ensures |r.0| == |r.1|
  {
    var samples := Collected(imageDir, classNames, walk, Keep(hash, size, divisible));
    CollectedClassesListed(imageDir, classNames, walk, Keep(hash, size, divisible));
    var files := Paths(samples);
    var labels := Labels(classNames, ClassesOf(samples));
    if check then
      var kept := KeptIndices(files, intact);
      KeptIndicesExact(files, intact);
      (Pick(files, kept), Pick(labels, kept))
    else
      (files, labels)
  }

  /**
   * Every listed pair is a collected file's path with its class's label, and the check,
   * when it runs, keeps exactly the accepted files.
   */
  lemma ListedPairs(imageDir: string, classNames: seq<string>, walk: string -> seq<WalkStep>,
                    hash: string -> int, size: nat, divisible: bool, check: bool, intact: string -> bool)
    requires size > 0
    ensures var (files, labels) := Listed(imageDir, classNames, walk, hash, size, divisible, check, intact);
      forall k :: 0 <= k < |files| ==>
        && 0 <= labels[k] < |classNames|
        && (forall j :: 0 <= j < labels[k] ==> classNames[j] != classNames[labels[k]])
        && (check ==> intact(files[k]))
        && exists s :: s in Collected(imageDir, classNames, walk, Keep(hash, size, divisible))
                    && files[k] == s.Path() && classNames[labels[k]] == s.className
  {
    var samples := Collected(imageDir, classNames, walk, Keep(hash, size, divisible));
    var files := Paths(samples);
    CollectedClassesListed(imageDir, classNames, walk, Keep(hash, size, divisible));
    var labels := Labels(classNames, ClassesOf(samples));
    if check {
      KeptIndicesExact(files, intact);
      var kept := KeptIndices(files, intact);
      forall k | 0 <= k < |kept| ensures intact(files[kept[k]]) && samples[kept[k]] in samples {
        assert kept[k] in kept;
      }
    }
  }

  /** `_blob`: select, label, optionally check, then build the reader pipelines. */
  method MakeBlob(imageDir: string, classNames: seq<string>, walk: string -> seq<WalkStep>,
                  hash: string -> int, size: nat, intact: string -> bool,
                  shuffler: (nat, nat) -> seq<nat>,
                  numInputs: nat, divisible: bool, check: bool, shuffle: bool)
    returns (readers: seq<Reader>)
    requires size > 0 && ValidShuffler(shuffler)
    ensures |readers| == numInputs
    ensures Serves(readers, Listed(imageDir, classNames, walk, hash, size, divisible, check, intact).0,
                   Listed(imageDir, classNames, walk, hash, size, divisible, check, intact).1, shuffle)
  {
    var filenames, classnames := SelectFiles(imageDir, classNames, walk, hash, size, divisible);
    CollectedClassesListed(imageDir, classNames, walk, Keep(hash, size, divisible));
    var labels := Labels(classNames, classnames);
    if check {
      var kept := CheckPass(filenames, intact);
      KeptIndicesExact(filenames, intact);
      filenames := Pick(filenames, kept);
      labels := Pick(labels, kept);
    }
    assert (filenames, labels) == Listed(imageDir, classNames, walk, hash, size, divisible, check, intact);
    readers := Readers(filenames, labels, numInputs, shuffle, shuffler);
  }

  /** `trainBlob`: the non-divisible side, shuffled, one reader per training input; the check runs by default. */
  method TrainBlob(cfg: Config, imageDir: string, classNames: seq<string>, walk: string -> seq<WalkStep>,
                   hash: string -> int, intact: string -> bool, shuffler: (nat, nat) -> seq<nat>,
                   check: bool := true)
    returns (readers: seq<Reader>)
    requires cfg.subsampleSize > 0 && ValidShuffler(shuffler)
    ensures |readers| == cfg.numTrainInputs
    ensures Serves(readers, Listed(imageDir, classNames, walk, hash, cfg.subsampleSize, false, check, intact).0,
                   Listed(imageDir, classNames, walk, hash, cfg.subsampleSize, false, check, intact).1, true)
  {
    readers := MakeBlob(imageDir, classNames, walk, hash, cfg.subsampleSize, intact, shuffler,
                        cfg.numTrainInputs, false, check, true);
  }

  /** `testBlob`: the divisible side, in walk order, one reader per test input; the check is off by default. */
  method TestBlob(cfg: Config, imageDir: string, classNames: seq<string>, walk: string -> seq<WalkStep>,
                  hash: string -> int, intact: string -> bool, shuffler: (nat, nat) -> seq<nat>,
                  check: bool := false)
    returns (readers: seq<Reader>)
    requires cfg.subsampleSize > 0 && ValidShuffler(shuffler)
    ensures |readers| == cfg.numTestInputs
    ensures Serves(readers, Listed(imageDir, classNames, walk, hash, cfg.subsampleSize, true, check, intact).0,
                   Listed(imageDir, classNames, walk, hash, cfg.subsampleSize, true, check, intact).1, false)
  {
    readers := MakeBlob(imageDir, classNames, walk, hash, cfg.subsampleSize, intact, shuffler,
                        cfg.numTestInputs, true, check, false);
  }
}
