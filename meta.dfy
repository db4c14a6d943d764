/**
 * The class-name registry. `Meta.train` scans the image directory: every entry that is a
 * directory and whose name does not start with '.' becomes a class, in listing order, and
 * a class's position in that list is its label everywhere downstream.
 */
module Meta {

  /** One entry of `os.listdir(image_dir)`, with whether `os.path.isdir` holds for it. */
  datatype Entry = Entry(name: string, isDir: bool)

  predicate IsHidden(name: string) {
    |name| > 0 && name[0] == '.'
  }

  predicate IsClassDir(e: Entry) {
    !IsHidden(e.name) && e.isDir
  }

  /** The class names a listing yields, in listing order. */
  function ClassDirs(listing: seq<Entry>): (r: seq<string>)
    ensures |r| <= |listing|
    ensures forall i :: 0 <= i < |r| ==> !IsHidden(r[i])
  {
    if listing == [] then []
    else
      var front, last := listing[..|listing| - 1], listing[|listing| - 1];
      ClassDirs(front) + (if IsClassDir(last) then [last.name] else [])
  }

  /** The loop of `Meta.train` that collects the class names. */
  method Train(listing: seq<Entry>) returns (classNames: seq<string>)
    ensures classNames == ClassDirs(listing)
  {
    classNames := [];
    for i := 0 to |listing|
      invariant classNames == ClassDirs(listing[..i])
    {
      assert listing[..i + 1][..i] == listing[..i];
      if !IsHidden(listing[i].name) && listing[i].isDir {
        classNames := classNames + [listing[i].name];
      }
    }
    assert listing[..|listing|] == listing;
  }

  /** A name is a class exactly when some visible directory entry carries it. */
  lemma {:induction false} ClassDirsMembers(listing: seq<Entry>)
    ensures |ClassDirs(listing)| <= |listing|
    ensures forall n :: n in ClassDirs(listing) <==>
      exists i :: 0 <= i < |listing| && listing[i].name == n && IsClassDir(listing[i])
  {
    if listing != [] {
      var front, last := listing[..|listing| - 1], listing[|listing| - 1];
      ClassDirsMembers(front);
      forall n ensures n in ClassDirs(listing) <==>
        exists i :: 0 <= i < |listing| && listing[i].name == n && IsClassDir(listing[i])
      {
        if n in ClassDirs(front) {
          var i :| 0 <= i < |front| && front[i].name == n && IsClassDir(front[i]);
          assert listing[i] == front[i];
        }
        if exists i :: 0 <= i < |listing| && listing[i].name == n && IsClassDir(listing[i]) {
          var i :| 0 <= i < |listing| && listing[i].name == n && IsClassDir(listing[i]);
          if i < |front| {
            assert front[i] == listing[i];
          }
        }
      }
    }
  }

  /** Listing order is kept: the classes of a longer listing extend those of its prefix. */
  lemma {:induction false} ClassDirsPrefix(listing: seq<Entry>, k: nat)
    requires k <= |listing|
    ensures ClassDirs(listing[..k]) <= ClassDirs(listing)
    decreases |listing| - k
  {
    if k < |listing| {
      ClassDirsPrefix(listing, k + 1);
      assert listing[..k + 1][..k] == listing[..k];
    } else {
      assert listing[..k] == listing;
    }
  }
}
