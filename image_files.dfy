// Image collection shared by the labelling and dataset-splitting scripts: keep the
// directory entries whose lower-cased suffix is an image extension, sorted by name.
module ImageFiles {

  const ImageExtensions: set<string> := {".jpg", ".jpeg", ".png", ".bmp", ".tif", ".tiff", ".webp"}

  /// Index of the last '.' in `name`, or -1 when there is none (`str.rfind`).
  function LastDot(name: string): (i: int)
    ensures -1 <= i < |name|
    ensures i >= 0 ==> name[i] == '.' && forall j :: i < j < |name| ==> name[j] != '.'
    ensures i == -1 ==> forall j :: 0 <= j < |name| ==> name[j] != '.'
    decreases |name|
  {
    if name == [] then -1
    else if name[|name| - 1] == '.' then |name| - 1
    else LastDot(name[..|name| - 1])
  }

  /// The final suffix of a file name (`Path.suffix`): from the last dot on, provided that
  /// dot is neither the first nor the last character; otherwise empty.
  function Suffix(name: string): (s: string)
    ensures s != [] ==> s[0] == '.' && 2 <= |s| < |name| && s == name[|name| - |s|..]
    ensures s != [] ==> forall j :: 1 <= j < |s| ==> s[j] != '.'
  {
    var i := LastDot(name);
    if 0 < i < |name| - 1 then name[i..] else ""
  }

  /// ASCII lower-casing of one character: no upper-case letter is left, an upper-case
  /// letter becomes the lower-case letter at the same alphabet position, and every other
  /// character is unchanged.
  function LowerChar(c: char): (l: char)
    ensures !('A' <= l <= 'Z')
    ensures 'A' <= c <= 'Z' ==> 'a' <= l <= 'z' && l as int - 'a' as int == c as int - 'A' as int
    ensures !('A' <= c <= 'Z') ==> l == c
  {
    if 'A' <= c <= 'Z' then (c as int + 32) as char else c
  }

  /// `str.lower()` on ASCII text: same length, no upper-case letter left, and every
  /// character that is not an upper-case letter kept in place.
  function Lower(s: string): (l: string)
    ensures |l| == |s|
    ensures forall i :: 0 <= i < |l| ==> !('A' <= l[i] <= 'Z')
    ensures forall i :: 0 <= i < |s| && !('A' <= s[i] <= 'Z') ==> l[i] == s[i]
    ensures forall i :: 0 <= i < |s| && 'A' <= s[i] <= 'Z' ==> l[i] as int - 'a' as int == s[i] as int - 'A' as int
  {
    seq(|s|, i requires 0 <= i < |s| => LowerChar(s[i]))
  }

  /// Lower-casing twice is lower-casing once.
  lemma LowerIdempotent(s: string)
    ensures Lower(Lower(s)) == Lower(s)
  {
    var l := Lower(s);
    assert forall i :: 0 <= i < |l| ==> Lower(l)[i] == l[i];
  }

  /// Whether a directory entry is kept as an image.
  predicate IsImage(name: string)
  {
    Lower(Suffix(name)) in ImageExtensions
  }

  /// The directory entries that are images, in directory order.
  function ImagesOf(names: seq<string>): (r: seq<string>)
    ensures forall n :: n in r <==> n in names && IsImage(n)
    ensures |r| <= |names|
  {
    if names == [] then []
    else ImagesOf(names[..|names| - 1]) + (if IsImage(names[|names| - 1]) then [names[|names| - 1]] else [])
  }

  // ---- string order, as Python compares str (code point by code point) ----

  /// `a <= b` in lexicographic order; a proper prefix comes first.
  predicate LexLe(a: string, b: string)
    decreases |a|
  {
    a == [] || (b != [] && (a[0] < b[0] || (a[0] == b[0] && LexLe(a[1..], b[1..]))))
  }

  lemma {:induction false} LexLeReflexive(a: string)
    ensures LexLe(a, a)
    decreases |a|
  {
    if a != [] {
      LexLeReflexive(a[1..]);
    }
  }

  lemma {:induction false} LexLeTotal(a: string, b: string)
    ensures LexLe(a, b) || LexLe(b, a)
    decreases |a|
  {
    if a != [] && b != [] && a[0] == b[0] {
      LexLeTotal(a[1..], b[1..]);
    }
  }

  lemma {:induction false} LexLeTransitive(a: string, b: string, c: string)
    requires LexLe(a, b) && LexLe(b, c)
    ensures LexLe(a, c)
    decreases |a|
  {
    if a != [] && b != [] && c != [] && a[0] == b[0] == c[0] {
      LexLeTransitive(a[1..], b[1..], c[1..]);
    }
  }

  lemma {:induction false} LexLeAntisymmetric(a: string, b: string)
    requires LexLe(a, b) && LexLe(b, a)
    ensures a == b
    decreases |a|
  {
    if a != [] {
      LexLeAntisymmetric(a[1..], b[1..]);
      assert a == [a[0]] + a[1..] && b == [b[0]] + b[1..];
    }
  }

  predicate Sorted(s: seq<string>)
  {
    forall i, j :: 0 <= i < j < |s| ==> LexLe(s[i], s[j])
  }

  /// Inserts `x` before the first element it does not exceed.
  function Insert(x: string, s: seq<string>): (r: seq<string>)
    ensures multiset(r) == multiset(s) + multiset{x}
    decreases |s|
  {
    if s == [] then [x]
    else if LexLe(x, s[0]) then [x] + s
    else
      assert s == [s[0]] + s[1..];
      [s[0]] + Insert(x, s[1..])
  }

  /// Inserting into a sorted list keeps it sorted.
  lemma {:induction false} InsertSorted(x: string, s: seq<string>)
    requires Sorted(s)
    ensures Sorted(Insert(x, s))
    decreases |s|
  {
    if s == [] {
    } else if LexLe(x, s[0]) {
      forall j | 0 < j < |s| + 1
        ensures LexLe(([x] + s)[0], ([x] + s)[j])
      {
        if j > 1 {
          LexLeTransitive(x, s[0], s[j - 1]);
        }
      }
    } else {
      InsertSorted(x, s[1..]);
      LexLeTotal(x, s[0]);
      var rest := Insert(x, s[1..]);
      var r := [s[0]] + rest;
      forall j | 0 <= j < |rest|
        ensures LexLe(s[0], rest[j])
      {
        assert rest[j] in multiset(rest);
        if rest[j] != x {
          assert rest[j] in multiset(s[1..]);
          var k :| 0 <= k < |s[1..]| && s[1..][k] == rest[j];
          assert s[k + 1] == rest[j];
        }
      }
      forall i, j | 0 <= i < j < |r|
        ensures LexLe(r[i], r[j])
      {
        if i > 0 {
          assert r[i] == rest[i - 1] && r[j] == rest[j - 1];
        }
      }
    }
  }

  /// `sorted(...)`: a sorted permutation (insertion sort).
  function SortNames(s: seq<string>): (r: seq<string>)
    ensures multiset(r) == multiset(s)
    decreases |s|
  {
    if s == [] then [] else
      assert s == [s[0]] + s[1..];
      Insert(s[0], SortNames(s[1..]))
  }

  lemma {:induction false} SortNamesSorted(s: seq<string>)
    ensures Sorted(SortNames(s))
    decreases |s|
  {
    if s != [] {
      SortNamesSorted(s[1..]);
      InsertSorted(s[0], SortNames(s[1..]));
    }
  }

  /// There is only one sorted permutation of a list, so any sort (Python's included)
  /// agrees with `SortNames`.
  lemma {:induction false} SortedPermutationUnique(a: seq<string>, b: seq<string>)
    requires Sorted(a) && Sorted(b) && multiset(a) == multiset(b)
    ensures a == b
    decreases |a|
  {
    if a != [] {
      assert |b| == |multiset(b)| == |a|;
      HeadIsLeast(a, b[0]);
      HeadIsLeast(b, a[0]);
      LexLeAntisymmetric(a[0], b[0]);
      SortedTail(a);
      SortedTail(b);
      SortedPermutationUnique(a[1..], b[1..]);
      SameHeadSameTail(a, b);
    }
  }

  lemma SameHeadSameTail(a: seq<string>, b: seq<string>)
    requires a != [] && b != [] && a[0] == b[0] && a[1..] == b[1..]
    ensures a == b
  {
    assert a == [a[0]] + a[1..] && b == [b[0]] + b[1..];
  }

  /// The tail of a sorted list is sorted and holds the other elements.
  lemma SortedTail(s: seq<string>)
    requires Sorted(s) && s != []
    ensures Sorted(s[1..]) && multiset(s[1..]) == multiset(s) - multiset{s[0]}
  {
    assert s == [s[0]] + s[1..];
  }

  /// The first element of a sorted list does not exceed any of its elements.
  lemma HeadIsLeast(s: seq<string>, x: string)
    requires Sorted(s) && x in multiset(s)
    ensures s != [] && LexLe(s[0], x)
  {
    var k :| 0 <= k < |s| && s[k] == x;
    if k == 0 {
      LexLeReflexive(x);
    }
  }

  /// `collect_images`: the image entries of a directory, sorted by name.
  function CollectImages(names: seq<string>): (r: seq<string>)
    ensures Sorted(r)
    ensures multiset(r) == multiset(ImagesOf(names))
    ensures forall n :: n in r <==> n in names && IsImage(n)
  {
    SortNamesSorted(ImagesOf(names));
    var r := SortNames(ImagesOf(names));
    assert forall n :: n in r <==> n in multiset(r);
    assert forall n :: n in ImagesOf(names) <==> n in multiset(ImagesOf(names));
    r
  }

  /// The suffix of "stem.ext" (non-empty stem, dot-free non-empty extension) is ".ext".
  lemma SuffixOfName(stem: string, ext: string)
    requires stem != [] && ext != [] && '.' !in ext
    ensures Suffix(stem + "." + ext) == "." + ext
  {
    var name := stem + "." + ext;
    assert name[|stem|] == '.';
    assert forall j :: |stem| < j < |name| ==> name[j] == ext[j - |stem| - 1];
    var i := LastDot(name);
    assert i == |stem|;
    assert name[i..] == "." + ext;
  }

  /// A dot-free name, a hidden file (the only dot in front) and a name ending in a dot
  /// have no suffix.
  lemma NoSuffix(stem: string)
    requires '.' !in stem
    ensures Suffix(stem) == "" && Suffix("." + stem) == "" && Suffix(stem + ".") == ""
  {
    var hidden := "." + stem;
    assert hidden[0] == '.';
    assert forall j :: 0 < j < |hidden| ==> hidden[j] == stem[j - 1];
    assert LastDot(hidden) == 0;
  }

  /// Whether "stem.ext" is an image depends only on the lower-cased extension.
  lemma IsImageByExtension(stem: string, ext: string)
    requires stem != [] && ext != [] && '.' !in ext
    ensures IsImage(stem + "." + ext) <==> Lower("." + ext) in ImageExtensions
  {
    SuffixOfName(stem, ext);
  }
}
