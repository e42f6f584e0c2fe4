// The pure core of the train/validation split: grouping the sorted images into
// contiguous chunks, and taking the first chunks of a shuffled order as validation.
module SplitDataset {
  import opened Results
  import opened Numeric

  /// `range(0, n, 0)` raises.
  datatype ValueError = ZeroStep

  /// Contiguous chunks of `cs` elements, the last one possibly shorter.
  function Chunks<T>(lst: seq<T>, cs: nat): (chunks: seq<seq<T>>)
    requires cs > 0
    ensures chunks == [] <==> lst == []
    ensures |chunks| <= |lst|
    decreases |lst|
  {
    if lst == [] then []
    else if |lst| <= cs then [lst]
    else [lst[..cs]] + Chunks(lst[cs..], cs)
  }

  /// `chunk_list`: a zero chunk size raises, a negative one gives an empty range and no
  /// chunks, a positive one gives the contiguous chunks.
  function ChunkList<T>(lst: seq<T>, chunkSize: int): (r: Result<seq<seq<T>>, ValueError>)
    ensures r.Err? <==> chunkSize == 0
    ensures chunkSize < 0 ==> r == Ok([])
    ensures chunkSize > 0 ==> r == Ok(Chunks(lst, chunkSize))
  {
    if chunkSize == 0 then Err(ZeroStep)
    else if chunkSize < 0 then Ok([])
    else Ok(Chunks(lst, chunkSize))
  }

  /// Concatenation of a list of lists.
  function Flatten<T>(ss: seq<seq<T>>): seq<T>
    decreases |ss|
  {
    if ss == [] then [] else ss[0] + Flatten(ss[1..])
  }

  lemma {:induction false} FlattenAppend<T>(a: seq<seq<T>>, b: seq<seq<T>>)
    ensures Flatten(a + b) == Flatten(a) + Flatten(b)
    decreases |a|
  {
    if a == [] {
      assert a + b == b;
    } else {
      assert (a + b)[0] == a[0];
      assert (a + b)[1..] == a[1..] + b;
      FlattenAppend(a[1..], b);
    }
  }

  /// Concatenating the chunks gives back the list.
  lemma {:induction false} ChunksFlatten<T>(lst: seq<T>, cs: nat)
    requires cs > 0
    ensures Flatten(Chunks(lst, cs)) == lst
    decreases |lst|
  {
    if |lst| > cs {
      ChunksFlatten(lst[cs..], cs);
      assert lst == lst[..cs] + lst[cs..];
    }
  }

  /// Every chunk is non-empty and at most `cs` long, every chunk but the last is exactly
  /// `cs` long, and there are ceil(|lst| / cs) chunks: the fewest that hold |lst| elements.
  lemma {:induction false} ChunksShape<T>(lst: seq<T>, cs: nat)
    requires cs > 0
    ensures var chunks := Chunks(lst, cs);
      (forall k :: 0 <= k < |chunks| ==> 0 < |chunks[k]| <= cs)
      && (forall k :: 0 <= k < |chunks| - 1 ==> |chunks[k]| == cs)
      && (|chunks| - 1) * cs < |lst| <= |chunks| * cs
    decreases |lst|
  {
    var chunks := Chunks(lst, cs);
    if |lst| > cs {
      var rest := Chunks(lst[cs..], cs);
      var n := |rest|;
      ChunksShape(lst[cs..], cs);
      assert chunks == [lst[..cs]] + rest;
      assert forall k :: 1 <= k < |chunks| ==> chunks[k] == rest[k - 1];
      MulSucc(n, cs);
    } else if lst != [] {
      assert chunks == [lst];
    }
  }

  /// Chunk `k` is the slice `lst[k*cs : k*cs + cs]` the comprehension builds.
  lemma {:induction false} ChunkAt<T>(lst: seq<T>, cs: nat, k: nat)
    requires cs > 0 && k < |Chunks(lst, cs)|
    ensures k * cs < |lst|
    ensures Chunks(lst, cs)[k] == lst[k * cs .. if k * cs + cs < |lst| then k * cs + cs else |lst|]
    decreases |lst|
  {
    if k > 0 {
      var rest := lst[cs..];
      var start := (k - 1) * cs;
      ChunkAt(rest, cs, k - 1);
      MulSucc(k - 1, cs);
      var end := if start + cs < |rest| then start + cs else |rest|;
      SliceOfSuffix(lst, cs, start, end);
    }
  }

  lemma MulSucc(k: nat, cs: nat)
    ensures (k + 1) * cs == k * cs + cs
  {
  }

  lemma SliceOfSuffix<T>(lst: seq<T>, d: nat, i: nat, j: nat)
    requires d <= |lst| && i <= j <= |lst| - d
    ensures lst[d..][i..j] == lst[d + i..d + j]
  {
  }

  /// `max(1, int(len(chunks) * val_ratio))`.
  function ValChunkCount(numChunks: nat, valRatio: real): (k: int)
    ensures k >= 1
    ensures 0.0 <= valRatio ==> k as real <= Max(1.0, numChunks as real * valRatio) < k as real + 1.0
    ensures 0.0 <= valRatio <= 1.0 && numChunks > 0 ==> k <= numChunks
    ensures valRatio < 0.0 ==> k == 1
  {
    var t := TruncateToInt(numChunks as real * valRatio);
    assert valRatio < 0.0 ==> numChunks as real * valRatio <= 0.0 by {
      if valRatio < 0.0 {
        MulNonNegative(numChunks as real, -valRatio);
      }
    }
    assert 0.0 <= valRatio <= 1.0 ==> numChunks as real * valRatio <= numChunks as real by {
      if 0.0 <= valRatio <= 1.0 {
        MulNonNegative(numChunks as real, 1.0 - valRatio);
      }
    }
    if t > 1 then t else 1
  }

  /// The validation images: the flattening of the first `ValChunkCount` chunks of the
  /// shuffled chunk order (a slice past the end takes every chunk).
  function ValidationImages<T>(shuffled: seq<seq<T>>, valRatio: real): (val: seq<T>)
    ensures shuffled != [] ==> shuffled[0] <= val
    ensures shuffled == [] ==> val == []
  {
    var k := ValChunkCount(|shuffled|, valRatio);
    var taken := shuffled[..if k < |shuffled| then k else |shuffled|];
    assert shuffled != [] ==> taken[0] == shuffled[0];
    Flatten(taken)
  }

  /// Reordering the lists does not change the multiset of their elements.
  lemma {:induction false} FlattenPermutation<T>(a: seq<seq<T>>, b: seq<seq<T>>)
    requires multiset(a) == multiset(b)
    ensures multiset(Flatten(a)) == multiset(Flatten(b))
    decreases |a|
  {
    if a == [] {
      assert |b| == |multiset(b)| == 0;
    } else {
      var x, tail := a[0], a[1..];
      assert x in multiset(b);
      var j :| 0 <= j < |b| && b[j] == x;
      var others := b[..j] + b[j + 1..];
      assert multiset(tail) == multiset(others) by {
        RemoveAt(b, j);
        assert a == [x] + tail;
      }
      FlattenPermutation(tail, others);
      PickOut(b, j);
      assert Flatten(a) == x + Flatten(tail);
      assert multiset(Flatten(a)) == multiset(x) + multiset(Flatten(tail));
    }
  }

  /// Taking out the list at index `j` removes its elements from the flattening.
  lemma PickOut<T>(b: seq<seq<T>>, j: nat)
    requires j < |b|
    ensures multiset(Flatten(b)) == multiset(b[j]) + multiset(Flatten(b[..j] + b[j + 1..]))
  {
    SplitAt(b, j);
    FlattenRemove(b[..j], b[j], b[j + 1..]);
  }

  lemma SplitAt<T>(b: seq<T>, j: nat)
    requires j < |b|
    ensures b == b[..j] + [b[j]] + b[j + 1..]
  {
  }

  /// Removing the element at index `j` removes one occurrence of it.
  lemma RemoveAt<T>(b: seq<T>, j: nat)
    requires j < |b|
    ensures multiset(b[..j] + b[j + 1..]) == multiset(b) - multiset{b[j]}
  {
    SplitAt(b, j);
  }

  /// Removing the list `x` removes its elements from the flattening.
  lemma FlattenRemove<T>(left: seq<seq<T>>, x: seq<T>, right: seq<seq<T>>)
    ensures multiset(Flatten(left + [x] + right)) == multiset(x) + multiset(Flatten(left + right))
  {
    FlattenAround(left, x, right);
    var fl, fr := Flatten(left), Flatten(right);
    assert multiset(fl + x + fr) == multiset(fl) + multiset(x) + multiset(fr);
    assert multiset(fl + fr) == multiset(fl) + multiset(fr);
  }

  /// The flattening with and without a list between `left` and `right`.
  lemma FlattenAround<T>(left: seq<seq<T>>, x: seq<T>, right: seq<seq<T>>)
    ensures Flatten(left + [x] + right) == Flatten(left) + x + Flatten(right)
    ensures Flatten(left + right) == Flatten(left) + Flatten(right)
  {
    FlattenAppend(left + [x], right);
    FlattenAppend(left, [x]);
    FlattenSingleton(x);
    FlattenAppend(left, right);
  }

  lemma FlattenSingleton<T>(x: seq<T>)
    ensures Flatten([x]) == x
  {
    assert [x][1..] == [];
  }

  /// Whether no element occurs twice.
  predicate NoDuplicates<T(==)>(s: seq<T>)
  {
    forall x | x in s :: multiset(s)[x] == 1
  }

  /// The elements of a prefix of the lists are among the elements of all of them.
  lemma PrefixFlattenIncluded<T>(ss: seq<seq<T>>, m: nat)
    requires m <= |ss|
    ensures multiset(Flatten(ss[..m])) <= multiset(Flatten(ss))
  {
    assert ss == ss[..m] + ss[m..];
    FlattenAppend(ss[..m], ss[m..]);
  }

  /// The validation images are drawn from the images (as a multiset, so each image at most
  /// as often as it occurs), and when the images are distinct, so are the validation images.
  lemma ValidationSubset<T>(images: seq<T>, cs: nat, shuffled: seq<seq<T>>, valRatio: real)
    requires cs > 0
    requires multiset(shuffled) == multiset(Chunks(images, cs))
    ensures multiset(ValidationImages(shuffled, valRatio)) <= multiset(images)
    ensures NoDuplicates(images) ==> NoDuplicates(ValidationImages(shuffled, valRatio))
  {
    var k := ValChunkCount(|shuffled|, valRatio);
    var m := if k < |shuffled| then k else |shuffled|;
    var v := ValidationImages(shuffled, valRatio);
    PrefixFlattenIncluded(shuffled, m);
    FlattenPermutation(shuffled, Chunks(images, cs));
    ChunksFlatten(images, cs);
    assert multiset(v) <= multiset(images);
    if NoDuplicates(images) {
      SubMultisetNoDuplicates(v, images);
    }
  }

  /// A sub-multiset of a duplicate-free sequence is duplicate-free.
  lemma SubMultisetNoDuplicates<T>(v: seq<T>, s: seq<T>)
    requires multiset(v) <= multiset(s) && NoDuplicates(s)
    ensures NoDuplicates(v)
  {
    forall x | x in v
      ensures multiset(v)[x] == 1
    {
      assert x in multiset(s);
    }
  }

  /// A negative chunk size gives an empty range of chunk starts, so no chunks and no
  /// validation images, whatever the ratio.
  lemma NegativeChunkSizeNoValidation<T>(images: seq<T>, chunkSize: int, valRatio: real)
    requires chunkSize < 0
    ensures ChunkList(images, chunkSize) == Ok([])
    ensures ValidationImages(ChunkList(images, chunkSize).value, valRatio) == []
  {
  }

  /// For a positive chunk size, as soon as there is an image, there is a validation image.
  lemma ValidationNonEmpty<T>(images: seq<T>, cs: nat, shuffled: seq<seq<T>>, valRatio: real)
    requires cs > 0
    requires multiset(shuffled) == multiset(Chunks(images, cs))
    requires images != []
    ensures ValidationImages(shuffled, valRatio) != []
  {
    ChunksShape(images, cs);
    var chunks := Chunks(images, cs);
    assert |shuffled| == |multiset(shuffled)| == |chunks| > 0;
    assert shuffled[0] in multiset(chunks);
    var k := ValChunkCount(|shuffled|, valRatio);
    var m := if k < |shuffled| then k else |shuffled|;
    assert shuffled[..m][0] == shuffled[0];
    assert |shuffled[0]| > 0;
  }
}
