/** Preparing the virtual USB disk for flashing: images too large for its file system are split, and the disk is
    sized to hold the result. */
module FlashDisk {

  type Byte = bv8

  const MB: nat := 0x10_0000
  const GB: nat := 0x4000_0000
  const LIMIT: nat := 4 * GB
  const BLOCK: nat := 63 * MB
  const SIZE_T: nat := 0x1_0000_0000_0000_0000

  type Image = seq<Byte>

  /** `split --bytes=n`. */
  function Parts(data: Image, n: nat): (r: seq<Image>)
    requires n > 0
    decreases |data|
  {
    if |data| <= n then [data] else [data[..n]] + Parts(data[n..], n)
  }

  function Joined(parts: seq<Image>): Image {
    if parts == [] then [] else parts[0] + Joined(parts[1..])
  }

  function Total(images: seq<Image>): nat {
    if images == [] then 0 else |images[0]| + Total(images[1..])
  }

  /** What becomes of one image. */
  function Stored(image: Image): seq<Image> {
    if |image| >= LIMIT then Parts(image, LIMIT - 1) else [image]
  }

  /** What becomes of the directory. */
  function Result(images: seq<Image>): seq<Image> {
    if images == [] then []
    else Result(images[..|images| - 1]) + Stored(images[|images| - 1])
  }

  ghost predicate AllFit(images: seq<Image>) {
    forall i :: 0 <= i < |images| ==> |images[i]| < LIMIT
  }

  // ---------------------------------------------------------------- splitting

  /** The parts are short enough, none is lost, and together they are the original. */
  lemma {:induction false} PartsJoin(data: Image, n: nat)
    requires n > 0
    ensures Joined(Parts(data, n)) == data && Total(Parts(data, n)) == |data|
    ensures forall i :: 0 <= i < |Parts(data, n)| ==> |Parts(data, n)[i]| <= n
    ensures forall i :: 0 <= i < |Parts(data, n)| - 1 ==> |Parts(data, n)[i]| == n
    ensures |Parts(data, n)| == 1 <==> |data| <= n
    decreases |data|
  {
    var parts := Parts(data, n);
    if |data| <= n {
      assert Joined([data]) == data + Joined([]) && Total([data]) == |data| + Total([]);
    } else {
      PartsJoin(data[n..], n);
      assert parts[1..] == Parts(data[n..], n);
    }
  }

  /** An image under 4 GB stays one file; a larger one becomes parts of 4 GB less one byte, but for the last. */
  lemma StoredShape(image: Image)
    ensures |image| < 0x1_0000_0000 ==> Stored(image) == [image]
    ensures |image| >= 0x1_0000_0000 ==>
      |Stored(image)| > 1 && forall i :: 0 <= i < |Stored(image)| - 1 ==> |Stored(image)[i]| == 0xFFFF_FFFF
  {
    PartsJoin(image, LIMIT - 1);
  }

  lemma StoredJoins(image: Image)
    ensures Joined(Stored(image)) == image && Total(Stored(image)) == |image| && AllFit(Stored(image))
  {
    if |image| >= LIMIT {
      PartsJoin(image, LIMIT - 1);
    } else {
      assert Joined([image]) == image + Joined([]) && Total([image]) == |image| + Total([]);
    }
  }

  lemma {:induction false} TotalConcat(a: seq<Image>, b: seq<Image>)
    ensures Total(a + b) == Total(a) + Total(b)
  {
    if a == [] {
      assert a + b == b;
    } else {
      TotalConcat(a[1..], b);
      assert (a + b)[1..] == a[1..] + b;
    }
  }

  lemma {:induction false} JoinedConcat(a: seq<Image>, b: seq<Image>)
    ensures Joined(a + b) == Joined(a) + Joined(b)
  {
    if a == [] {
      assert a + b == b;
    } else {
      JoinedConcat(a[1..], b);
      assert (a + b)[1..] == a[1..] + b;
    }
  }

  /** Every resulting file is under 4 GB, and splitting neither adds nor loses a byte. */
  lemma {:induction false} ResultFits(images: seq<Image>)
    ensures AllFit(Result(images)) && Joined(Result(images)) == Joined(images) && Total(Result(images)) == Total(images)
    decreases |images|
  {
    if images != [] {
      var n := |images| - 1;
      var before, stored := Result(images[..n]), Stored(images[n]);
      ResultFits(images[..n]);
      StoredJoins(images[n]);
      assert images == images[..n] + [images[n]];
      TotalConcat(images[..n], [images[n]]);
      TotalConcat(before, stored);
      JoinedConcat(images[..n], [images[n]]);
      JoinedConcat(before, stored);
      assert Joined([images[n]]) == images[n] + Joined([]);
    }
  }

  /** The sizes of the first `n` parts that are seen. */
  function Seen(parts: seq<Image>, seen: nat -> bool, n: nat): (sum: nat)
    requires n <= |parts|
    ensures sum <= Total(parts[..n]) && ((forall j: nat :: !seen(j)) ==> sum == 0)
  {
    if n == 0 then 0
    else
      TotalNext(parts, n - 1);
      Seen(parts, seen, n - 1) + if seen(n - 1) then |parts[n - 1]| else 0
  }

  lemma TotalNext(images: seq<Image>, i: nat)
    requires i < |images|
    ensures Total(images[..i + 1]) == Total(images[..i]) + |images[i]|
  {
    assert images[..i + 1] == images[..i] + [images[i]];
    TotalConcat(images[..i], [images[i]]);
  }

  /** What image `i` adds to the total: its size, and that of each of its parts the iterator comes across again. */
  function Added(image: Image, seen: nat -> bool): nat {
    |image| + if |image| >= LIMIT then Seen(Stored(image), seen, |Stored(image)|) else 0
  }

  /** The loop body: what one image becomes, and what it adds to the total. */
  method CheckImage(image: Image, splits: bool, seen: nat -> bool) returns (ok: bool, stored: seq<Image>, added: nat)
    ensures ok <==> (|image| >= LIMIT ==> splits)
    ensures ok ==> stored == Stored(image) && added == Added(image, seen)
  {
    ok, stored, added := true, [image], |image|;
    if |image| >= LIMIT {
      if !splits {
        return false, stored, added;
      }
      stored := Parts(image, LIMIT - 1);
      var again := Revisited(stored, seen);
      added := added + again;
    }
  }

  /** Which parts of image `i` the iterator comes across again. */
  function Again(revisits: (nat, nat) -> bool, i: nat): nat -> bool {
    (j: nat) => revisits(i, j)
  }

  /** What the first `n` images add to the total. */
  function Counted(images: seq<Image>, revisits: (nat, nat) -> bool, n: nat): nat
    requires n <= |images|
  {
    if n == 0 then 0 else Counted(images, revisits, n - 1) + Added(images[n - 1], Again(revisits, n - 1))
  }

  lemma AddedBounds(image: Image, seen: nat -> bool)
    ensures |image| <= Added(image, seen) <= 2 * |image|
    ensures (forall j: nat :: !seen(j)) ==> Added(image, seen) == |image|
  {
    StoredJoins(image);
    assert Stored(image)[..|Stored(image)|] == Stored(image);
  }

  /** The total covers every image, at most twice, and exactly once if the iterator comes across no part again. */
  lemma {:induction false} CountedBounds(images: seq<Image>, revisits: (nat, nat) -> bool, n: nat)
    requires n <= |images|
    ensures Total(images[..n]) <= Counted(images, revisits, n) <= 2 * Total(images[..n])
    ensures (forall i: nat, j: nat :: !revisits(i, j)) ==> Counted(images, revisits, n) == Total(images[..n])
  {
    if n > 0 {
      CountedBounds(images, revisits, n - 1);
      TotalNext(images, n - 1);
      AddedBounds(images[n - 1], Again(revisits, n - 1));
    }
  }

  /** The first `i` images have become `stored`, and have added `total`. */
  ghost predicate Checked(images: seq<Image>, revisits: (nat, nat) -> bool, i: nat, stored: seq<Image>, total: nat) {
    i <= |images| && stored == Result(images[..i]) && total == Counted(images, revisits, i)
  }

  lemma CheckedNext(images: seq<Image>, revisits: (nat, nat) -> bool, i: nat, stored: seq<Image>, total: nat)
    requires i < |images| && Checked(images, revisits, i, stored, total)
    ensures Checked(images, revisits, i + 1, stored + Stored(images[i]), total + Added(images[i], Again(revisits, i)))
  {
    assert images[..i + 1][..i] == images[..i];
  }

  lemma CheckedAll(images: seq<Image>, revisits: (nat, nat) -> bool, stored: seq<Image>, total: nat)
    requires Checked(images, revisits, |images|, stored, total)
    ensures stored == Result(images) && Total(images) <= total <= 2 * Total(images)
    ensures (forall i: nat, j: nat :: !revisits(i, j)) ==> total == Total(images)
  {
    assert images[..|images|] == images;
    CountedBounds(images, revisits, |images|);
  }

  /** The directory loop.  `splitFound` is whether the program `split` exists, `splits(i)` whether the split of image `i`
      succeeds, and `revisits(i, j)` whether the iterator also comes across its j-th part, which the standard leaves
      open. */
  method CheckImages(images: seq<Image>, splitFound: bool, splits: nat -> bool, revisits: (nat, nat) -> bool)
    returns (ok: bool, stored: seq<Image>, total: nat)
    ensures ok <==> splitFound && forall i: nat :: i < |images| && |images[i]| >= LIMIT ==> splits(i)
    ensures ok ==> stored == Result(images) && total == Counted(images, revisits, |images|)
    ensures ok ==> Total(images) <= total <= 2 * Total(images)
    ensures ok && (forall i: nat, j: nat :: !revisits(i, j)) ==> total == Total(images)
  {
    ok, stored, total := true, [], 0;
    if !splitFound {
      return false, stored, total;
    }
    var i: nat := 0;
    while i < |images|
      invariant i <= |images| && Checked(images, revisits, i, stored, total)
      invariant forall k: nat :: k < i && |images[k]| >= LIMIT ==> splits(k)
    {
      var done, parts, added := CheckImage(images[i], splits(i), Again(revisits, i));
      if !done {
        return false, stored, total;
      }
      CheckedNext(images, revisits, i, stored, total);
      stored, total := stored + parts, total + added;
      i := i + 1;
    }
    CheckedAll(images, revisits, stored, total);
  }

  /** What the parts the iterator comes across again add to the total. */
  method Revisited(parts: seq<Image>, seen: nat -> bool) returns (sum: nat)
    ensures sum == Seen(parts, seen, |parts|)
  {
    sum := 0;
    var j: nat := 0;
    while j < |parts|
      invariant j <= |parts| && sum == Seen(parts, seen, j)
    {
      if seen(j) {
        sum := sum + |parts[j]|;
      }
      j := j + 1;
    }
  }

  // ---------------------------------------------------------------- sizing

  /** The block count given to `dd`, in the width of `size_t`. */
  function BlockCount(total: nat): nat {
    (total + GB + BLOCK - 1) % SIZE_T / BLOCK
  }

  /** The block count is the least that covers the total and 1 GB more, exactly as long as the sum does not leave
      64 bits. */
  lemma BlockCountIsLeast(total: nat)
    ensures var n, wanted := BlockCount(total), total + 1073741824;
      n * 66060288 >= wanted && (n - 1) * 66060288 < wanted <==> total + GB + BLOCK - 1 < SIZE_T
  {
    var sum := total + GB + BLOCK - 1;
    if sum < SIZE_T {
      assert sum % SIZE_T == sum;
    } else {
      assert sum % SIZE_T < SIZE_T;
      assert BlockCount(total) * BLOCK <= sum % SIZE_T;
    }
  }

  /** Whatever the iterator comes across, the disk holds every resulting file and 1 GB more. */
  lemma DiskIsLargeEnough(images: seq<Image>, total: nat)
    requires total >= Total(images) && total + GB + BLOCK - 1 < SIZE_T
    ensures BlockCount(total) * BLOCK >= Total(Result(images)) + GB
  {
    ResultFits(images);
    BlockCountIsLeast(total);
  }
}
