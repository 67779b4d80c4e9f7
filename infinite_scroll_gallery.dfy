/**
 The array logic of the auto-scrolling gallery: the Fisher-Yates shuffle, the
 generation of a long photo list from shuffled copies of the base list with
 dense ids, the round-robin split into four columns, the alternating scroll
 direction of the columns, and the selected-photo (modal) state.

 `Math.random` is replaced by an oracle: `picks[i]` is the index `j` the shuffle
 draws in the iteration for `i`, and the only thing known about it is the range
 `0 <= j <= i` that `Math.floor(Math.random() * (i + 1))` guarantees.
 */
module InfiniteScrollGallery {
  import opened Wrappers

  /** A photo record; the image reference, title and description are opaque strings. */
  datatype Photo = Photo(id: nat, image: string, title: string, description: string)

  /** The sixteen base photos, in source order, ids 1 to 16. */
  const BasePhotos: seq<Photo> := [
    Photo(1, "@/assets/abstract-1.jpg", "Abstract Depths", "Exploring form and color in digital space"),
    Photo(2, "@/assets/abstract-2.jpg", "Geometric Flow", "Mathematical beauty in abstract form"),
    Photo(3, "@/assets/architecture-1.jpg", "Urban Geometry", "Where concrete meets sky in perfect harmony"),
    Photo(4, "@/assets/architecture-2.jpg", "Modern Lines", "Clean architectural forms against blue sky"),
    Photo(5, "@/assets/automotive-1.jpg", "Speed & Steel", "Capturing the essence of automotive design"),
    Photo(6, "@/assets/interior-1.jpg", "Intimate Spaces", "Light and shadow in modern interiors"),
    Photo(7, "@/assets/landscape-1.jpg", "Natural Vista", "Capturing the raw beauty of untouched landscapes"),
    Photo(8, "@/assets/landscape-2.jpg", "Horizon Dreams", "Where earth meets sky in perfect balance"),
    Photo(9, "@/assets/nature-1.jpg", "Organic Forms", "The intricate patterns found in nature"),
    Photo(10, "@/assets/nature-2.jpg", "Wild Beauty", "Untamed natural elements in their glory"),
    Photo(11, "@/assets/portrait-1.jpg", "Human Connection", "Capturing the essence of personality"),
    Photo(12, "@/assets/portrait-2.jpg", "Emotional Depth", "Stories told through facial expressions"),
    Photo(13, "@/assets/portrait-3.jpg", "Character Study", "The art of revealing inner beauty"),
    Photo(14, "@/assets/street-1.jpg", "Urban Pulse", "Life in motion on city streets"),
    Photo(15, "@/assets/street-2.jpg", "Street Stories", "Candid moments in urban environments"),
    Photo(16, "@/assets/wildlife-1.jpg", "Wild Majesty", "The untamed beauty of wildlife")
  ]

  /** The number of shuffled copies the gallery generates on mount. */
  const GalleryCopies: nat := 10

  // ---------------------------------------------------------------------------
  // shuffleArray

  /** `picks` supplies one drawn index per iteration of a shuffle of `n` elements:
      in the iteration for `i` (from `n - 1` down to 1) the index is `picks[i] <= i`. */
  predicate ValidDraws(picks: seq<nat>, n: nat) {
    |picks| == n && forall i :: 0 < i < n ==> picks[i] <= i
  }

  /** `s` with the elements at `i` and `j` exchanged (the destructuring swap). */
  function Swap<T>(s: seq<T>, i: nat, j: nat): (r: seq<T>)
    requires i < |s| && j < |s|
    ensures |r| == |s| && multiset(r) == multiset(s)
  {
    s[i := s[j]][j := s[i]]
  }

  /** The array after the iterations for `i - 1`, `i - 2`, ..., 1 of the shuffle
      loop have run on `s`. Every iteration only touches indices below its `i`,
      so the positions from `i` on are those of `s`, and every iteration is a
      swap, so the result is a permutation of `s`. */
  function ShuffleSteps<T>(s: seq<T>, picks: seq<nat>, i: nat): (r: seq<T>)
    requires i <= |s| && ValidDraws(picks, |s|)
    ensures |r| == |s| && multiset(r) == multiset(s)
    ensures r[i..] == s[i..]
    decreases i
  {
    if i <= 1 then s else ShuffleSteps(Swap(s, i - 1, picks[i - 1]), picks, i - 1)
  }

  /** What `shuffleArray` returns for the draws `picks`. */
  function Shuffled<T>(s: seq<T>, picks: seq<nat>): seq<T>
    requires ValidDraws(picks, |s|)
  {
    ShuffleSteps(s, picks, |s|)
  }

  /** `shuffleArray`: copies its argument into a fresh array and runs the
      downward Fisher-Yates loop on the copy. Whatever indices are drawn, the
      result is a permutation of the input; the input, a value here, is left
      as it was. */
  method ShuffleArray<T>(input: seq<T>, picks: seq<nat>) returns (shuffled: seq<T>)
    requires ValidDraws(picks, |input|)
    ensures shuffled == Shuffled(input, picks)
    ensures |shuffled| == |input| && multiset(shuffled) == multiset(input)
  {
    var a := new T[|input|](k requires 0 <= k < |input| => input[k]);
    assert a[..] == input;
    var i := a.Length - 1;
    ghost var target := Shuffled(input, picks);
    while i > 0
      invariant -1 <= i < a.Length == |input|
      invariant ShuffleSteps(a[..], picks, i + 1) == target
      // positions after i are final
      invariant a[i + 1..] == target[i + 1..]
    {
      var j := picks[i];
      ghost var before := a[..];
      a[i], a[j] := a[j], a[i];
      assert a[..] == Swap(before, i, j);
      ShuffleStep(before, picks, i);
      i := i - 1;
    }
    shuffled := a[..];
  }

  /** Iteration `i` of the loop is the outermost step of `ShuffleSteps(s, picks, i + 1)`. */
  lemma ShuffleStep<T>(s: seq<T>, picks: seq<nat>, i: nat)
    requires 0 < i < |s| && ValidDraws(picks, |s|)
    ensures ShuffleSteps(Swap(s, i, picks[i]), picks, i) == ShuffleSteps(s, picks, i + 1)
    ensures Swap(s, i, picks[i])[i + 1..] == s[i + 1..]
  {
  }

  /** Taking `picks[i] == i` everywhere swaps nothing: that shuffle is the identity. */
  lemma {:induction false} IdentityDrawsKeepOrder<T>(s: seq<T>, picks: seq<nat>, i: nat)
    requires i <= |s| && ValidDraws(picks, |s|)
    requires forall k :: 0 < k < |s| ==> picks[k] == k
    ensures ShuffleSteps(s, picks, i) == s
    decreases i
  {
    if i > 1 {
      assert picks[i - 1] == i - 1;
      SwapSelf(s, i - 1);
      IdentityDrawsKeepOrder(s, picks, i - 1);
    }
  }

  /** Swapping an element with itself changes nothing. */
  lemma SwapSelf<T>(s: seq<T>, i: nat)
    requires i < |s|
    ensures Swap(s, i, i) == s
  {
  }

  // ---------------------------------------------------------------------------
  // generateInfinitePhotos

  /** Copies of a block of photos whose ids are rewritten to `offset + index + 1`. */
  function Renumbered(block: seq<Photo>, offset: nat): (r: seq<Photo>)
    ensures |r| == |block|
    ensures forall k :: 0 <= k < |r| ==>
      && r[k].id == offset + k + 1
      && r[k].image == block[k].image && r[k].title == block[k].title && r[k].description == block[k].description
  {
    seq(|block|, k requires 0 <= k < |block| => block[k].(id := offset + k + 1))
  }

  /** The photos with their ids blanked: what remains when ids are ignored. */
  function WithoutIds(s: seq<Photo>): seq<Photo> {
    seq(|s|, k requires 0 <= k < |s| => s[k].(id := 0))
  }

  /** Draws for `count` shuffles of a list of `n` photos. */
  predicate ValidBatchDraws(draws: seq<seq<nat>>, count: nat, n: nat) {
    count <= |draws| && forall i :: 0 <= i < count ==> ValidDraws(draws[i], n)
  }

  /** The shuffled copies of `generateInfinitePhotos`: round `i` is `base`
      shuffled under the draws `draws[i]`. */
  function Rounds(base: seq<Photo>, draws: seq<seq<nat>>, count: nat): (rounds: seq<seq<Photo>>)
    requires ValidBatchDraws(draws, count, |base|)
    ensures |rounds| == count
    ensures forall i :: 0 <= i < count ==> |rounds[i]| == |base|
  {
    seq(count, i requires 0 <= i < count => Shuffled(base, draws[i]))
  }

  /** The rounds laid end to end, each renumbered from where the previous
      ones end, so that the photo at overall position `k` carries id `k + 1`. */
  function Numbered(rounds: seq<seq<Photo>>): (r: seq<Photo>)
    ensures forall k :: 0 <= k < |r| ==> r[k].id == k + 1
  {
    if |rounds| == 0 then []
    else
      var prefix := Numbered(rounds[..|rounds| - 1]);
      NumberedAppend(prefix, rounds[|rounds| - 1]);
      prefix + Renumbered(rounds[|rounds| - 1], |prefix|)
  }

  /** Appending a block renumbered from `|prefix|` to a list numbered from 1
      keeps it numbered from 1. */
  lemma NumberedAppend(prefix: seq<Photo>, block: seq<Photo>)
    requires forall k :: 0 <= k < |prefix| ==> prefix[k].id == k + 1
    ensures var r := prefix + Renumbered(block, |prefix|);
      forall k :: 0 <= k < |r| ==> r[k].id == k + 1
  {
  }

  /** The photo list `generateInfinitePhotos` builds from `base`. */
  function InfinitePhotos(base: seq<Photo>, draws: seq<seq<nat>>, count: nat): seq<Photo>
    requires ValidBatchDraws(draws, count, |base|)
  {
    Numbered(Rounds(base, draws, count))
  }

  /** Rounds of `n` photos each, laid end to end, make `|rounds| * n` photos. */
  lemma {:induction false} NumberedLength(rounds: seq<seq<Photo>>, n: nat)
    requires forall i :: 0 <= i < |rounds| ==> |rounds[i]| == n
    ensures |Numbered(rounds)| == |rounds| * n
    decreases |rounds|
  {
    if |rounds| > 0 {
      NumberedLength(rounds[..|rounds| - 1], n);
      MulSucc(|rounds| - 1, n);
    }
  }

  /** `generateInfinitePhotos(count)` makes `count * |base|` photos. */
  lemma InfinitePhotosLength(base: seq<Photo>, draws: seq<seq<nat>>, count: nat)
    requires ValidBatchDraws(draws, count, |base|)
    ensures |InfinitePhotos(base, draws, count)| == count * |base|
  {
    NumberedLength(Rounds(base, draws, count), |base|);
  }

  /** The `shuffled.forEach` of one round: appends every photo of `shuffled`
      to `photos` with its id rewritten to `offset + index + 1`. */
  method PushRenumbered(photos: seq<Photo>, shuffled: seq<Photo>, offset: nat) returns (result: seq<Photo>)
    ensures result == photos + Renumbered(shuffled, offset)
  {
    result := photos;
    ghost var block := Renumbered(shuffled, offset);
    for index := 0 to |shuffled|
      invariant result == photos + block[..index]
    {
      assert block[..index + 1] == block[..index] + [block[index]];
      result := result + [shuffled[index].(id := offset + index + 1)];
    }
    assert block[..|shuffled|] == block;
  }

  /** `generateInfinitePhotos(count)` over the base list `base` (the gallery
      passes `BasePhotos`): for each of `count` rounds it shuffles the base
      list and appends the shuffled photos with ids `i * |base| + index + 1`. */
  method GenerateInfinitePhotos(base: seq<Photo>, count: nat, draws: seq<seq<nat>>) returns (photos: seq<Photo>)
    requires ValidBatchDraws(draws, count, |base|)
    ensures photos == InfinitePhotos(base, draws, count)
    ensures |photos| == count * |base|
    ensures forall k :: 0 <= k < |photos| ==> photos[k].id == k + 1
  {
    ghost var rounds := Rounds(base, draws, count);
    photos := [];
    for i := 0 to count
      invariant photos == Numbered(rounds[..i])
    {
      var shuffled := ShuffleArray(base, draws[i]);
      NumberedLength(rounds[..i], |base|);
      photos := PushRenumbered(photos, shuffled, i * |base|);
      assert rounds[..i + 1][..i] == rounds[..i];
    }
    assert rounds[..count] == rounds;
    InfinitePhotosLength(base, draws, count);
  }

  /** Renumbering changes nothing but ids. */
  lemma WithoutIdsRenumbered(block: seq<Photo>, offset: nat)
    ensures WithoutIds(Renumbered(block, offset)) == WithoutIds(block)
  {
    var r := Renumbered(block, offset);
    assert |WithoutIds(r)| == |WithoutIds(block)|;
    forall k | 0 <= k < |block| ensures WithoutIds(r)[k] == WithoutIds(block)[k] {
      assert r[k] == block[k].(id := offset + k + 1);
    }
  }

  /** Ignoring ids commutes with one swap. */
  lemma WithoutIdsSwap(s: seq<Photo>, i: nat, j: nat)
    requires i < |s| && j < |s|
    ensures WithoutIds(Swap(s, i, j)) == Swap(WithoutIds(s), i, j)
  {
  }

  /** Ignoring ids commutes with the shuffle loop. */
  lemma {:induction false} WithoutIdsShuffleSteps(s: seq<Photo>, picks: seq<nat>, i: nat)
    requires i <= |s| && ValidDraws(picks, |s|)
    ensures WithoutIds(ShuffleSteps(s, picks, i)) == ShuffleSteps(WithoutIds(s), picks, i)
    decreases i
  {
    if i > 1 {
      var s' := Swap(s, i - 1, picks[i - 1]);
      WithoutIdsSwap(s, i - 1, picks[i - 1]);
      WithoutIdsShuffleSteps(s', picks, i - 1);
    }
  }

  /** `(a + 1) * n` is `a * n` plus one more block of `n`. */
  lemma MulSucc(a: nat, n: nat)
    ensures (a + 1) * n == a * n + n
  {
  }

  /** Round `i` sits, renumbered, right after the rounds before it. */
  lemma {:induction false} NumberedBlock(rounds: seq<seq<Photo>>, i: nat)
    requires i < |rounds|
    ensures var lo, whole := |Numbered(rounds[..i])|, Numbered(rounds);
      lo + |rounds[i]| <= |whole| && whole[lo .. lo + |rounds[i]|] == Renumbered(rounds[i], lo)
    decreases |rounds|
  {
    var init := rounds[..|rounds| - 1];
    var prefix := Numbered(init);
    var block := Renumbered(rounds[|rounds| - 1], |prefix|);
    assert Numbered(rounds) == prefix + block;
    if i == |rounds| - 1 {
      SliceOfAppendRight(prefix, block);
    } else {
      assert init[..i] == rounds[..i] && init[i] == rounds[i];
      NumberedBlock(init, i);
      var lo := |Numbered(rounds[..i])|;
      SliceOfAppendLeft(prefix, block, lo, lo + |rounds[i]|);
    }
  }

  /** A slice inside the left operand of `+` is a slice of that operand. */
  lemma SliceOfAppendLeft<T>(left: seq<T>, right: seq<T>, lo: nat, hi: nat)
    requires lo <= hi <= |left|
    ensures (left + right)[lo .. hi] == left[lo .. hi]
  {
  }

  /** The right operand of `+` is the slice after the left one. */
  lemma SliceOfAppendRight<T>(left: seq<T>, right: seq<T>)
    ensures (left + right)[|left| .. |left| + |right|] == right
  {
  }

  /** A renumbered shuffle of `base` is, ids ignored, a permutation of `base`. */
  lemma RenumberedShuffleIsPermutation(base: seq<Photo>, picks: seq<nat>, offset: nat)
    requires ValidDraws(picks, |base|)
    ensures multiset(WithoutIds(Renumbered(Shuffled(base, picks), offset))) == multiset(WithoutIds(base))
  {
    var shuffled := Shuffled(base, picks);
    WithoutIdsRenumbered(shuffled, offset);
    WithoutIdsShuffleSteps(base, picks, |base|);
  }

  /** Each block of `|base|` consecutive generated photos, from `lo = i * |base|`
      to `hi = lo + |base|`, is the renumbered shuffle of round `i` and so,
      ids ignored, a permutation of the base photos. */
  lemma BlockIsPermutation(base: seq<Photo>, draws: seq<seq<nat>>, count: nat, i: nat, lo: nat, hi: nat)
    requires ValidBatchDraws(draws, count, |base|) && i < count
    requires lo == i * |base| && hi == lo + |base|
    ensures |InfinitePhotos(base, draws, count)| == count * |base| && hi <= count * |base|
    ensures InfinitePhotos(base, draws, count)[lo .. hi] == Renumbered(Shuffled(base, draws[i]), lo)
    ensures multiset(WithoutIds(InfinitePhotos(base, draws, count)[lo .. hi])) == multiset(WithoutIds(base))
  {
    var rounds := Rounds(base, draws, count);
    InfinitePhotosLength(base, draws, count);
    NumberedLength(rounds[..i], |base|);
    NumberedBlock(rounds, i);
    RenumberedShuffleIsPermutation(base, draws[i], lo);
  }

  /** The set of ids carried by a photo list. */
  function Ids(photos: seq<Photo>): set<nat> {
    set k | 0 <= k < |photos| :: photos[k].id
  }

  /** The ids of a generated list are unique and are exactly 1 to `count * |base|`. */
  lemma GeneratedIdsUnique(base: seq<Photo>, draws: seq<seq<nat>>, count: nat)
    requires ValidBatchDraws(draws, count, |base|)
    ensures var photos := InfinitePhotos(base, draws, count);
      && (forall k, l :: 0 <= k < l < |photos| ==> photos[k].id != photos[l].id)
      && (forall id :: id in Ids(photos) <==> 1 <= id <= count * |base|)
  {
    var photos := InfinitePhotos(base, draws, count);
    InfinitePhotosLength(base, draws, count);
    forall id: nat | 1 <= id <= count * |base| ensures id in Ids(photos) {
      assert photos[id - 1].id == id;
    }
  }

  // ---------------------------------------------------------------------------
  // columnPhotos: four `filter`s on the index modulo 4

  /** Column `c` of `columnPhotos`, the filter on the index: the elements whose index
      is congruent to `c` modulo 4, in their original order. */
  function IndexFilter<T>(s: seq<T>, c: nat): (r: seq<T>)
    requires c < 4
  {
    if |s| == 0 then []
    else IndexFilter(s[..|s| - 1], c) + (if (|s| - 1) % 4 == c then [s[|s| - 1]] else [])
  }

  /** Column `c` has `(|s| + 3 - c) / 4` elements, one per index congruent to
      `c` below `|s|`, and its `m`-th element is `s[4 * m + c]`. */
  lemma {:induction false} IndexFilterAt<T>(s: seq<T>, c: nat)
    requires c < 4
    ensures |IndexFilter(s, c)| == (|s| + 3 - c) / 4
    ensures forall m :: 0 <= m < |IndexFilter(s, c)| ==>
              4 * m + c < |s| && IndexFilter(s, c)[m] == s[4 * m + c]
  {
    if |s| > 0 {
      var init, last := s[..|s| - 1], s[|s| - 1];
      IndexFilterAt(init, c);
      QuarterStep(|init|, c);
      var before, after := IndexFilter(init, c), IndexFilter(s, c);
      assert after == before + (if |init| % 4 == c then [last] else []);
      forall m | 0 <= m < |after|
        ensures 4 * m + c < |s| && after[m] == s[4 * m + c]
      {
        if m < |before| {
          assert after[m] == before[m] && init[4 * m + c] == s[4 * m + c];
        }
      }
    }
  }

  /** One more index `n` adds one element to column `c` exactly when
      `n % 4 == c`, and that element is the column's next position. */
  lemma QuarterStep(n: nat, c: nat)
    requires c < 4
    ensures (n + 4 - c) / 4 == (n + 3 - c) / 4 + (if n % 4 == c then 1 else 0)
    ensures n % 4 == c ==> 4 * ((n + 3 - c) / 4) + c == n
  {
  }

  /** Appending one element adds it to column `|init| % 4` and leaves the
      other columns as they were. */
  lemma IndexFilterSnoc<T>(init: seq<T>, last: T, c: nat)
    requires c < 4
    ensures IndexFilter(init + [last], c)
            == IndexFilter(init, c) + (if |init| % 4 == c then [last] else [])
  {
    var s := init + [last];
    assert s[..|s| - 1] == init;
  }

  /** The elements of the four columns, counted with multiplicity. */
  function ColumnsMultiset<T>(s: seq<T>): multiset<T> {
    multiset(IndexFilter(s, 0)) + multiset(IndexFilter(s, 1))
    + multiset(IndexFilter(s, 2)) + multiset(IndexFilter(s, 3))
  }

  /** Appending one element adds it to the multiset of column `|init| % 4` only. */
  lemma ColumnMultisetSnoc<T>(init: seq<T>, last: T, c: nat)
    requires c < 4
    ensures multiset(IndexFilter(init + [last], c))
            == multiset(IndexFilter(init, c)) + (if |init| % 4 == c then multiset{last} else multiset{})
  {
    IndexFilterSnoc(init, last, c);
  }

  /** Appending one element adds exactly that element to the columns. */
  lemma ColumnsSnoc<T>(init: seq<T>, last: T)
    ensures ColumnsMultiset(init + [last]) == ColumnsMultiset(init) + multiset{last}
  {
    ColumnMultisetSnoc(init, last, 0);
    ColumnMultisetSnoc(init, last, 1);
    ColumnMultisetSnoc(init, last, 2);
    ColumnMultisetSnoc(init, last, 3);
    var s := init + [last];
    AddToOneOfFour(multiset(IndexFilter(init, 0)), multiset(IndexFilter(init, 1)),
                   multiset(IndexFilter(init, 2)), multiset(IndexFilter(init, 3)),
                   multiset(IndexFilter(s, 0)), multiset(IndexFilter(s, 1)),
                   multiset(IndexFilter(s, 2)), multiset(IndexFilter(s, 3)), last, |init| % 4);
  }

  /** Adding `x` to one of four multisets adds `x` to their sum. */
  lemma AddToOneOfFour<T>(m0: multiset<T>, m1: multiset<T>, m2: multiset<T>, m3: multiset<T>,
                          n0: multiset<T>, n1: multiset<T>, n2: multiset<T>, n3: multiset<T>, x: T, c: nat)
    requires c < 4
    requires n0 == m0 + (if c == 0 then multiset{x} else multiset{})
    requires n1 == m1 + (if c == 1 then multiset{x} else multiset{})
    requires n2 == m2 + (if c == 2 then multiset{x} else multiset{})
    requires n3 == m3 + (if c == 3 then multiset{x} else multiset{})
    ensures n0 + n1 + n2 + n3 == m0 + m1 + m2 + m3 + multiset{x}
  {
  }

  /** The four columns take every element exactly once: together they hold
      the multiset of `s`. */
  lemma {:induction false} ColumnsPartition<T>(s: seq<T>)
    ensures ColumnsMultiset(s) == multiset(s)
  {
    if |s| > 0 {
      var init, last := s[..|s| - 1], s[|s| - 1];
      assert s == init + [last];
      assert multiset(s) == multiset(init) + multiset{last};
      ColumnsPartition(init);
      ColumnsSnoc(init, last);
    }
  }

  /** Every element sits in column `k % 4` at position `k / 4`. */
  lemma ColumnOfIndex<T>(s: seq<T>)
    ensures forall k :: 0 <= k < |s| ==>
              k / 4 < |IndexFilter(s, k % 4)| && IndexFilter(s, k % 4)[k / 4] == s[k]
  {
    forall k | 0 <= k < |s|
      ensures k / 4 < |IndexFilter(s, k % 4)| && IndexFilter(s, k % 4)[k / 4] == s[k]
    {
      var c, m := k % 4, k / 4;
      IndexFilterAt(s, c);
      assert 4 * m + c == k;
    }
  }

  /** The column lengths differ by at most one. */
  lemma ColumnLengths(n: nat)
    ensures n / 4 <= (n + 1) / 4 <= (n + 2) / 4 <= (n + 3) / 4 <= n / 4 + 1
  {
  }

  /** `columnPhotos`: four columns; column `c` holds exactly the photos at
      indices congruent to `c` modulo 4, in their original order: it has
      `(|photos| + 3 - c) / 4` elements and its `m`-th is `photos[4 * m + c]`. */
  function ColumnPhotos<T>(photos: seq<T>): (columns: seq<seq<T>>)
    ensures |columns| == 4
    ensures forall c :: 0 <= c < 4 ==> |columns[c]| == (|photos| + 3 - c) / 4
    ensures forall c, m :: 0 <= c < 4 && 0 <= m < |columns[c]| ==>
              4 * m + c < |photos| && columns[c][m] == photos[4 * m + c]
  {
    var columns := seq(4, c requires 0 <= c < 4 => IndexFilter(photos, c));
    forall c | 0 <= c < 4
      ensures |columns[c]| == (|photos| + 3 - c) / 4
      ensures forall m :: 0 <= m < |columns[c]| ==>
                4 * m + c < |photos| && columns[c][m] == photos[4 * m + c]
    {
      IndexFilterAt(photos, c);
    }
    columns
  }

  /** The photo at index `k` sits in column `k % 4` at position `k / 4`. */
  lemma ColumnPosition<T>(photos: seq<T>)
    ensures var columns := ColumnPhotos(photos);
      forall k :: 0 <= k < |photos| ==> k / 4 < |columns[k % 4]| && columns[k % 4][k / 4] == photos[k]
  {
    ColumnOfIndex(photos);
  }

  /** No photo is lost or duplicated: the columns together hold the multiset
      of `photos`, and their lengths add up to `|photos|`. */
  lemma ColumnsCoverPhotos<T>(photos: seq<T>)
    ensures var columns := ColumnPhotos(photos);
      && multiset(columns[0]) + multiset(columns[1]) + multiset(columns[2]) + multiset(columns[3])
         == multiset(photos)
      && |columns[0]| + |columns[1]| + |columns[2]| + |columns[3]| == |photos|
  {
    var columns := ColumnPhotos(photos);
    assert columns[0] == IndexFilter(photos, 0) && columns[1] == IndexFilter(photos, 1);
    assert columns[2] == IndexFilter(photos, 2) && columns[3] == IndexFilter(photos, 3);
    ColumnsPartition(photos);
    assert |multiset(photos)| == |photos|;
  }

  /** The column lengths differ by at most one, earlier columns being the longer. */
  lemma ColumnsBalanced<T>(photos: seq<T>)
    ensures var columns := ColumnPhotos(photos);
      forall c, d :: 0 <= c <= d < 4 ==> |columns[d]| <= |columns[c]| <= |columns[d]| + 1
  {
    ColumnLengths(|photos|);
  }

  /** The base list holds sixteen photos whose ids are their positions plus one. */
  lemma BasePhotosShape()
    ensures |BasePhotos| == 16 && GalleryCopies * |BasePhotos| == 160
    ensures forall k :: 0 <= k < |BasePhotos| ==> BasePhotos[k].id == k + 1
  {
  }

  /** When every photo's id is its position plus one, the `m`-th photo of
      column `c` has id `4 * m + c + 1`. */
  lemma ColumnIds(photos: seq<Photo>)
    requires forall k :: 0 <= k < |photos| ==> photos[k].id == k + 1
    ensures var columns := ColumnPhotos(photos);
      forall c, m :: 0 <= c < 4 && 0 <= m < |columns[c]| ==> columns[c][m].id == 4 * m + c + 1
  {
  }

  /** 160 photos numbered from 1 fall into four columns of 40, the `m`-th
      photo of column `c` carrying id `4 * m + c + 1`. */
  lemma ColumnsOf160(photos: seq<Photo>)
    requires |photos| == 160
    requires forall k :: 0 <= k < |photos| ==> photos[k].id == k + 1
    ensures var columns := ColumnPhotos(photos);
      && (forall c :: 0 <= c < 4 ==> |columns[c]| == 40)
      && (forall c, m :: 0 <= c < 4 && 0 <= m < 40 ==> columns[c][m].id == 4 * m + c + 1)
  {
    ColumnIds(photos);
  }

  /** The columns of a generated list: column `c` has `(count * |base| + 3 - c) / 4`
      photos and its `m`-th photo has id `4 * m + c + 1`. */
  lemma GeneratedColumns(base: seq<Photo>, draws: seq<seq<nat>>, count: nat)
    requires ValidBatchDraws(draws, count, |base|)
    ensures var columns := ColumnPhotos(InfinitePhotos(base, draws, count));
      && (forall c :: 0 <= c < 4 ==> |columns[c]| == (count * |base| + 3 - c) / 4)
      && (forall c, m :: 0 <= c < 4 && 0 <= m < |columns[c]| ==> columns[c][m].id == 4 * m + c + 1)
  {
    InfinitePhotosLength(base, draws, count);
    ColumnIds(InfinitePhotos(base, draws, count));
  }

  /** The gallery's `photos`, `GalleryCopies` shuffled copies of `BasePhotos`
      (`count * |base| == 160` by `BasePhotosShape`), are 160 photos with ids 1
      to 160, and each of the four columns holds 40 of them; the `m`-th photo
      of column `c` has id `4 * m + c + 1`. */
  lemma GalleryLayout(base: seq<Photo>, draws: seq<seq<nat>>, count: nat, photos: seq<Photo>)
    requires count * |base| == 160 && ValidBatchDraws(draws, count, |base|)
    requires photos == InfinitePhotos(base, draws, count)
    ensures |photos| == 160
    ensures forall k :: 0 <= k < |photos| ==> photos[k].id == k + 1
    ensures var columns := ColumnPhotos(photos);
      && (forall c :: 0 <= c < 4 ==> |columns[c]| == 40)
      && (forall c, m :: 0 <= c < 4 && 0 <= m < 40 ==> columns[c][m].id == 4 * m + c + 1)
  {
    InfinitePhotosLength(base, draws, count);
    GeneratedColumns(base, draws, count);
  }

  /** The layout of the scrolling gallery: 160 photos with ids 1 to 160, in
      four columns of 40 whose `m`-th photo in column `c` has id `4 * m + c + 1`. */
  predicate Layout160(photos: seq<Photo>) {
    && |photos| == 160
    && (forall k :: 0 <= k < |photos| ==> photos[k].id == k + 1)
    && var columns := ColumnPhotos(photos);
    && (forall c :: 0 <= c < 4 ==> |columns[c]| == 40)
    && (forall c, m :: 0 <= c < 4 && 0 <= m < 40 ==> columns[c][m].id == 4 * m + c + 1)
  }

  /** Ten copies of a sixteen-photo base, the shape of the gallery's own call. */
  lemma TenCopiesOfSixteen(base: seq<Photo>, draws: seq<seq<nat>>, count: nat, photos: seq<Photo>)
    requires |base| == 16 && count == 10 && ValidBatchDraws(draws, count, |base|)
    requires photos == InfinitePhotos(base, draws, count)
    ensures Layout160(photos)
  {
    GalleryLayout(base, draws, count, photos);
  }

  /** The gallery's own `photos`, `InfinitePhotos(BasePhotos, draws, GalleryCopies)`,
      has the layout `Layout160` for every admissible draw. */
  lemma GalleryOf160(draws: seq<seq<nat>>, photos: seq<Photo>)
    requires ValidBatchDraws(draws, GalleryCopies, |BasePhotos|)
    requires photos == InfinitePhotos(BasePhotos, draws, GalleryCopies)
    ensures Layout160(photos)
  {
    BasePhotosShape();
    TenCopiesOfSixteen(BasePhotos, draws, GalleryCopies, photos);
  }

  // ---------------------------------------------------------------------------
  // Alternating scroll directions

  /** The direction of column `index`: 1 (down) for even columns, -1 (up) for odd ones. */
  function Direction(index: nat): (d: int)
    ensures d == 1 || d == -1
    ensures d == 1 <==> index % 2 == 0
  {
    if index % 2 == 0 then 1 else -1
  }

  /** Where a column starts: the top when it scrolls down, `maxScroll` when it scrolls up. */
  function StartValue(direction: int, maxScroll: int): (v: int)
    ensures v == 0 || v == maxScroll
    ensures direction == 1 ==> v == 0
  {
    if direction == 1 then 0 else maxScroll
  }

  /** Where a column's tween heads: `maxScroll` when it scrolls down, the top when it scrolls up. */
  function EndValue(direction: int, maxScroll: int): (v: int)
    ensures v == 0 || v == maxScroll
    ensures v == maxScroll - StartValue(direction, maxScroll)
  {
    if direction == 1 then maxScroll else 0
  }

  /** Even columns run from 0 to `maxScroll`, odd ones from `maxScroll` to 0;
      either way the two ends are 0 and `maxScroll`. */
  lemma ScrollRange(index: nat, maxScroll: int)
    ensures index % 2 == 0 ==>
      StartValue(Direction(index), maxScroll) == 0 && EndValue(Direction(index), maxScroll) == maxScroll
    ensures index % 2 == 1 ==>
      StartValue(Direction(index), maxScroll) == maxScroll && EndValue(Direction(index), maxScroll) == 0
    ensures {StartValue(Direction(index), maxScroll), EndValue(Direction(index), maxScroll)} == {0, maxScroll}
  {
  }

  /** When the content is at least as tall as the visible box, both ends of a
      column's tween, and so every position of it, lie within the scroll range. */
  lemma ScrollEndsInRange(direction: int, scrollHeight: int, clientHeight: int)
    requires clientHeight <= scrollHeight
    ensures 0 <= StartValue(direction, scrollHeight - clientHeight) <= scrollHeight - clientHeight
    ensures 0 <= EndValue(direction, scrollHeight - clientHeight) <= scrollHeight - clientHeight
  {
  }

  /** Neighbouring columns scroll in opposite directions: the start of one is the end of the other. */
  lemma NeighboursSwapEnds(index: nat, maxScroll: int)
    ensures StartValue(Direction(index + 1), maxScroll) == EndValue(Direction(index), maxScroll)
    ensures EndValue(Direction(index + 1), maxScroll) == StartValue(Direction(index), maxScroll)
  {
  }

  /** A scrollable column element: its measured heights and its scroll position. */
  class ScrollColumn {
    const scrollHeight: int
    const clientHeight: int
    var scrollTop: int

    constructor (scrollHeight: int, clientHeight: int, scrollTop: int)
      ensures this.scrollHeight == scrollHeight && this.clientHeight == clientHeight
      ensures this.scrollTop == scrollTop
    {
      this.scrollHeight := scrollHeight;
      this.clientHeight := clientHeight;
      this.scrollTop := scrollTop;
    }

    /** How far the column can scroll: the part of its content below the visible box. */
    function MaxScroll(): int {
      scrollHeight - clientHeight
    }
  }

  /** The request handed to the animation library: tween column `column`'s
      `scrollTop` to `endValue` (back and forth, forever). */
  datatype Tween = Tween(column: nat, endValue: int)

  /** The start-up effect: unless autoplay is off, each column `index` gets
      `scrollTop := startValue` and a tween towards `endValue`. */
  method StartAutoScroll(columns: seq<ScrollColumn>, autoplay: bool) returns (tweens: seq<Tween>)
    requires forall k, l :: 0 <= k < l < |columns| ==> columns[k] != columns[l]
    modifies set k | 0 <= k < |columns| :: columns[k]
    ensures !autoplay ==> tweens == [] && forall k :: 0 <= k < |columns| ==> columns[k].scrollTop == old(columns[k].scrollTop)
    ensures autoplay ==>
      && |tweens| == |columns|
      && forall k :: 0 <= k < |columns| ==>
           var direction := Direction(k);
           && columns[k].scrollTop == StartValue(direction, columns[k].MaxScroll())
           && tweens[k] == Tween(k, EndValue(direction, columns[k].MaxScroll()))
    ensures autoplay ==> forall k :: 0 <= k < |columns| && columns[k].clientHeight <= columns[k].scrollHeight ==>
      0 <= columns[k].scrollTop <= columns[k].MaxScroll() && 0 <= tweens[k].endValue <= columns[k].MaxScroll()
  {
    tweens := [];
    if !autoplay {
      return;
    }
    for index := 0 to |columns|
      invariant |tweens| == index
      invariant forall k :: 0 <= k < index ==>
        var direction := Direction(k);
        && columns[k].scrollTop == StartValue(direction, columns[k].MaxScroll())
        && tweens[k] == Tween(k, EndValue(direction, columns[k].MaxScroll()))
    {
      var column := columns[index];
      var maxScroll := column.scrollHeight - column.clientHeight;
      var direction := if index % 2 == 0 then 1 else -1;
      var startValue := if direction == 1 then 0 else maxScroll;
      var endValue := if direction == 1 then maxScroll else 0;
      column.scrollTop := startValue;
      tweens := tweens + [Tween(index, endValue)];
    }
  }

  // ---------------------------------------------------------------------------
  // Selected photo and modal

  /** The modal's props when it is rendered (`isOpen` is always `true` here). */
  datatype ModalView = ModalView(isOpen: bool, image: string, title: string, description: string)

  /** The gallery's `selectedPhoto` state. */
  class Gallery {
    var selectedPhoto: Option<Photo>

    constructor ()
      ensures selectedPhoto == None
    {
      selectedPhoto := None;
    }

    /** `handlePhotoClick` */
    method HandlePhotoClick(photo: Photo)
      modifies this
      ensures selectedPhoto == Some(photo)
      ensures Modal() == Some(ModalView(true, photo.image, photo.title, photo.description))
    {
      selectedPhoto := Some(photo);
    }

    /** `handleModalClose` */
    method HandleModalClose()
      modifies this
      ensures selectedPhoto == None && Modal() == None
    {
      selectedPhoto := None;
    }

    /** The modal as rendered: it exists exactly when a photo is selected,
        and then it is open and shows that photo. */
    function Modal(): (m: Option<ModalView>)
      reads this
      ensures m.Some? <==> selectedPhoto.Some?
      ensures m.Some? ==> m.value.isOpen
      ensures selectedPhoto.Some? ==>
        var p := selectedPhoto.value;
        m == Some(ModalView(true, p.image, p.title, p.description))
    {
      match selectedPhoto
      case None => None
      case Some(p) => Some(ModalView(true, p.image, p.title, p.description))
    }
  }
}
