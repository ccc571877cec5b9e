/**
 * `CheckpointManager` of kl/deepnet/trainer/checkpoint_manager.py: a
 * directory of `<index>.pth` blobs, each mapping a component name to that
 * component's state, and the sorted list `stack` of the indices it tracks.
 * `save` writes the next index and evicts the oldest once `max_count`
 * blobs are tracked; `load` restores every registered component from one
 * blob.
 *
 * The directory is a map from file stem (the name without `.pth`) to blob;
 * component states are of an opaque type `S`.
 */
module Checkpoints {
  import opened PyBase

  /** The content of one `.pth` file: component name to state. */
  type Blob<S> = map<string, S>

  /** The tracked indices and the `*.pth` files of the directory, by stem. */
  datatype Store<S> = Store(stack: seq<int>, dir: map<string, Blob<S>>)

  /** The file stem `save` and `load` use for an index: `str(idx)`. */
  function FileStem(idx: int): string { DecimalString(idx) }

  predicate Sorted(s: seq<int>) { forall i, j :: 0 <= i < j < |s| ==> s[i] <= s[j] }

  predicate Increasing(s: seq<int>) { forall i, j :: 0 <= i < j < |s| ==> s[i] < s[j] }

  /** `get_last_idx`: the last tracked index, or 0 when nothing is tracked. */
  function LastIdx(stack: seq<int>): (r: int)
    ensures stack == [] ==> r == 0
    ensures stack != [] ==> r == stack[|stack| - 1]
    // on a sorted stack it is the largest tracked index
    ensures Sorted(stack) ==> forall k :: 0 <= k < |stack| ==> stack[k] <= r
  {
    if |stack| > 0 then stack[|stack| - 1] else 0
  }

  // ---------------------------------------------------------------------
  // check_existing_pth: [int(fp.stem) for fp in glob('*.pth')], then sorted()

  /** `int()` of every stem, or None as soon as one stem is not an integer. */
  function ParseStems(stems: seq<string>): (r: Option<seq<int>>)
    ensures r.Some? ==> |r.value| == |stems| &&
                        forall k :: 0 <= k < |stems| ==> ParseInt(stems[k]) == Some(r.value[k])
    ensures r.None? ==> exists k :: 0 <= k < |stems| && ParseInt(stems[k]).None?
  {
    if stems == [] then Some([])
    else match (ParseInt(stems[0]), ParseStems(stems[1..]))
      case (Some(x), Some(xs)) => Some([x] + xs)
      case (None, _) => None
      case (_, None) => None
  }

  /** Insert `x` before the first element not below it. */
  function Insert(x: int, s: seq<int>): (r: seq<int>)
    ensures |r| == |s| + 1 && multiset(r) == multiset(s) + multiset{x}
  {
    if s == [] || x <= s[0] then [x] + s
    else
      assert s == [s[0]] + s[1..];
      [s[0]] + Insert(x, s[1..])
  }

  /** Inserting into a sorted list keeps it sorted; the head is `x` or the old head. */
  lemma {:induction false} InsertSorted(x: int, s: seq<int>)
    requires Sorted(s)
    ensures Sorted(Insert(x, s))
    ensures Insert(x, s)[0] == x || (s != [] && Insert(x, s)[0] == s[0])
  {
    if s == [] || x <= s[0] {
      ConsSorted(x, s);
    } else {
      var tail := s[1..];
      assert Sorted(tail) by {
        assert forall k :: 0 <= k < |tail| ==> tail[k] == s[k + 1];
      }
      InsertSorted(x, tail);
      ConsSorted(s[0], Insert(x, tail));
    }
  }

  /** `sorted(xs)`: the ascending arrangement of the same integers. */
  function SortInts(xs: seq<int>): (r: seq<int>)
    ensures Sorted(r) && multiset(r) == multiset(xs)
  {
    if xs == [] then []
    else
      assert xs == [xs[0]] + xs[1..];
      var t := SortInts(xs[1..]);
      InsertSorted(xs[0], t);
      Insert(xs[0], t)
  }

  /** Putting an element no greater than the head in front keeps a list sorted. */
  lemma ConsSorted(a: int, t: seq<int>)
    requires Sorted(t) && (t == [] || a <= t[0])
    ensures Sorted([a] + t)
  {
    var r := [a] + t;
    forall i, j | 0 <= i < j < |r| ensures r[i] <= r[j] {
      assert r[j] == t[j - 1];
      if i > 0 {
        assert r[i] == t[i - 1];
      }
    }
  }

  /** Appending an element above every element keeps a list sorted (strictly increasing). */
  lemma SnocSorted(s: seq<int>, x: int)
    requires forall k :: 0 <= k < |s| ==> s[k] < x
    ensures Sorted(s) ==> Sorted(s + [x])
    ensures Increasing(s) ==> Increasing(s + [x])
  {
    var r := s + [x];
    assert forall k :: 0 <= k < |s| ==> r[k] == s[k];
  }

  // ---------------------------------------------------------------------
  // save

  /** Every registered name has a current state. */
  predicate Registered<S>(names: seq<string>, states: map<string, S>)
  {
    forall k :: 0 <= k < |names| ==> names[k] in states
  }

  /** `{mod_name: mod.state_dict() for mod_name, mod in modObj.items()}`. */
  function Snapshot<S>(names: seq<string>, states: map<string, S>): (b: Blob<S>)
    ensures forall n :: n in b <==> n in names && n in states
    ensures Registered(names, states) ==> forall n :: n in b <==> n in names
    ensures forall n :: n in b ==> b[n] == states[n]
  {
    map n | n in names && n in states :: states[n]
  }

  datatype SaveResult<S> = SaveResult(store: Store<S>, error: Option<Error>)

  /**
   * `save()`: write `blob` as `<last+1>.pth`; then, if `max_count` indices are
   * already tracked, pop the oldest and delete its file; then track the new
   * index. The blob is written first, so it stays when pop(0) or the removal
   * fails.
   */
  function Saved<S>(st: Store<S>, blob: Blob<S>, maxCount: int): SaveResult<S>
  {
    var newIdx := LastIdx(st.stack) + 1;
    var dir := st.dir[FileStem(newIdx) := blob];
    if |st.stack| >= maxCount then
      if st.stack == [] then
        SaveResult(Store(st.stack, dir), Some(IndexError))
      else if FileStem(st.stack[0]) !in dir then
        SaveResult(Store(st.stack[1..], dir), Some(FileNotFoundError))
      else
        SaveResult(Store(st.stack[1..] + [newIdx], dir - {FileStem(st.stack[0])}), None)
    else
      SaveResult(Store(st.stack + [newIdx], dir), None)
  }

  /**
   * A save writes the new blob under an index greater than every tracked
   * one, so a sorted (strictly increasing) stack stays sorted (strictly
   * increasing) and ends with that index.
   */
  lemma SaveKeepsOrder<S>(st: Store<S>, blob: Blob<S>, maxCount: int)
    requires Sorted(st.stack)
    ensures var r := Saved(st, blob, maxCount);
            var newIdx := LastIdx(st.stack) + 1;
            && FileStem(newIdx) in r.store.dir && r.store.dir[FileStem(newIdx)] == blob
            && (forall k :: 0 <= k < |st.stack| ==> st.stack[k] < newIdx)
            && Sorted(r.store.stack)
            && (Increasing(st.stack) ==> Increasing(r.store.stack))
            && (r.error == None ==> r.store.stack[|r.store.stack| - 1] == newIdx)
  {
    var newIdx := LastIdx(st.stack) + 1;
    var stack := st.stack;
    if |stack| > 0 {
      DecimalInjective(stack[0], newIdx);
      var tail := stack[1..];
      assert forall k :: 0 <= k < |tail| ==> tail[k] == stack[k + 1];
      SnocSorted(tail, newIdx);
    }
    SnocSorted(stack, newIdx);
  }

  /**
   * The eviction rule: when `max_count` or more indices are tracked, the
   * oldest is dropped and the length stays; otherwise the length grows by
   * one. pop(0) fails only on an empty stack with `max_count <= 0`, and the
   * removal only when the oldest index has no file.
   */
  lemma SaveBounded<S>(st: Store<S>, blob: Blob<S>, maxCount: int)
    ensures var r := Saved(st, blob, maxCount);
            && (r.error == Some(IndexError) <==> st.stack == [] && maxCount <= 0)
            && (r.error == Some(FileNotFoundError) <==>
                  st.stack != [] && |st.stack| >= maxCount &&
                  FileStem(st.stack[0]) != FileStem(LastIdx(st.stack) + 1) &&
                  FileStem(st.stack[0]) !in st.dir)
            && (r.error == None && |st.stack| >= maxCount ==>
                  |r.store.stack| == |st.stack| && r.store.stack[..|st.stack| - 1] == st.stack[1..] &&
                  FileStem(st.stack[0]) !in r.store.dir)
            && (r.error == None && |st.stack| < maxCount ==>
                  r.store.stack[..|st.stack|] == st.stack && |r.store.stack| == |st.stack| + 1)
            && (r.error == None && |st.stack| <= maxCount ==> |r.store.stack| <= maxCount)
  {
  }

  // ---------------------------------------------------------------------
  // load

  datatype LoadResult<S> = LoadResult(states: map<string, S>, error: Option<Error>)

  /**
   * `mod.load_state_dict(pth[mod_name])` for each registered name in order;
   * a name missing from the blob raises KeyError after the earlier names
   * have been restored.
   */
  function Restore<S>(states: map<string, S>, names: seq<string>, blob: Blob<S>): LoadResult<S>
    decreases |names|
  {
    if names == [] then LoadResult(states, None)
    else if names[0] !in blob then LoadResult(states, Some(KeyError))
    else Restore(states[names[0] := blob[names[0]]], names[1..], blob)
  }

  /** `load(path)`: the newest tracked index when no path is given. */
  function Loaded<S>(st: Store<S>, path: Option<string>, names: seq<string>, states: map<string, S>): LoadResult<S>
  {
    var stem := if path.Some? then path.value else FileStem(LastIdx(st.stack));
    if stem !in st.dir then LoadResult(states, Some(FileNotFoundError))
    else Restore(states, names, st.dir[stem])
  }

  /** A blob holding every registered name restores each of them and touches nothing else. */
  lemma {:induction false} RestoreAll<S>(states: map<string, S>, names: seq<string>, blob: Blob<S>)
    requires forall k :: 0 <= k < |names| ==> names[k] in blob
    ensures var r := Restore(states, names, blob);
            && r.error == None
            && (forall n :: n in names ==> n in r.states && r.states[n] == blob[n])
            && (forall n :: n in states && n !in names ==> n in r.states && r.states[n] == states[n])
    decreases |names|
  {
    if names != [] {
      RestoreAll(states[names[0] := blob[names[0]]], names[1..], blob);
      var r := Restore(states, names, blob);
      forall n | n in names ensures n in r.states && r.states[n] == blob[n] {
        if n != names[0] {
          assert n in names[1..];
        }
      }
    }
  }

  /**
   * Round trip: a successful `save()` followed by `load()` with no argument
   * restores every registered component to the state it had when saved,
   * whatever the states became in between, and leaves the others alone.
   */
  lemma SaveLoadRoundTrip<S>(st: Store<S>, names: seq<string>, saved: map<string, S>,
                             maxCount: int, current: map<string, S>)
    requires Sorted(st.stack) && Registered(names, saved)
    requires Saved(st, Snapshot(names, saved), maxCount).error == None
    ensures var r := Loaded(Saved(st, Snapshot(names, saved), maxCount).store, None, names, current);
            && r.error == None
            && (forall n :: n in names ==> n in r.states && r.states[n] == saved[n])
            && (forall n :: n in current && n !in names ==> n in r.states && r.states[n] == current[n])
  {
    var blob := Snapshot(names, saved);
    SaveKeepsOrder(st, blob, maxCount);
    RestoreAll(current, names, blob);
  }

  // ---------------------------------------------------------------------
  // a sequence of saves from an empty directory

  /** The saves of `blobs`, in order, stopping at the first that raises. */
  function SavedAll<S>(st: Store<S>, blobs: seq<Blob<S>>, maxCount: int): SaveResult<S>
    decreases |blobs|
  {
    if blobs == [] then SaveResult(st, None)
    else
      var r := SavedAll(st, blobs[..|blobs| - 1], maxCount);
      if r.error.Some? then r else Saved(r.store, blobs[|blobs| - 1], maxCount)
  }

  /** The integers lo, lo+1, ..., hi. */
  function Interval(lo: int, hi: int): (r: seq<int>)
    ensures |r| == if hi < lo then 0 else hi - lo + 1
    ensures forall k :: 0 <= k < |r| ==> r[k] == lo + k
    decreases hi - lo
  {
    if hi < lo then [] else Interval(lo, hi - 1) + [hi]
  }

  function Max(a: int, b: int): int { if a >= b then a else b }

  /**
   * The state N saves from an empty directory leave (K = `max_count`): the
   * indices max(1, N-K+1) .. N are tracked, the file of index i holds the
   * i-th blob, and every file of the directory is one of those.
   */
  ghost predicate Window<S>(st: Store<S>, blobs: seq<Blob<S>>, maxCount: int)
  {
    var lo := Max(1, |blobs| - maxCount + 1);
    && st.stack == Interval(lo, |blobs|)
    && (forall i :: lo <= i <= |blobs| ==>
          FileStem(i) in st.dir && st.dir[FileStem(i)] == blobs[i - 1])
    && (forall stem :: stem in st.dir ==>
          ParseInt(stem).Some? && lo <= ParseInt(stem).value <= |blobs| &&
          stem == FileStem(ParseInt(stem).value))
  }

  /** One more save, while fewer than `max_count` indices are tracked. */
  lemma WindowGrows<S>(st: Store<S>, blobs: seq<Blob<S>>, b: Blob<S>, maxCount: int)
    requires maxCount >= 1 && |blobs| < maxCount && Window(st, blobs, maxCount)
    ensures Saved(st, b, maxCount).error == None
    ensures Window(Saved(st, b, maxCount).store, blobs + [b], maxCount)
  {
    var n := |blobs|;
    var st' := Store(Interval(1, n + 1), st.dir[FileStem(n + 1) := b]);
    assert Saved(st, b, maxCount) == SaveResult(st', None) by {
      assert st.stack == Interval(1, n);
      assert LastIdx(st.stack) == n;
      assert Interval(1, n) + [n + 1] == Interval(1, n + 1);
    }
    assert Window(st', blobs + [b], maxCount) by {
      GrownDirectory(st.dir, blobs, b);
      WindowIntro(st', blobs + [b], maxCount, 1);
    }
  }

  /** The directory after a save that evicts nothing holds the files of 1 .. N+1. */
  lemma GrownDirectory<S>(dir: map<string, Blob<S>>, blobs: seq<Blob<S>>, b: Blob<S>)
    requires forall i :: 1 <= i <= |blobs| ==> FileStem(i) in dir && dir[FileStem(i)] == blobs[i - 1]
    requires forall stem :: stem in dir ==>
               ParseInt(stem).Some? && 1 <= ParseInt(stem).value <= |blobs| &&
               stem == FileStem(ParseInt(stem).value)
    ensures var dir' := dir[FileStem(|blobs| + 1) := b];
            && (forall i :: 1 <= i <= |blobs| + 1 ==>
                  FileStem(i) in dir' && dir'[FileStem(i)] == (blobs + [b])[i - 1])
            && (forall stem :: stem in dir' ==>
                  ParseInt(stem).Some? && 1 <= ParseInt(stem).value <= |blobs| + 1 &&
                  stem == FileStem(ParseInt(stem).value))
  {
    var n := |blobs|;
    DecimalRoundTrip(n + 1);
    forall i | 1 <= i <= n + 1
      ensures FileStem(i) in dir[FileStem(n + 1) := b] &&
              dir[FileStem(n + 1) := b][FileStem(i)] == (blobs + [b])[i - 1]
    {
      DecimalInjective(i, n + 1);
    }
  }

  /** Dropping the first integer of lo .. hi and adding hi+1 gives lo+1 .. hi+1. */
  lemma IntervalSlide(lo: int, hi: int)
    requires lo <= hi
    ensures Interval(lo, hi)[1..] + [hi + 1] == Interval(lo + 1, hi + 1)
  {
    var a := Interval(lo, hi)[1..] + [hi + 1];
    var b := Interval(lo + 1, hi + 1);
    assert |a| == |b|;
    forall k | 0 <= k < |a| ensures a[k] == b[k] {
      if k < |a| - 1 {
        assert a[k] == Interval(lo, hi)[k + 1];
      }
    }
  }

  /** One more save once `max_count` indices are tracked: the oldest goes. */
  lemma WindowSlides<S>(st: Store<S>, blobs: seq<Blob<S>>, b: Blob<S>, maxCount: int)
    requires maxCount >= 1 && |blobs| >= maxCount && Window(st, blobs, maxCount)
    ensures Saved(st, b, maxCount).error == None
    ensures Window(Saved(st, b, maxCount).store, blobs + [b], maxCount)
  {
    var n := |blobs|;
    var lo := n - maxCount + 1;
    SlidingSave(st, blobs, b, maxCount);
    SlidWindow(st, blobs, b, maxCount);
  }

  /** The store of `SlidingSave` is the window of the blobs with `b` appended. */
  lemma SlidWindow<S>(st: Store<S>, blobs: seq<Blob<S>>, b: Blob<S>, maxCount: int)
    requires maxCount >= 1 && |blobs| >= maxCount && Window(st, blobs, maxCount)
    ensures var n := |blobs|;
            var lo := n - maxCount + 1;
            Window(Store(Interval(lo + 1, n + 1), st.dir[FileStem(n + 1) := b] - {FileStem(lo)}),
                   blobs + [b], maxCount)
  {
    var n := |blobs|;
    var lo := Max(1, n - maxCount + 1);
    assert lo == n - maxCount + 1;
    SlidDirectory(st.dir, blobs, b, lo);
    WindowIntro(Store(Interval(lo + 1, n + 1), st.dir[FileStem(n + 1) := b] - {FileStem(lo)}),
                blobs + [b], maxCount, lo + 1);
  }

  /** The store a save leaves when the window is full. */
  lemma SlidingSave<S>(st: Store<S>, blobs: seq<Blob<S>>, b: Blob<S>, maxCount: int)
    requires maxCount >= 1 && |blobs| >= maxCount && Window(st, blobs, maxCount)
    ensures var n := |blobs|;
            var lo := n - maxCount + 1;
            Saved(st, b, maxCount)
            == SaveResult(Store(Interval(lo + 1, n + 1), st.dir[FileStem(n + 1) := b] - {FileStem(lo)}), None)
  {
    var n := |blobs|;
    var lo := Max(1, n - maxCount + 1);
    assert lo == n - maxCount + 1;
    assert |st.stack| == maxCount && st.stack[0] == lo && LastIdx(st.stack) == n;
    assert FileStem(lo) in st.dir;
    EvictingSave(st, b, maxCount);
    IntervalSlide(lo, n);
  }

  /** The window of lo .. N, given its three parts. */
  lemma WindowIntro<S>(st: Store<S>, blobs: seq<Blob<S>>, maxCount: int, lo: int)
    requires lo == Max(1, |blobs| - maxCount + 1)
    requires st.stack == Interval(lo, |blobs|)
    requires forall i :: lo <= i <= |blobs| ==> FileStem(i) in st.dir && st.dir[FileStem(i)] == blobs[i - 1]
    requires forall stem :: stem in st.dir ==>
               ParseInt(stem).Some? && lo <= ParseInt(stem).value <= |blobs| &&
               stem == FileStem(ParseInt(stem).value)
    ensures Window(st, blobs, maxCount)
  {
  }

  /** A save that evicts an existing oldest file. */
  lemma EvictingSave<S>(st: Store<S>, b: Blob<S>, maxCount: int)
    requires 1 <= maxCount <= |st.stack|
    requires FileStem(st.stack[0]) in st.dir
    requires st.stack[0] != LastIdx(st.stack) + 1
    ensures var newIdx := LastIdx(st.stack) + 1;
            Saved(st, b, maxCount)
            == SaveResult(Store(st.stack[1..] + [newIdx],
                                st.dir[FileStem(newIdx) := b] - {FileStem(st.stack[0])}), None)
  {
    DecimalInjective(st.stack[0], LastIdx(st.stack) + 1);
  }

  /** The directory after the slide holds exactly the files of lo+1 .. N+1. */
  lemma SlidDirectory<S>(dir: map<string, Blob<S>>, blobs: seq<Blob<S>>, b: Blob<S>, lo: int)
    requires 1 <= lo <= |blobs|
    requires forall i :: lo <= i <= |blobs| ==> FileStem(i) in dir && dir[FileStem(i)] == blobs[i - 1]
    requires forall stem :: stem in dir ==>
               ParseInt(stem).Some? && lo <= ParseInt(stem).value <= |blobs| &&
               stem == FileStem(ParseInt(stem).value)
    ensures var dir' := dir[FileStem(|blobs| + 1) := b] - {FileStem(lo)};
            && (forall i :: lo + 1 <= i <= |blobs| + 1 ==>
                  FileStem(i) in dir' && dir'[FileStem(i)] == (blobs + [b])[i - 1])
            && (forall stem :: stem in dir' ==>
                  ParseInt(stem).Some? && lo + 1 <= ParseInt(stem).value <= |blobs| + 1 &&
                  stem == FileStem(ParseInt(stem).value))
  {
    SlidFiles(dir, blobs, b, lo);
    SlidStems(dir, |blobs|, b, lo);
  }

  /** After the slide, the file of each index lo+1 .. N+1 holds that index's blob. */
  lemma SlidFiles<S>(dir: map<string, Blob<S>>, blobs: seq<Blob<S>>, b: Blob<S>, lo: int)
    requires 1 <= lo <= |blobs|
    requires forall i :: lo <= i <= |blobs| ==> FileStem(i) in dir && dir[FileStem(i)] == blobs[i - 1]
    ensures var dir' := dir[FileStem(|blobs| + 1) := b] - {FileStem(lo)};
            forall i :: lo + 1 <= i <= |blobs| + 1 ==>
              FileStem(i) in dir' && dir'[FileStem(i)] == (blobs + [b])[i - 1]
  {
    var n := |blobs|;
    var dir' := dir[FileStem(n + 1) := b] - {FileStem(lo)};
    forall i | lo + 1 <= i <= n + 1
      ensures FileStem(i) in dir' && dir'[FileStem(i)] == (blobs + [b])[i - 1]
    {
      DecimalInjective(i, n + 1);
      DecimalInjective(i, lo);
    }
  }

  /** After the slide, every file of the directory is the file of an index lo+1 .. N+1. */
  lemma SlidStems<S>(dir: map<string, Blob<S>>, n: int, b: Blob<S>, lo: int)
    requires 1 <= lo <= n
    requires forall stem :: stem in dir ==>
               ParseInt(stem).Some? && lo <= ParseInt(stem).value <= n &&
               stem == FileStem(ParseInt(stem).value)
    ensures var dir' := dir[FileStem(n + 1) := b] - {FileStem(lo)};
            forall stem :: stem in dir' ==>
              ParseInt(stem).Some? && lo + 1 <= ParseInt(stem).value <= n + 1 &&
              stem == FileStem(ParseInt(stem).value)
  {
    var dir' := dir[FileStem(n + 1) := b] - {FileStem(lo)};
    DecimalRoundTrip(n + 1);
    forall stem | stem in dir'
      ensures ParseInt(stem).Some? && lo + 1 <= ParseInt(stem).value <= n + 1 &&
              stem == FileStem(ParseInt(stem).value)
    {
      if stem != FileStem(n + 1) {
        assert stem in dir && stem != FileStem(lo);
        DecimalInjective(ParseInt(stem).value, lo);
      }
    }
  }

  /**
   * Starting from an empty directory with `max_count = K >= 1`, N saves never
   * fail and leave exactly the indices max(1, N-K+1) .. N tracked; the
   * directory holds exactly their files, the one for index i holding the
   * i-th saved blob.
   */
  lemma {:induction false} SavesFromEmpty<S>(blobs: seq<Blob<S>>, maxCount: int)
    requires maxCount >= 1
    ensures SavedAll(Store([], map[]), blobs, maxCount).error == None
    ensures Window(SavedAll(Store([], map[]), blobs, maxCount).store, blobs, maxCount)
    decreases |blobs|
  {
    var n := |blobs|;
    if n > 0 {
      var prev := blobs[..n - 1];
      assert blobs == prev + [blobs[n - 1]];
      SavesFromEmpty(prev, maxCount);
      var p := SavedAll(Store([], map[]), prev, maxCount);
      if n - 1 < maxCount {
        WindowGrows(p.store, prev, blobs[n - 1], maxCount);
      } else {
        WindowSlides(p.store, prev, blobs[n - 1], maxCount);
      }
    }
  }

  /** max_count 3 and five saves: indices 3, 4 and 5 remain. */
  lemma FiveSavesKeepThree<S>(b: Blob<S>)
    ensures SavedAll(Store([], map[]), [b, b, b, b, b], 3).store.stack == [3, 4, 5]
  {
    SavesFromEmpty([b, b, b, b, b], 3);
    assert Interval(3, 5) == [3, 4, 5];
  }

  // ---------------------------------------------------------------------
  // the manager object

  class CheckpointManager<S> {
    /** The names of `modObj`, in order. */
    const names: seq<string>
    /** The current `state_dict()` of each registered component. */
    var states: map<string, S>
    const maxCount: int
    /** The tracked indices, oldest first. */
    var stack: seq<int>
    /** The `*.pth` files of the checkpoint directory, by stem. */
    var dir: map<string, Blob<S>>

    ghost predicate Valid()
      reads this
    {
      Sorted(stack) && Registered(names, states)
    }

    function Current(): Store<S>
      reads this
    {
      Store(stack, dir)
    }

    /** The object before its directory scan: `stack = []`. */
    constructor (names: seq<string>, states: map<string, S>, maxCount: int, dir: map<string, Blob<S>>)
      requires Registered(names, states)
      ensures Valid() && stack == []
      ensures this.names == names && this.states == states && this.maxCount == maxCount && this.dir == dir
    {
      this.names := names;
      this.states := states;
      this.maxCount := maxCount;
      this.dir := dir;
      stack := [];
    }

    /**
     * `CheckpointManager(modObj, root_dir, max_count)`: build the object and
     * scan the directory; `listing` is what `glob('*.pth')` yields. A stem
     * that is not an integer makes the constructor raise ValueError.
     */
    static method Create(names: seq<string>, states: map<string, S>, maxCount: int,
                         dir: map<string, Blob<S>>, listing: seq<string>)
      returns (m: CheckpointManager?<S>, err: Option<Error>)
      requires Registered(names, states)
      requires forall s :: s in listing <==> s in dir
      ensures err.None? <==> ParseStems(listing).Some?
      ensures err.Some? ==> m == null && err == Some(ValueError)
      ensures err.None? ==> m != null && fresh(m) && m.Valid() &&
                            m.stack == SortInts(ParseStems(listing).value) &&
                            m.names == names && m.states == states &&
                            m.maxCount == maxCount && m.dir == dir
    {
      var c := new CheckpointManager(names, states, maxCount, dir);
      err := c.CheckExistingPth(listing);
      m := if err.None? then c else null;
    }

    /** `check_existing_pth`: track the sorted integer stems of the listed files. */
    method CheckExistingPth(listing: seq<string>) returns (err: Option<Error>)
      requires Valid()
      modifies this`stack
      ensures Valid()
      ensures err.None? <==> ParseStems(listing).Some?
      ensures err.Some? ==> err == Some(ValueError) && stack == old(stack)
      ensures err.None? ==> stack == SortInts(ParseStems(listing).value)
    {
      match ParseStems(listing)
      case None =>
        err := Some(ValueError);
      case Some(files) =>
        stack := SortInts(files);
        err := None;
    }

    method Save() returns (err: Option<Error>)
      requires Valid()
      modifies this`stack, this`dir
      ensures Valid()
      ensures var r := Saved(old(Current()), Snapshot(names, states), maxCount);
              Current() == r.store && err == r.error
    {
      SaveKeepsOrder(Current(), Snapshot(names, states), maxCount);
      var newIdx := LastIdx(stack) + 1;
      dir := dir[FileStem(newIdx) := Snapshot(names, states)];
      if |stack| >= maxCount {
        if stack == [] {
          return Some(IndexError);
        }
        var oldest := stack[0];
        stack := stack[1..];
        if FileStem(oldest) !in dir {
          return Some(FileNotFoundError);
        }
        dir := dir - {FileStem(oldest)};
      }
      stack := stack + [newIdx];
      err := None;
    }

    method Load(path: Option<string>) returns (err: Option<Error>)
      requires Valid()
      modifies this`states
      ensures Valid()
      ensures var r := Loaded(Current(), path, names, old(states));
              states == r.states && err == r.error
    {
      var stem := if path.Some? then path.value else FileStem(LastIdx(stack));
      if stem !in dir {
        return Some(FileNotFoundError);
      }
      var blob := dir[stem];
      var i := 0;
      while i < |names|
        invariant i <= |names|
        invariant Restore(states, names[i..], blob) == Restore(old(states), names, blob)
        invariant forall n :: n in old(states) ==> n in states
      {
        assert names[i..][1..] == names[i + 1..];
        if names[i] !in blob {
          return Some(KeyError);
        }
        states := states[names[i] := blob[names[i]]];
        i := i + 1;
      }
      err := None;
    }
  }
}
