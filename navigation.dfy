/** Playlist navigation arithmetic of the music player.
    The player moves through a playlist of `n` tracks with Python's `%`
    operator, whose result is never negative for a positive divisor; Dafny's
    Euclidean `%` agrees with it in that case, so the bodies below use `%`
    directly. */
module Navigation {

  /** Index of the track after `i` in sequential mode: `(i + 1) % n`. */
  function NextIndex(i: int, n: nat): (r: nat)
    requires n > 0
    ensures r < n
    ensures 0 <= i < n ==> r == (if i == n - 1 then 0 else i + 1)
  {
    (i + 1) % n
  }

  /** Index of the track before `i` in sequential mode: `(i - 1) % n`. */
  function PrevIndex(i: int, n: nat): (r: nat)
    requires n > 0
    ensures r < n
    ensures 0 <= i < n ==> r == (if i == 0 then n - 1 else i - 1)
  {
    (i - 1) % n
  }

  /** Stepping back undoes stepping forward. */
  lemma PrevUndoesNext(i: int, n: nat)
    requires 0 <= i < n
    ensures PrevIndex(NextIndex(i, n), n) == i
  {
  }

  /** Stepping forward undoes stepping back. */
  lemma NextUndoesPrev(i: int, n: nat)
    requires 0 <= i < n
    ensures NextIndex(PrevIndex(i, n), n) == i
  {
  }

  /** The index reached from `i` after `k` sequential steps forward. */
  function NextIter(i: int, n: nat, k: nat): (r: nat)
    requires 0 <= i < n
    ensures r < n
    decreases k
  {
    if k == 0 then i else NextIndex(NextIter(i, n, k - 1), n)
  }

  /** Up to one full lap, `k` steps forward from `i` land on `i + k`,
      wrapped once past the end. */
  lemma {:induction false} NextIterOffset(i: int, n: nat, k: nat)
    requires 0 <= i < n && k <= n
    ensures NextIter(i, n, k) == (if i + k < n then i + k else i + k - n)
    decreases k
  {
    if k > 0 {
      NextIterOffset(i, n, k - 1);
    }
  }

  /** `n` steps forward around a playlist of `n` tracks return to the start. */
  lemma FullLapReturns(i: int, n: nat)
    requires 0 <= i < n
    ensures NextIter(i, n, n) == i
  {
    NextIterOffset(i, n, n);
  }
}
