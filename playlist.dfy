/** The fixed track list of the player and the wrap-around index arithmetic
    used by the "next" and "previous" transport buttons. */
module Playlist {

  /** One entry of the static track list: display title, artist and source URL. */
  datatype Track = Track(title: string, artist: string, url: string)

  /** The track list the player is configured with: never empty. */
  type Tracks = ts: seq<Track> | |ts| >= 1
    witness [Track("", "", "")]

  /** The index after `i` in a list of `n` tracks, `(i + 1) % n`: the next
      track, or the first one after the last (JavaScript's `%` agrees with
      Dafny's here because both operands are non-negative). */
  function NextIndex(i: nat, n: nat): (r: nat)
    requires i < n
    ensures r < n
    ensures i + 1 < n ==> r == i + 1
    ensures i + 1 == n ==> r == 0
  {
    (i + 1) % n
  }

  /** The index before `i` in a list of `n` tracks, `(i - 1 + n) % n`: the
      previous track, or the last one before the first. The dividend is never
      negative, so truncating and Euclidean remainder coincide. */
  function PrevIndex(i: nat, n: nat): (r: nat)
    requires i < n
    ensures r < n
    ensures 0 < i ==> r == i - 1
    ensures i == 0 ==> r == n - 1
  {
    (i - 1 + n) % n
  }

  /** "Previous" undoes "next" and "next" undoes "previous", for any list length. */
  lemma NextPrevInverse(i: nat, n: nat)
    requires i < n
    ensures PrevIndex(NextIndex(i, n), n) == i
    ensures NextIndex(PrevIndex(i, n), n) == i
  {
  }

  /** The index reached from `i` after `k` consecutive "next" steps. */
  function Advance(i: nat, n: nat, k: nat): (r: nat)
    requires i < n
    ensures r < n
  {
    if k == 0 then i else NextIndex(Advance(i, n, k - 1), n)
  }

  /** Steps add up: `a` steps followed by `b` steps are `a + b` steps. */
  lemma {:induction false} AdvanceAdds(i: nat, n: nat, a: nat, b: nat)
    requires i < n
    ensures Advance(Advance(i, n, a), n, b) == Advance(i, n, a + b)
  {
    if b > 0 {
      AdvanceAdds(i, n, a, b - 1);
    }
  }

  /** Before the end of the list is reached, `k` steps move forward by exactly `k`. */
  lemma {:induction false} AdvanceWithoutWrap(i: nat, n: nat, k: nat)
    requires i + k < n
    ensures Advance(i, n, k) == i + k
  {
    if k > 0 {
      AdvanceWithoutWrap(i, n, k - 1);
    }
  }

  /** `k` "next" steps move the index by `k`, modulo the list length: stepping
      past the last track wraps round to the first. */
  lemma AdvanceWraps(i: nat, n: nat, k: nat)
    requires i < n && k < n
    ensures Advance(i, n, k) == if i + k < n then i + k else i + k - n
  {
    if i + k < n {
      AdvanceWithoutWrap(i, n, k);
    } else {
      var toEnd := n - 1 - i;
      AdvanceWithoutWrap(i, n, toEnd);
      AdvanceAdds(i, n, toEnd, 1);
      assert Advance(i, n, toEnd + 1) == 0;
      AdvanceAdds(i, n, toEnd + 1, k - toEnd - 1);
      AdvanceWithoutWrap(0, n, k - toEnd - 1);
    }
  }

  /** Auto-advance never stops: after as many "next" steps as there are
      tracks, playback is back on the track it started from. */
  lemma FullCycleReturns(i: nat, n: nat)
    requires i < n
    ensures Advance(i, n, n) == i
  {
    var toEnd := n - 1 - i;
    AdvanceWithoutWrap(i, n, toEnd);
    AdvanceAdds(i, n, toEnd, 1);
    AdvanceAdds(i, n, toEnd + 1, i);
    AdvanceWithoutWrap(0, n, i);
  }

  /** Every track is reached from every other one by fewer "next" steps than
      there are tracks: the forward distance from `i` to `j`. */
  lemma EveryTrackReached(i: nat, j: nat, n: nat)
    requires i < n && j < n
    ensures var k := if i <= j then j - i else j + n - i;
            k < n && Advance(i, n, k) == j
  {
    var k := if i <= j then j - i else j + n - i;
    AdvanceWraps(i, n, k);
  }
}
