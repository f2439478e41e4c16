/** The background-video cursor: a wrap-around advance over the playlist. */
module Playlist {

  /** `prevIndex === videoList.length - 1 ? 0 : prevIndex + 1`. */
  function NextIndex(index: nat, length: nat): (next: nat)
    ensures index < length ==> next < length && next == (index + 1) % length
  {
    if index == length - 1 then 0 else index + 1
  }

  /** The cursor after `steps` end-of-playback signals. */
  function Advance(index: nat, length: nat, steps: nat): nat
    decreases steps
  {
    if steps == 0 then index else Advance(NextIndex(index, length), length, steps - 1)
  }

  /** Any number of advances from a valid index lands on `(index + steps) mod length`. */
  lemma {:induction false} AdvanceIsModular(index: nat, length: nat, steps: nat)
    requires index < length
    ensures Advance(index, length, steps) < length
    ensures Advance(index, length, steps) == (index + steps) % length
    decreases steps
  {
    if steps > 0 {
      var next := NextIndex(index, length);
      AdvanceIsModular(next, length, steps - 1);
      if index == length - 1 {
        ModShift(steps - 1, length);
        assert index + steps == steps - 1 + length;
      }
    }
  }

  lemma ModShift(x: nat, m: nat)
    requires m > 0
    ensures (x + m) % m == x % m
  {
    var q, r := x / m, x % m;
    assert x == q * m + r;
    assert x + m == (q + 1) * m + r;
    ModUnique(x + m, m, q + 1, r);
  }

  /** The remainder is the only `r` in `[0, m)` with `a == k * m + r`. */
  lemma ModUnique(a: int, m: int, k: int, r: int)
    requires m > 0 && a == k * m + r && 0 <= r < m
    ensures a % m == r
  {
    var q, s := a / m, a % m;
    assert a == q * m + s;
    assert (k - q) * m == s - r by {
      assert (k - q) * m == k * m - q * m;
    }
    if k - q >= 1 {
      AtLeastOnce(k - q, m);
    } else if q - k >= 1 {
      AtLeastOnce(q - k, m);
    }
  }

  lemma AtLeastOnce(c: int, m: int)
    requires c >= 1 && m > 0
    ensures c * m >= m
  {
    assert c * m == (c - 1) * m + m;
    assert (c - 1) * m >= 0;
  }

  /** As many advances as the playlist has entries bring the cursor back where it started. */
  lemma AdvanceFullCycle(index: nat, length: nat)
    requires index < length
    ensures Advance(index, length, length) == index
  {
    AdvanceIsModular(index, length, length);
    ModShift(index, length);
  }

}
