/** Sequence slicing as Python writes it: `s[:n]`, `reversed(s)` and the
    "newest first" tail views `reversed(s[-n:])` used by the history and
    feedback pages. */
module Seqs {

  /** Python's `s[:n]` for a non-negative `n`. */
  function Take<T>(s: seq<T>, n: nat): (r: seq<T>)
    ensures r <= s
    ensures |r| == if |s| < n then |s| else n
  {
    if |s| <= n then s else s[..n]
  }

  /** Python's `s[-n:]` for a positive `n`: the last `n` elements, or all of `s`.
      (`s[-0:]` would be all of `s`; no caller passes 0.) */
  function Last<T>(s: seq<T>, n: nat): (r: seq<T>)
    requires n > 0
    ensures |r| == if |s| < n then |s| else n
    ensures forall i :: 0 <= i < |r| ==> r[i] == s[|s| - |r| + i]
  {
    if |s| <= n then s else s[|s| - n..]
  }

  function Reverse<T>(s: seq<T>): (r: seq<T>)
    ensures |r| == |s|
    ensures forall i :: 0 <= i < |s| ==> r[i] == s[|s| - 1 - i]
  {
    if s == [] then [] else Reverse(s[1..]) + [s[0]]
  }

  /** `reversed(s[-n:])`: at most `n` entries, newest first. */
  function Recent<T>(s: seq<T>, n: nat): (r: seq<T>)
    requires n > 0
    ensures |r| == if |s| < n then |s| else n
    ensures forall i :: 0 <= i < |r| ==> r[i] == s[|s| - 1 - i]
  {
    Reverse(Last(s, n))
  }

  /** `enumerate(reversed(s[-n:]))` with entry `i` labelled `len(s) - i`, as
      the history views number their entries: the label is the entry's
      one-based position in `s`. */
  function NumberedRecent<T>(s: seq<T>, n: nat): (r: seq<(nat, T)>)
    requires n > 0
    ensures |r| == if |s| < n then |s| else n
    ensures forall i :: 0 <= i < |r| ==> r[i].0 == |s| - i && 1 <= r[i].0 <= |s| && r[i].1 == s[r[i].0 - 1]
  {
    var recent := Recent(s, n);
    var r := seq(|recent|, i requires 0 <= i < |recent| => (|s| - i, recent[i]));
    assert forall i :: 0 <= i < |r| ==> r[i].0 == |s| - i && r[i].1 == recent[i];
    r
  }
}
