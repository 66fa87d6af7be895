/** A channel's peer list: peers are appended as discovery reports them and
    removed with `indexOf` and `splice` when their connection closes. */
module PeerList {

  /** A peer connection, identified by object identity. */
  type PeerId = nat

  /** Reference definition: the list without the first occurrence of `p`. */
  function RemoveFirst(s: seq<PeerId>, p: PeerId): seq<PeerId> {
    if s == [] then []
    else if s[0] == p then s[1..]
    else [s[0]] + RemoveFirst(s[1..], p)
  }

  /** `indexOf`: the position of the first occurrence of `p`, or -1. */
  method IndexOf(s: seq<PeerId>, p: PeerId) returns (i: int)
    ensures -1 <= i < |s|
    ensures i == -1 <==> p !in s
    ensures 0 <= i ==> s[i] == p && p !in s[..i]
  {
    var k := 0;
    while k < |s|
      invariant 0 <= k <= |s|
      invariant p !in s[..k]
    {
      if s[k] == p {
        return k;
      }
      k := k + 1;
    }
    assert s[..k] == s;
    return -1;
  }

  /** Splicing out the first occurrence found by `indexOf` is exactly RemoveFirst. */
  lemma {:induction false} SpliceRemovesFirst(s: seq<PeerId>, p: PeerId, i: nat)
    requires i < |s| && s[i] == p && p !in s[..i]
    ensures s[..i] + s[i + 1..] == RemoveFirst(s, p)
  {
    if i > 0 {
      assert s[1..][..i - 1] == s[1..i];
      assert p !in s[1..][..i - 1];
      SpliceRemovesFirst(s[1..], p, i - 1);
      assert s[..i] + s[i + 1..] == [s[0]] + (s[1..][..i - 1] + s[1..][i..]);
    }
  }

  /** Removing an absent peer leaves the list as it is. */
  lemma {:induction false} RemoveAbsent(s: seq<PeerId>, p: PeerId)
    requires p !in s
    ensures RemoveFirst(s, p) == s
  {
    if s != [] {
      assert p !in s[1..];
      RemoveAbsent(s[1..], p);
    }
  }

  /** Removing takes out exactly one copy of `p` when present and nothing else. */
  lemma {:induction false} RemoveFirstMultiset(s: seq<PeerId>, p: PeerId)
    ensures multiset(RemoveFirst(s, p)) == multiset(s) - multiset{p}
    ensures |RemoveFirst(s, p)| == if p in s then |s| - 1 else |s|
  {
    if s != [] {
      assert s == [s[0]] + s[1..];
      if s[0] != p {
        RemoveFirstMultiset(s[1..], p);
      }
    }
  }

  /** A newly reported peer goes to the end; closing it again restores the list
      when it was not already present. */
  lemma {:induction false} JoinThenClose(s: seq<PeerId>, p: PeerId)
    requires p !in s
    ensures RemoveFirst(s + [p], p) == s
  {
    if s != [] {
      assert (s + [p])[1..] == s[1..] + [p];
      JoinThenClose(s[1..], p);
    }
  }
}
