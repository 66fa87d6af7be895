/** An abstract model of one channel's hyperlog: an arena of entries indexed by
    change number, each entry recording the change numbers of its parents.
    Change numbers start at 1; the entry with change `c` is `entries[c - 1]`.
    Storage, replication and hashing are not part of this model. */
module Hyperlog {
  import opened Js

  datatype Entry = Entry(parents: set<nat>, value: seq<byte>)

  datatype Log = Log(entries: seq<Entry>)

  const Empty: Log := Log([])

  /** The log's `changes` counter: how many entries it holds. */
  function Count(log: Log): nat {
    |log.entries|
  }

  predicate Exists(log: Log, c: nat) {
    1 <= c <= Count(log)
  }

  /** Some entry names `c` as one of its parents. */
  predicate Referenced(log: Log, c: nat) {
    exists k :: 0 <= k < |log.entries| && c in log.entries[k].parents
  }

  /** Every parent of an entry is an earlier entry, so the parent links form a DAG. */
  predicate WellFormed(log: Log) {
    forall k :: 0 <= k < |log.entries| ==>
      forall p :: p in log.entries[k].parents ==> 1 <= p <= k
  }

  /** The heads: entries that no entry names as a parent. */
  function Heads(log: Log): (h: set<nat>)
    ensures forall c :: c in h ==> Exists(log, c)
    ensures Count(log) == 0 ==> h == {}
  {
    set c: nat | 1 <= c <= |log.entries| && !Referenced(log, c)
  }

  /** `add(links, value)`: a new entry with the given parents gets the next change number. */
  function Append(log: Log, parents: set<nat>, value: seq<byte>): Log {
    Log(log.entries + [Entry(parents, value)])
  }

  /** The appended entry is the last one, with exactly the parents it was given;
      the entries already present are untouched. */
  lemma AppendEntry(log: Log, parents: set<nat>, value: seq<byte>)
    ensures var r := Append(log, parents, value);
      Count(r) == Count(log) + 1 &&
      r.entries[Count(log)] == Entry(parents, value) &&
      r.entries[..Count(log)] == log.entries
  {
  }

  /** Appending with parents drawn from existing entries keeps the log a DAG. */
  lemma AppendWellFormed(log: Log, parents: set<nat>, value: seq<byte>)
    requires WellFormed(log)
    requires forall p :: p in parents ==> Exists(log, p)
    ensures WellFormed(Append(log, parents, value))
  {
  }

  /** The latest entry of a non-empty well-formed log is always a head. */
  lemma LatestIsHead(log: Log)
    requires WellFormed(log) && Count(log) > 0
    ensures Count(log) in Heads(log)
  {
  }

  /** After an append, the heads are the old heads the new entry does not name,
      plus the new entry itself. */
  lemma AppendHeads(log: Log, parents: set<nat>, value: seq<byte>)
    requires WellFormed(log)
    requires forall p :: p in parents ==> Exists(log, p)
    ensures Heads(Append(log, parents, value)) == (Heads(log) - parents) + {Count(log) + 1}
  {
    var r := Append(log, parents, value);
    var n := Count(log);
    forall c: nat
      ensures Referenced(r, c) <==> Referenced(log, c) || c in parents
    {
      if Referenced(r, c) {
        var k :| 0 <= k < |r.entries| && c in r.entries[k].parents;
        if k < n {
          assert r.entries[k] == log.entries[k];
        }
      }
      if Referenced(log, c) {
        var k :| 0 <= k < |log.entries| && c in log.entries[k].parents;
        assert r.entries[k] == log.entries[k];
      }
      if c in parents {
        assert r.entries[n].parents == parents;
      }
    }
  }

  /** Appending with exactly the heads just read as parents leaves a single head:
      the new entry. */
  lemma AppendAtHeads(log: Log, value: seq<byte>)
    requires WellFormed(log)
    ensures WellFormed(Append(log, Heads(log), value))
    ensures Heads(Append(log, Heads(log), value)) == {Count(log) + 1}
  {
    AppendWellFormed(log, Heads(log), value);
    AppendHeads(log, Heads(log), value);
  }

  /** Two appends made from the same heads, with no read in between, both stay
      heads; the next append that reads the heads names both as its parents,
      so neither is dropped from the DAG. */
  lemma {:induction false} ConcurrentAppends(log: Log, v1: seq<byte>, v2: seq<byte>, v3: seq<byte>)
    requires WellFormed(log)
    ensures var h := Heads(log);
      var l2 := Append(Append(log, h, v1), h, v2);
      Heads(l2) == {Count(log) + 1, Count(log) + 2} &&
      Heads(Append(l2, Heads(l2), v3)) == {Count(log) + 3} &&
      Append(l2, Heads(l2), v3).entries[Count(log) + 2].parents == {Count(log) + 1, Count(log) + 2}
  {
    var h := Heads(log);
    var l1 := Append(log, h, v1);
    AppendAtHeads(log, v1);
    assert forall p :: p in h ==> Exists(l1, p);
    AppendWellFormed(l1, h, v2);
    AppendHeads(l1, h, v2);
    var l2 := Append(l1, h, v2);
    assert Heads(l2) == {Count(log) + 1, Count(log) + 2};
    AppendAtHeads(l2, v3);
  }
}
