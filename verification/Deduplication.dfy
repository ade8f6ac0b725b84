/** The process-local fallback for request deduplication (gateway/dedup.py). */
module Deduplication {
  import opened Wrappers
  import opened Lifecycle
  import opened GatewayModels

  type Key = string

  /** One completed request; the sequence of them is the ordered dictionary. */
  datatype Entry = Entry(key: Key, storedAt: Time, response: Response)

  predicate DistinctKeys(entries: seq<Entry>) {
    forall i, j :: 0 <= i < j < |entries| ==> entries[i].key != entries[j].key
  }

  /** Where the key stands, or the length if it is not there. */
  function IndexOf(entries: seq<Entry>, key: Key): (i: nat)
    ensures i <= |entries|
    ensures i < |entries| ==> entries[i].key == key
    ensures forall j :: 0 <= j < i ==> entries[j].key != key
  {
    if entries == [] || entries[0].key == key then 0 else 1 + IndexOf(entries[1..], key)
  }

  predicate Has(entries: seq<Entry>, key: Key) {
    exists i :: 0 <= i < |entries| && entries[i].key == key
  }

  function Without(entries: seq<Entry>, key: Key): seq<Entry> {
    var i := IndexOf(entries, key);
    if i == |entries| then entries else entries[..i] + entries[i + 1..]
  }

  /** How many leading entries were stored before the cutoff. */
  function LeadingExpired(entries: seq<Entry>, cutoff: Time): (n: nat)
    ensures n <= |entries|
    ensures forall i :: 0 <= i < n ==> entries[i].storedAt < cutoff
    ensures n < |entries| ==> cutoff <= entries[n].storedAt
  {
    if entries == [] || cutoff <= entries[0].storedAt then 0 else 1 + LeadingExpired(entries[1..], cutoff)
  }

  function Pruned(entries: seq<Entry>, cutoff: Time): seq<Entry> {
    entries[LeadingExpired(entries, cutoff)..]
  }

  /** The most recent `max` entries. */
  function Newest(entries: seq<Entry>, max: nat): seq<Entry> {
    if |entries| <= max then entries else entries[|entries| - max..]
  }

  // ---------------------------------------------------------------- recency

  /** One past the position of the key's last use; zero if it was never used. */
  function LastUse(uses: seq<Key>, key: Key): nat {
    if uses == [] then 0
    else if uses[|uses| - 1] == key then |uses|
    else LastUse(uses[..|uses| - 1], key)
  }

  lemma {:induction false} LastUseIsLast(uses: seq<Key>, key: Key)
    ensures var n := LastUse(uses, key);
            n <= |uses| && (n > 0 ==> uses[n - 1] == key) && forall i :: n <= i < |uses| ==> uses[i] != key
  {
    if uses != [] && uses[|uses| - 1] != key {
      LastUseIsLast(uses[..|uses| - 1], key);
    }
  }

  /** The dictionary lists its keys from the least to the most recently used. */
  predicate ByRecency(entries: seq<Entry>, uses: seq<Key>) {
    && (forall i :: 0 <= i < |entries| ==> LastUse(uses, entries[i].key) > 0)
    && (forall i, j :: 0 <= i < j < |entries| ==> LastUse(uses, entries[i].key) < LastUse(uses, entries[j].key))
  }

  lemma UseOnce(uses: seq<Key>, key: Key, other: Key)
    ensures LastUse(uses + [key], other) == if other == key then |uses| + 1 else LastUse(uses, other)
  {
    assert (uses + [key])[..|uses|] == uses;
  }

  lemma RecencyOfSuffix(entries: seq<Entry>, uses: seq<Key>, n: nat)
    requires ByRecency(entries, uses) && DistinctKeys(entries) && n <= |entries|
    ensures ByRecency(entries[n..], uses) && DistinctKeys(entries[n..])
    ensures forall k :: Has(entries[n..], k) ==> Has(entries, k)
  {
    forall k | Has(entries[n..], k) ensures Has(entries, k) {
      var i :| 0 <= i < |entries[n..]| && entries[n..][i].key == k;
      assert entries[n + i].key == k;
    }
  }

  /** The number of leading expired entries is the only place a front-dropping loop can stop. */
  lemma WhereDroppingStops(entries: seq<Entry>, cutoff: Time, n: nat)
    requires n <= |entries| && (forall i :: 0 <= i < n ==> entries[i].storedAt < cutoff)
    requires n < |entries| ==> cutoff <= entries[n].storedAt
    ensures n == LeadingExpired(entries, cutoff)
  {
  }

  /** Where each remaining entry was. */
  function Origin(entries: seq<Entry>, key: Key, i: nat): nat {
    if i < IndexOf(entries, key) then i else i + 1
  }

  lemma WithoutKeepsTheRest(entries: seq<Entry>, key: Key)
    requires DistinctKeys(entries)
    ensures var rest := Without(entries, key);
            && |rest| <= |entries|
            && (forall i :: 0 <= i < |rest| ==>
                  Origin(entries, key, i) < |entries| && rest[i] == entries[Origin(entries, key, i)] && rest[i].key != key)
  {
  }

  lemma WithoutLosesOne(entries: seq<Entry>, key: Key, i: nat)
    requires i < |entries| && entries[i].key != key
    ensures entries[i] in Without(entries, key)
  {
    var rest, k := Without(entries, key), IndexOf(entries, key);
    assert rest[if i < k then i else i - 1] == entries[i];
  }

  lemma RecencyOfRest(entries: seq<Entry>, uses: seq<Key>, key: Key)
    requires ByRecency(entries, uses) && DistinctKeys(entries)
    ensures ByRecency(Without(entries, key), uses) && DistinctKeys(Without(entries, key))
  {
    WithoutKeepsTheRest(entries, key);
    hide Without, LastUse, IndexOf;
    var rest := Without(entries, key);
    forall i, j | 0 <= i < j < |rest|
      ensures rest[i].key != rest[j].key && LastUse(uses, rest[i].key) < LastUse(uses, rest[j].key)
    {
      assert Origin(entries, key, i) < Origin(entries, key, j);
    }
  }

  lemma RecencyOfAppend(rest: seq<Entry>, uses: seq<Key>, e: Entry)
    requires ByRecency(rest, uses) && DistinctKeys(rest)
    requires forall i :: 0 <= i < |rest| ==> rest[i].key != e.key && LastUse(uses, rest[i].key) < LastUse(uses, e.key)
    requires LastUse(uses, e.key) > 0
    ensures ByRecency(rest + [e], uses) && DistinctKeys(rest + [e])
  {
    hide LastUse;
  }

  /** Using a key moves it behind all others. */
  lemma RecencyOfUse(entries: seq<Entry>, uses: seq<Key>, e: Entry)
    requires ByRecency(entries, uses) && DistinctKeys(entries)
    ensures ByRecency(Without(entries, e.key) + [e], uses + [e.key]) && DistinctKeys(Without(entries, e.key) + [e])
  {
    var rest := Without(entries, e.key);
    RecencyOfRest(entries, uses, e.key);
    WithoutKeepsTheRest(entries, e.key);
    hide Without, LastUse, DistinctKeys, IndexOf;
    forall i | 0 <= i < |rest|
      ensures LastUse(uses + [e.key], rest[i].key) == LastUse(uses, rest[i].key) <= |uses|
    {
      UseOnce(uses, e.key, rest[i].key);
      LastUseIsLast(uses, rest[i].key);
    }
    UseOnce(uses, e.key, e.key);
    RecencyOfAppend(rest, uses + [e.key], e);
  }

  /** A fresh entry stands before this one. */
  predicate BehindFresh(entries: seq<Entry>, cutoff: Time, i: nat)
    requires i < |entries|
  {
    exists j :: 0 <= j < i && cutoff <= entries[j].storedAt
  }

  /** A remembered key survives pruning exactly while its own time lasts or a fresh entry stands before it. */
  lemma AnsweredWhenKept(entries: seq<Entry>, cutoff: Time, key: Key)
    requires DistinctKeys(entries)
    ensures forall i :: 0 <= i < |entries| && entries[i].key == key ==>
              (Has(Pruned(entries, cutoff), key) <==> cutoff <= entries[i].storedAt || BehindFresh(entries, cutoff, i))
    ensures Has(Pruned(entries, cutoff), key) <==> IndexOf(Pruned(entries, cutoff), key) < |Pruned(entries, cutoff)|
  {
    var n, kept := LeadingExpired(entries, cutoff), Pruned(entries, cutoff);
    forall i | 0 <= i < |entries| && entries[i].key == key
      ensures Has(kept, key) <==> cutoff <= entries[i].storedAt || BehindFresh(entries, cutoff, i)
    {
      if n <= i {
        assert kept[i - n].key == key;
        assert n < i ==> cutoff <= entries[n].storedAt;
      } else {
        forall j | 0 <= j < |kept| ensures kept[j].key != key {
          assert kept[j] == entries[n + j];
        }
      }
    }
  }

  class InMemoryRequestDeduplicator {
    const maxEntries: nat
    const ttl: nat
    var completed: seq<Entry>
    var inFlight: set<Key>
    /** Every key in the order it was remembered or found. */
    ghost var uses: seq<Key>

    ghost predicate Valid()
      reads this
    {
      && DistinctKeys(completed) && |completed| <= maxEntries
      && (forall k :: k in inFlight ==> !Has(completed, k))
      && ByRecency(completed, uses)
    }

    constructor (maxEntries: nat, ttl: nat)
      requires maxEntries >= 1 && ttl > 0
      ensures Valid() && completed == [] && inFlight == {} && this.maxEntries == maxEntries && this.ttl == ttl
    {
      this.maxEntries, this.ttl := maxEntries, ttl;
      completed, inFlight, uses := [], {}, [];
    }

    /** Drop expired entries from the front, up to the first that is not. */
    method Prune(now: Time)
      requires Valid()
      modifies this`completed
      ensures Valid() && completed == Pruned(old(completed), now - ttl)
    {
      hide ByRecency, DistinctKeys, Has;
      ghost var all := completed;
      ghost var dropped := 0;
      var cutoff := now - ttl;
      while completed != [] && completed[0].storedAt < cutoff
        invariant dropped <= |all| && completed == all[dropped..]
        invariant forall i :: 0 <= i < dropped ==> all[i].storedAt < cutoff
        decreases |completed|
      {
        completed := completed[1..];
        dropped := dropped + 1;
      }
      WhereDroppingStops(all, cutoff, dropped);
      RecencyOfSuffix(all, uses, dropped);
    }

    method Get(key: Key, now: Time) returns (found: Option<Response>)
      requires Valid()
      modifies this
      ensures Valid() && inFlight == old(inFlight)
      ensures var live := Pruned(old(completed), now - ttl);
              var i := IndexOf(live, key);
              if i == |live| then found.None? && completed == live && uses == old(uses)
              else found == Some(live[i].response) && completed == Without(live, key) + [live[i]] && uses == old(uses) + [key]
      ensures forall i :: 0 <= i < |old(completed)| && old(completed)[i].key == key ==>
                (found.Some? <==> now - ttl <= old(completed)[i].storedAt || BehindFresh(old(completed), now - ttl, i))
    {
      hide ByRecency, DistinctKeys, Has, LeadingExpired, BehindFresh, Pruned;
      AnsweredWhenKept(completed, now - ttl, key);
      Prune(now);
      var i := IndexOf(completed, key);
      if i == |completed| { return None; }
      var entry := completed[i];
      RecencyOfUse(completed, uses, entry);
      SameKeys(completed, entry);
      completed := Without(completed, key) + [entry];
      uses := uses + [key];
      return Some(entry.response);
    }

    method Reserve(key: Key, now: Time) returns (reserved: bool)
      requires Valid()
      modifies this
      ensures Valid() && completed == Pruned(old(completed), now - ttl) && uses == old(uses)
      ensures reserved <==> key !in old(inFlight) && !Has(completed, key)
      ensures inFlight == if reserved then old(inFlight) + {key} else old(inFlight)
    {
      Prune(now);
      if key in inFlight || IndexOf(completed, key) < |completed| { return false; }
      inFlight := inFlight + {key};
      return true;
    }

    method Remember(key: Key, response: Response, now: Time)
      requires Valid() && maxEntries >= 1
      modifies this
      ensures Valid() && inFlight == old(inFlight) - {key} && uses == old(uses) + [key]
      ensures completed == Newest(Without(old(completed), key) + [Entry(key, now, response)], maxEntries)
    {
      hide ByRecency, DistinctKeys, Has, Without;
      inFlight := inFlight - {key};
      var entry := Entry(key, now, response);
      RecencyOfUse(completed, uses, entry);
      SameKeys(completed, entry);
      completed := Without(completed, key) + [entry];
      uses := uses + [key];
      ghost var all := completed;
      ghost var evicted := 0;
      while |completed| > maxEntries
        invariant evicted <= |all| && completed == all[evicted..] && (evicted > 0 ==> |completed| >= maxEntries)
        modifies this`completed
        decreases |completed|
      {
        completed := completed[1..];
        evicted := evicted + 1;
      }
      RecencyOfSuffix(all, uses, evicted);
    }

    method Release(key: Key)
      requires Valid()
      modifies this`inFlight
      ensures Valid() && inFlight == old(inFlight) - {key}
    {
      inFlight := inFlight - {key};
    }
  }

  lemma SameKeys(entries: seq<Entry>, e: Entry)
    requires DistinctKeys(entries)
    ensures forall k :: Has(Without(entries, e.key) + [e], k) <==> k == e.key || Has(entries, k)
  {
    var after := Without(entries, e.key) + [e];
    WithoutKeepsTheRest(entries, e.key);
    hide Without, DistinctKeys;
    assert after[|after| - 1] == e;
    forall k | Has(entries, k) ensures Has(after, k) {
      var j :| 0 <= j < |entries| && entries[j].key == k;
      if k != e.key {
        WithoutLosesOne(entries, e.key, j);
        var i :| 0 <= i < |Without(entries, e.key)| && Without(entries, e.key)[i] == entries[j];
        assert after[i].key == k;
      }
    }
    forall k | Has(after, k) ensures k == e.key || Has(entries, k) {
      var j :| 0 <= j < |after| && after[j].key == k;
    }
  }

  lemma NewestIsSuffix(entries: seq<Entry>, max: nat)
    ensures var kept := Newest(entries, max);
            |kept| <= |entries| && |kept| <= max && kept == entries[|entries| - |kept|..] && (|kept| < max ==> kept == entries)
  {
  }

  /** Eviction drops the least recently used: every dropped key was last used before every kept one, and
      nothing is dropped while there is room. */
  lemma EvictionDropsLeastRecent(entries: seq<Entry>, uses: seq<Key>, max: nat, dropped: Entry, kept: Entry)
    requires ByRecency(entries, uses) && dropped in entries
    requires dropped !in Newest(entries, max) && kept in Newest(entries, max)
    ensures LastUse(uses, dropped.key) < LastUse(uses, kept.key) && |Newest(entries, max)| == max
  {
    NewestIsSuffix(entries, max);
    hide LastUse, Newest;
    var rest := Newest(entries, max);
    var cut := |entries| - |rest|;
    var i :| 0 <= i < |entries| && entries[i] == dropped;
    var k :| 0 <= k < |rest| && rest[k] == kept;
    assert entries[cut + k] == kept;
    assert i < cut by {
      assert forall j :: cut <= j < |entries| ==> entries[j] == rest[j - cut];
    }
  }

  /** The listings of the run below, step by step. */
  lemma ListingsOfTheRun(a: Entry, b: Entry)
    requires a.key == "a" && b.key == "b" && a.storedAt == 0 && b.storedAt == 5
    ensures Newest(Without([], "a") + [a], 2) == [a] && Newest(Without([a], "b") + [b], 2) == [a, b]
    ensures Pruned([a, b], -1) == [a, b] && IndexOf([a, b], "a") == 0 && Without([a, b], "a") + [a] == [b, a]
    ensures Pruned([b, a], 2) == [b, a] && IndexOf([b, a], "a") == 1
  {
    assert IndexOf([a], "b") == 1 && LeadingExpired([a, b], -1) == 0 && LeadingExpired([b, a], 2) == 0;
    assert IndexOf([a], "a") == 0 && [b, a][1..] == [a];
  }

  /** Pruning is no full expiry. A hit moves an entry to the end without renewing its time, so here a
      response stored at 0 with a life of 10 is still answered at 12, behind one stored at 5. */
  method ExpiredResponseIsServed(response: Response) returns (before: seq<Entry>, found: Option<Response>)
    ensures before == [Entry("b", 5, response), Entry("a", 0, response)]
    ensures before[1].storedAt < 12 - 10 && BehindFresh(before, 12 - 10, 1) && found == Some(response)
  {
    hide Newest, Without, Pruned, IndexOf, LeadingExpired, Has, ByRecency, DistinctKeys;
    var a, b := Entry("a", 0, response), Entry("b", 5, response);
    ListingsOfTheRun(a, b);
    var deduplicator := new InMemoryRequestDeduplicator(2, 10);
    deduplicator.Remember("a", response, 0);
    deduplicator.Remember("b", response, 5);
    var hit := deduplicator.Get("a", 9);
    before := deduplicator.completed;
    found := deduplicator.Get("a", 12);
    assert before[0].storedAt == 5;
  }
}
