/** The stored form of a replica: lists of values, indexed again by their ids when they are read back. */
module Snapshot {
  import opened Text
  import opened AuctionDomain
  import opened Replica
  import LocalInvariant

  datatype Snapshot = Snapshot(
    auctions: seq<Auction>, records: seq<Record>, prepared: seq<Prepare>, aborted: seq<Decision>,
    pending: seq<CommitDecision>, epoch: int, ready: bool, backup: string)

  function AuctionKey(auction: Auction): string { auction.auctionId }

  function RecordKey(record: Record): string { record.requestId }

  function PrepareKey(m: Prepare): string { m.requestId }

  function DecisionKey(m: Decision): string { m.requestId }

  function PendingKey(decision: CommitDecision): string { decision.requestId }

  /** The values of the map, each key's once, in the order of `keys`. */
  ghost predicate ListedBy<V(!new)>(keys: seq<string>, values: seq<V>, m: map<string, V>)
  {
    && |keys| == |values|
    && (forall i, j :: 0 <= i < j < |keys| ==> keys[i] != keys[j])
    && (forall i :: 0 <= i < |keys| ==> keys[i] in m && m[keys[i]] == values[i])
    && (forall k :: k in m ==> k in keys)
  }

  ghost predicate Lists<V(!new)>(values: seq<V>, m: map<string, V>)
  {
    exists keys :: ListedBy(keys, values, m)
  }

  /** A dictionary built from a list: a later value replaces an earlier one of the same key. */
  function IndexBy<V>(values: seq<V>, key: V -> string): map<string, V>
  {
    if values == [] then map[]
    else IndexBy(values[..|values| - 1], key)[key(values[|values| - 1]) := values[|values| - 1]]
  }

  predicate Keyed<V>(m: map<string, V>, key: V -> string)
  {
    forall k :: k in m ==> key(m[k]) == k
  }

  lemma {:induction false} IndexIsKeyed<V>(values: seq<V>, key: V -> string)
    ensures Keyed(IndexBy(values, key), key)
    ensures forall k :: k in IndexBy(values, key) ==> IndexBy(values, key)[k] in values
    ensures forall v :: v in values ==> key(v) in IndexBy(values, key)
  {
    if values != [] {
      var front, last := values[..|values| - 1], values[|values| - 1];
      IndexIsKeyed(front, key);
      assert values == front + [last];
    }
  }

  /** Indexing a listing restores the map exactly when every value is stored under its own key. */
  lemma IndexRestores<V(!new)>(values: seq<V>, m: map<string, V>, key: V -> string)
    requires Lists(values, m)
    ensures IndexBy(values, key) == m <==> Keyed(m, key)
  {
    IndexIsKeyed(values, key);
    var index := IndexBy(values, key);
    if Keyed(m, key) {
      var keys :| ListedBy(keys, values, m);
      forall k | k in m ensures k in index {
        var i :| 0 <= i < |keys| && keys[i] == k;
        assert values[i] in values;
      }
      forall k | k in index ensures k in m && m[k] == index[k] {
        var i :| 0 <= i < |values| && values[i] == index[k];
        assert key(m[keys[i]]) == keys[i];
      }
    }
  }

  /** `list(dictionary.values())`. */
  method Values<V(!new)>(m: map<string, V>) returns (values: seq<V>)
    ensures Lists(values, m)
  {
    values := [];
    ghost var keys: seq<string> := [];
    var rest := m.Keys;
    while rest != {}
      invariant rest <= m.Keys
      invariant |keys| == |values|
      invariant forall i, j :: 0 <= i < j < |keys| ==> keys[i] != keys[j]
      invariant forall i :: 0 <= i < |keys| ==> keys[i] in m && keys[i] !in rest && m[keys[i]] == values[i]
      invariant forall k :: k in m && k !in rest ==> k in keys
      decreases |rest|
    {
      var k :| k in rest;
      rest := rest - {k};
      values := values + [m[k]];
      keys := keys + [k];
    }
    assert ListedBy(keys, values, m);
  }

  method Index<V>(values: seq<V>, key: V -> string) returns (m: map<string, V>)
    ensures m == IndexBy(values, key)
  {
    m := map[];
    for i := 0 to |values|
      invariant m == IndexBy(values[..i], key)
    {
      assert values[..i + 1][..i] == values[..i];
      m := m[key(values[i]) := values[i]];
    }
    assert values[..|values|] == values;
  }

  predicate DistinctKeys<V>(values: seq<V>, key: V -> string)
  {
    forall i, j :: 0 <= i < j < |values| ==> key(values[i]) != key(values[j])
  }

  lemma ListingIsDistinct<V(!new)>(values: seq<V>, m: map<string, V>, key: V -> string)
    requires Lists(values, m) && Keyed(m, key)
    ensures DistinctKeys(values, key)
  {
  }

  lemma IndexOneMore<V>(values: seq<V>, i: nat, key: V -> string)
    requires i < |values| && DistinctKeys(values[..i], key)
    ensures IndexBy(values[..i + 1], key) == IndexBy(values[..i], key)[key(values[i]) := values[i]]
    ensures DistinctKeys(values[..i + 1], key) <==> key(values[i]) !in IndexBy(values[..i], key)
  {
    assert values[..i + 1][..i] == values[..i];
    IndexIsKeyed(values[..i], key);
    var index := IndexBy(values[..i], key);
    if key(values[i]) in index {
      var j :| 0 <= j < i && values[j] == index[key(values[i])];
      assert key(values[..i + 1][j]) == key(values[..i + 1][i]);
    } else {
      forall j | 0 <= j < i ensures key(values[j]) != key(values[i]) {
        assert values[..i][j] in values[..i];
      }
    }
  }

  lemma PrefixDistinct<V>(values: seq<V>, i: nat, key: V -> string)
    requires i <= |values| && DistinctKeys(values, key)
    ensures DistinctKeys(values[..i], key)
  {
  }

  /** Builds the dictionary entry by entry and refuses the list at the first invalid or repeated one. */
  method IndexValid<V>(values: seq<V>, key: V -> string, valid: V -> bool) returns (index: Option<map<string, V>>)
    ensures index.Some? <==> (forall i :: 0 <= i < |values| ==> valid(values[i])) && DistinctKeys(values, key)
    ensures index.Some? ==> index.value == IndexBy(values, key)
  {
    var m: map<string, V> := map[];
    for i := 0 to |values|
      invariant m == IndexBy(values[..i], key) && DistinctKeys(values[..i], key)
      invariant forall j :: 0 <= j < i ==> valid(values[j])
    {
      IndexOneMore(values, i, key);
      if !valid(values[i]) || key(values[i]) in m {
        if DistinctKeys(values, key) {
          PrefixDistinct(values, i + 1, key);
        }
        return None;
      }
      m := m[key(values[i]) := values[i]];
    }
    assert values[..|values|] == values;
    return Some(m);
  }

  // ---------------------------------------------------------------- the snapshot of a replica

  /** The snapshot holds exactly what the replica persists. */
  ghost predicate Saves(s: Snapshot, r: State)
  {
    && Lists(s.auctions, r.auctions) && Lists(s.records, r.records) && Lists(s.prepared, r.prepared)
    && Lists(s.aborted, r.aborted) && Lists(s.pending, r.pending)
    && s.epoch == r.epoch && s.ready == r.ready && s.backup == r.backup
  }

  predicate Loadable(s: Snapshot)
  {
    && (forall i :: 0 <= i < |s.auctions| ==> CommittedStateValid(s.auctions[i]))
    && DistinctKeys(s.auctions, AuctionKey)
  }

  /** A started process takes everything from the snapshot and derives its role. */
  function Loaded(address: string, s: Snapshot): State
  {
    var primary := s.ready && s.backup != "";
    State(address, if primary then Primary else Backup,
          IndexBy(s.auctions, AuctionKey), IndexBy(s.records, RecordKey), IndexBy(s.prepared, PrepareKey),
          IndexBy(s.aborted, DecisionKey), IndexBy(s.pending, PendingKey), s.epoch, s.ready, s.backup, primary)
  }

  /** Reads a snapshot back, or refuses it. */
  method Read(address: string, s: Snapshot) returns (r: Option<State>)
    ensures r == if Loadable(s) then Some(Loaded(address, s)) else None
  {
    var auctions := IndexValid(s.auctions, AuctionKey, auction => CommittedStateValid(auction));
    if auctions.None? {
      return None;
    }
    var records := Index(s.records, RecordKey);
    var prepared := Index(s.prepared, PrepareKey);
    var aborted := Index(s.aborted, DecisionKey);
    var pending := Index(s.pending, PendingKey);
    var primary := s.ready && s.backup != "";
    return Some(State(address, if primary then Primary else Backup, auctions.value, records, prepared, aborted, pending,
                      s.epoch, s.ready, s.backup, primary));
  }

  /** Every value sits under its own id, and every auction passes the load check. */
  predicate Storable(r: State)
  {
    && Keyed(r.auctions, AuctionKey) && Keyed(r.records, RecordKey) && Keyed(r.prepared, PrepareKey)
    && Keyed(r.aborted, DecisionKey) && Keyed(r.pending, PendingKey)
    && AllValid(r.auctions)
  }

  predicate AllValid(auctions: map<string, Auction>)
  {
    forall k :: k in auctions ==> CommittedStateValid(auctions[k])
  }

  lemma LoadableIff(s: Snapshot, auctions: map<string, Auction>)
    requires Lists(s.auctions, auctions) && Keyed(auctions, AuctionKey)
    ensures Loadable(s) <==> AllValid(auctions)
  {
  }

  /** Loading what was saved resumes the replica exactly when it is storable: all eight fields come back. */
  lemma LoadRestores(s: Snapshot, r: State)
    requires Saves(s, r)
    ensures Loadable(s) && Loaded(r.address, s) == Reload(r) <==> Storable(r)
  {
    IndexRestores(s.auctions, r.auctions, AuctionKey);
    IndexRestores(s.records, r.records, RecordKey);
    IndexRestores(s.prepared, r.prepared, PrepareKey);
    IndexRestores(s.aborted, r.aborted, DecisionKey);
    IndexRestores(s.pending, r.pending, PendingKey);
    if Keyed(r.auctions, AuctionKey) {
      LoadableIff(s, r.auctions);
    }
  }

  /** A sound replica survives any number of restarts with nothing lost. */
  lemma SoundIsStorable(r: State)
    requires LocalInvariant.Sound(r)
    ensures Storable(r)
  {
  }

  /** A prepared mutation comes back from the disk under its own key exactly when its id was trimmed. */
  lemma PrepareStaysStorableIff(r: State, m: Prepare, saved: bool)
    requires Storable(r) && OnPrepare(r, m, saved).0 != r
    ensures Storable(OnPrepare(r, m, saved).0) <==> Trimmed(m.requestId)
  {
  }

  lemma SavedIsReloaded(s: Snapshot, r: State)
    requires Saves(s, r)
    ensures Saves(s, Reload(r))
  {
  }
}
