/**
 * Sharding configuration: the wire form, its in-memory form, and the lookup of
 * the shard that owns a partition key (sharding_config.go).
 */
module ShardingConfig {
  import opened Basics
  import opened HashKeys

  datatype ShardDefinition = ShardDefinition(shardId: string, startingHashKey: seq<byte>, endingHashKey: seq<byte>)

  /** A configuration as the server sends it: shard definitions in any order. */
  type Config = seq<ShardDefinition>

  datatype Shard = Shard(shardID: string, startingHashKey: nat, endingHashKey: nat, origin: ShardDefinition)

  datatype ConfigError = StartAfterEnd | Overlap

  function InMemory(d: ShardDefinition): Shard {
    Shard(d.shardId, SetBytes(d.startingHashKey), SetBytes(d.endingHashKey), d)
  }

  predicate Contains(s: Shard, key: nat) {
    s.startingHashKey <= key <= s.endingHashKey
  }

  /** MD5 is any total function from partition keys to digests. */
  function PartitionKeyToHashKey(md5: string -> Digest, partitionKey: string): nat {
    SetBytes(md5(partitionKey))
  }

  predicate BelongsToShard(md5: string -> Digest, s: Shard, partitionKey: string) {
    Contains(s, PartitionKeyToHashKey(md5, partitionKey))
  }

  // ---------- what a usable configuration is ----------

  predicate WellOrdered(d: ShardDefinition) {
    SetBytes(d.startingHashKey) <= SetBytes(d.endingHashKey)
  }

  predicate AllWellOrdered(config: Config) {
    forall i | 0 <= i < |config| :: WellOrdered(config[i])
  }

  /** The closed ranges of two shards have no key in common. */
  ghost predicate DisjointRanges(a: Shard, b: Shard) {
    forall key: nat :: !(Contains(a, key) && Contains(b, key))
  }

  ghost predicate PairwiseDisjoint(shards: seq<Shard>) {
    forall i, j | 0 <= i < j < |shards| :: DisjointRanges(shards[i], shards[j])
  }

  /** Every range is well ordered and no key lies in two of them. */
  ghost predicate Acceptable(config: Config) {
    && AllWellOrdered(config)
    && PairwiseDisjoint(Map(config, InMemory))
  }

  // ---------- sorting ----------

  predicate SortedByStart(shards: seq<Shard>) {
    forall i, j | 0 <= i < j < |shards| :: shards[i].startingHashKey <= shards[j].startingHashKey
  }

  predicate NonEmptyRanges(shards: seq<Shard>) {
    forall i | 0 <= i < |shards| :: shards[i].startingHashKey <= shards[i].endingHashKey
  }

  /** Ascending ranges with no overlap, each of them non-empty. */
  predicate Ascending(shards: seq<Shard>) {
    && NonEmptyRanges(shards)
    && (forall i, j | 0 <= i < j < |shards| :: shards[i].endingHashKey < shards[j].startingHashKey)
  }

  /** byStartingHashKey.Less and Swap. */
  predicate Less(a: Shard, b: Shard) {
    a.startingHashKey < b.startingHashKey
  }

  method Swap(a: array<Shard>, i: nat, j: nat)
    requires i < j < a.Length
    modifies a
    ensures a[..] == old(a[..][i := a[j]][j := a[i]])
    ensures multiset(a[..]) == multiset(old(a[..]))
  {
    a[i], a[j] := a[j], a[i];
  }

  /** Sorted once the element at position k is left out. */
  predicate SortedExcept(shards: seq<Shard>, k: nat) {
    forall i, j | 0 <= i < j < |shards| && i != k && j != k :: shards[i].startingHashKey <= shards[j].startingHashKey
  }

  /** Moves the last element of a[..n + 1] down to its place among the sorted ones before it. */
  method SiftDown(a: array<Shard>, n: nat)
    requires n < a.Length && SortedByStart(a[..n])
    modifies a
    ensures SortedByStart(a[..n + 1])
    ensures multiset(a[..]) == multiset(old(a[..]))
  {
    var k := n;
    while k > 0 && Less(a[k], a[k - 1])
      invariant 0 <= k <= n
      invariant SortedExcept(a[..n + 1], k)
      invariant forall j | k < j <= n :: a[k].startingHashKey <= a[j].startingHashKey
      invariant multiset(a[..]) == multiset(old(a[..]))
    {
      ghost var before := a[..n + 1];
      Swap(a, k - 1, k);
      assert a[..n + 1] == before[k - 1 := before[k]][k := before[k - 1]];
      k := k - 1;
    }
    SettledIsSorted(a[..n + 1], k);
  }

  lemma SettledIsSorted(shards: seq<Shard>, k: nat)
    requires k < |shards| && SortedExcept(shards, k)
    requires k > 0 ==> shards[k - 1].startingHashKey <= shards[k].startingHashKey
    requires forall j | k < j < |shards| :: shards[k].startingHashKey <= shards[j].startingHashKey
    ensures SortedByStart(shards)
  {
    forall i, j | 0 <= i < j < |shards| ensures shards[i].startingHashKey <= shards[j].startingHashKey {
      if j == k && i < k - 1 {
        assert shards[i].startingHashKey <= shards[k - 1].startingHashKey;
      }
    }
  }

  /**
   * An in-place sort built only from Less and Swap. Like sort.Sort it promises
   * order and a permutation, and no more.
   */
  method SortShards(a: array<Shard>)
    modifies a
    ensures SortedByStart(a[..])
    ensures multiset(a[..]) == multiset(old(a[..]))
  {
    for n := 0 to a.Length
      invariant SortedByStart(a[..n])
      invariant multiset(a[..]) == multiset(old(a[..]))
    {
      SiftDown(a, n);
    }
    assert a[..a.Length] == a[..];
  }

  // ---------- the adjacent-pair check ----------

  predicate NoAdjacentOverlap(shards: seq<Shard>) {
    forall i | 0 < i < |shards| :: shards[i - 1].endingHashKey < shards[i].startingHashKey
  }

  lemma {:induction false} AdjacentImpliesAll(shards: seq<Shard>, i: nat, j: nat)
    requires NonEmptyRanges(shards)
    requires NoAdjacentOverlap(shards) && i < j < |shards|
    ensures shards[i].endingHashKey < shards[j].startingHashKey
    decreases j
  {
    if i < j - 1 {
      AdjacentImpliesAll(shards, i, j - 1);
      assert shards[j - 1] in shards;
    }
  }

  /** After sorting by start, checking neighbours decides disjointness of all pairs. */
  lemma AdjacentCheckIsComplete(shards: seq<Shard>)
    requires NonEmptyRanges(shards)
    requires SortedByStart(shards)
    ensures NoAdjacentOverlap(shards) <==> PairwiseDisjoint(shards)
    ensures NoAdjacentOverlap(shards) <==> Ascending(shards)
  {
    if NoAdjacentOverlap(shards) {
      forall i, j | 0 <= i < j < |shards| ensures shards[i].endingHashKey < shards[j].startingHashKey {
        AdjacentImpliesAll(shards, i, j);
      }
    }
    if PairwiseDisjoint(shards) {
      forall i | 0 < i < |shards| ensures shards[i - 1].endingHashKey < shards[i].startingHashKey {
        var a, b := shards[i - 1], shards[i];
        assert a in shards && b in shards;
        assert DisjointRanges(a, b) && Contains(b, b.startingHashKey);
      }
    }
  }

  // ---------- order of definitions does not matter ----------

  /** Pairwise disjointness depends on the multiset of non-empty ranges only. */
  lemma DisjointnessIgnoresOrder(xs: seq<Shard>, ys: seq<Shard>)
    requires multiset(xs) == multiset(ys) && PairwiseDisjoint(xs)
    requires NonEmptyRanges(xs)
    ensures PairwiseDisjoint(ys)
  {
    forall i, j | 0 <= i < j < |ys| ensures DisjointRanges(ys[i], ys[j]) {
      var p, q := TwoPlacesInPermutation(ys, xs, i, j);
      assert DisjointRanges(xs[if p < q then p else q], xs[if p < q then q else p]);
    }
  }

  lemma HeadIsLeast(xs: seq<Shard>, i: nat)
    requires Ascending(xs) && i < |xs|
    ensures xs[0].startingHashKey <= xs[i].startingHashKey
    ensures xs[0].startingHashKey == xs[i].startingHashKey ==> i == 0
  {
  }

  lemma AscendingHead(xs: seq<Shard>, ys: seq<Shard>)
    requires multiset(xs) == multiset(ys) && Ascending(xs) && Ascending(ys)
    requires xs != [] && ys != []
    ensures xs[0] == ys[0]
  {
    var i := PlaceInPermutation(xs, ys, 0);
    var j := PlaceInPermutation(ys, xs, 0);
    HeadIsLeast(ys, i);
    HeadIsLeast(xs, j);
  }

  /** A multiset of shards has at most one ascending arrangement. */
  lemma {:induction false} AscendingIsUnique(xs: seq<Shard>, ys: seq<Shard>)
    requires multiset(xs) == multiset(ys) && Ascending(xs) && Ascending(ys)
    ensures xs == ys
  {
    assert |xs| == |multiset(xs)| == |multiset(ys)| == |ys|;
    if xs != [] {
      AscendingHead(xs, ys);
      HeadTailMultiset(xs);
      HeadTailMultiset(ys);
      AscendingIsUnique(xs[1..], ys[1..]);
    }
  }

  lemma {:induction false} MapPreservesMultiset(xs: seq<ShardDefinition>, ys: seq<ShardDefinition>)
    requires multiset(xs) == multiset(ys)
    ensures multiset(Map(xs, InMemory)) == multiset(Map(ys, InMemory))
  {
    assert |xs| == |multiset(xs)| == |multiset(ys)| == |ys|;
    if xs != [] {
      var i := PlaceInPermutation(xs, ys, 0);
      assert RemoveAt(xs, 0) == xs[1..];
      MapPreservesMultiset(xs[1..], RemoveAt(ys, i));
      MapSplit(xs, 0);
      MapSplit(ys, i);
    }
  }

  lemma MapSplit(xs: seq<ShardDefinition>, i: nat)
    requires i < |xs|
    ensures multiset(Map(xs, InMemory)) == multiset(Map(RemoveAt(xs, i), InMemory)) + multiset{InMemory(xs[i])}
  {
    var fx := Map(xs, InMemory);
    assert Map(RemoveAt(xs, i), InMemory) == RemoveAt(fx, i);
    RemoveAtMultiset(fx, i);
    assert fx[i] in multiset(fx);
  }

  // ---------- the specification of newShardingInMemConfig ----------

  function Insert(s: Shard, sorted: seq<Shard>): seq<Shard> {
    if sorted == [] || s.startingHashKey <= sorted[0].startingHashKey then [s] + sorted
    else [sorted[0]] + Insert(s, sorted[1..])
  }

  function Sorted(shards: seq<Shard>): seq<Shard> {
    if shards == [] then [] else Insert(shards[0], Sorted(shards[1..]))
  }

  lemma {:induction false} InsertSorts(s: Shard, sorted: seq<Shard>)
    requires SortedByStart(sorted)
    ensures SortedByStart(Insert(s, sorted))
    ensures multiset(Insert(s, sorted)) == multiset{s} + multiset(sorted)
  {
    if sorted != [] && s.startingHashKey > sorted[0].startingHashKey {
      InsertSorts(s, sorted[1..]);
      assert sorted == [sorted[0]] + sorted[1..];
      SmallestFirst(sorted[0], s, sorted[1..], Insert(s, sorted[1..]));
    }
  }

  /** Putting an element no larger than any other in front keeps the order. */
  lemma SmallestFirst(head: Shard, s: Shard, rest: seq<Shard>, r: seq<Shard>)
    requires SortedByStart([head] + rest) && head.startingHashKey <= s.startingHashKey
    requires SortedByStart(r) && multiset(r) == multiset{s} + multiset(rest)
    ensures SortedByStart([head] + r)
  {
    forall j | 0 <= j < |r| ensures head.startingHashKey <= r[j].startingHashKey {
      assert r[j] in multiset(r);
      if r[j] != s {
        var i :| 0 <= i < |rest| && rest[i] == r[j];
        assert ([head] + rest)[0] == head && ([head] + rest)[i + 1] == rest[i];
      }
    }
  }

  lemma {:induction false} SortedSorts(shards: seq<Shard>)
    ensures SortedByStart(Sorted(shards)) && multiset(Sorted(shards)) == multiset(shards)
  {
    if shards != [] {
      SortedSorts(shards[1..]);
      InsertSorts(shards[0], Sorted(shards[1..]));
      assert shards == [shards[0]] + shards[1..];
    }
  }

  predicate Accepts(config: Config) {
    && AllWellOrdered(config)
    && NoAdjacentOverlap(Sorted(Map(config, InMemory)))
  }

  function NewConfig(config: Config): Result<seq<Shard>, ConfigError> {
    if !AllWellOrdered(config) then Err(StartAfterEnd)
    else if Accepts(config) then Ok(Sorted(Map(config, InMemory)))
    else Err(Overlap)
  }

  /** Accepted exactly when every range is well ordered and no two share a key. */
  lemma NewConfigAcceptsExactly(config: Config)
    ensures NewConfig(config).Ok? <==> Acceptable(config)
    ensures NewConfig(config) == Err(StartAfterEnd) <==> !AllWellOrdered(config)
    ensures NewConfig(config).Ok? ==>
      && Ascending(NewConfig(config).value)
      && multiset(NewConfig(config).value) == multiset(Map(config, InMemory))
  {
    if AllWellOrdered(config) {
      var shards := Map(config, InMemory);
      SortedSorts(shards);
      PermutationKeepsRanges(shards, Sorted(shards));
      AdjacentCheckIsComplete(Sorted(shards));
      if PairwiseDisjoint(shards) { DisjointnessIgnoresOrder(shards, Sorted(shards)); }
      if PairwiseDisjoint(Sorted(shards)) { DisjointnessIgnoresOrder(Sorted(shards), shards); }
    }
  }

  lemma PermutationKeepsRanges(xs: seq<Shard>, ys: seq<Shard>)
    requires multiset(xs) == multiset(ys)
    requires NonEmptyRanges(xs)
    ensures NonEmptyRanges(ys)
  {
    forall i | 0 <= i < |ys| ensures ys[i].startingHashKey <= ys[i].endingHashKey {
      var j := PlaceInPermutation(ys, xs, i);
    }
  }

  lemma PermutationKeepsOrder(c1: Config, c2: Config)
    requires multiset(c1) == multiset(c2) && AllWellOrdered(c1)
    ensures AllWellOrdered(c2)
  {
    forall i | 0 <= i < |c2| ensures WellOrdered(c2[i]) {
      var j := PlaceInPermutation(c2, c1, i);
    }
  }

  /** Permuting the definitions changes neither the verdict nor the shard list. */
  lemma OrderOfDefinitionsIsIrrelevant(c1: Config, c2: Config)
    requires multiset(c1) == multiset(c2)
    ensures NewConfig(c1) == NewConfig(c2)
  {
    NewConfigAcceptsExactly(c1);
    NewConfigAcceptsExactly(c2);
    MapPreservesMultiset(c1, c2);
    if AllWellOrdered(c1) { PermutationKeepsOrder(c1, c2); }
    if AllWellOrdered(c2) { PermutationKeepsOrder(c2, c1); }
    if AllWellOrdered(c1) {
      var s1, s2 := Map(c1, InMemory), Map(c2, InMemory);
      if PairwiseDisjoint(s1) { DisjointnessIgnoresOrder(s1, s2); }
      if PairwiseDisjoint(s2) { DisjointnessIgnoresOrder(s2, s1); }
      if NewConfig(c1).Ok? {
        AscendingIsUnique(NewConfig(c1).value, NewConfig(c2).value);
      }
    }
  }

  /** However the list was sorted, the neighbour check gives the verdict and the list of NewConfig. */
  lemma AnySortGivesTheSameConfig(config: Config, sorted: seq<Shard>)
    requires AllWellOrdered(config)
    requires SortedByStart(sorted) && multiset(sorted) == multiset(Map(config, InMemory))
    ensures NewConfig(config) == if NoAdjacentOverlap(sorted) then Ok(sorted) else Err(Overlap)
  {
    var shards := Map(config, InMemory);
    NewConfigAcceptsExactly(config);
    PermutationKeepsRanges(shards, sorted);
    AdjacentCheckIsComplete(sorted);
    if NoAdjacentOverlap(sorted) {
      DisjointnessIgnoresOrder(sorted, shards);
      AscendingIsUnique(sorted, NewConfig(config).value);
    } else if Acceptable(config) {
      DisjointnessIgnoresOrder(shards, sorted);
    }
  }

  method CheckNeighbours(a: array<Shard>) returns (ok: bool)
    ensures ok == NoAdjacentOverlap(a[..])
  {
    for i := 0 to a.Length
      invariant forall k | 0 < k < i :: a[k - 1].endingHashKey < a[k].startingHashKey
    {
      if i > 0 && a[i - 1].endingHashKey >= a[i].startingHashKey {
        return false;
      }
    }
    return true;
  }

  /** newShardingInMemConfig: parse, sort in place, reject neighbours that overlap. */
  method NewShardingInMemConfig(config: Config) returns (r: Result<seq<Shard>, ConfigError>)
    ensures r == NewConfig(config)
    ensures r.Ok? <==> Acceptable(config)
    ensures r.Ok? ==> Ascending(r.value) && multiset(r.value) == multiset(Map(config, InMemory))
  {
    NewConfigAcceptsExactly(config);
    var shards: seq<Shard> := [];
    for i := 0 to |config|
      invariant AllWellOrdered(config[..i])
      invariant shards == Map(config[..i], InMemory)
    {
      var shard := InMemory(config[i]);
      if shard.startingHashKey > shard.endingHashKey {
        return Err(StartAfterEnd);
      }
      assert config[..i + 1] == config[..i] + [config[i]];
      shards := shards + [shard];
    }
    assert config[..|config|] == config;

    var a := new Shard[|shards|](i requires 0 <= i < |shards| => shards[i]);
    assert a[..] == shards;
    SortShards(a);
    AnySortGivesTheSameConfig(config, a[..]);
    var ok := CheckNeighbours(a);
    return if ok then Ok(a[..]) else Err(Overlap);
  }

  // ---------- finding the owner of a key ----------

  /** The linear scan of getShardEncoder: the first shard that contains the key. */
  function FindShard(shards: seq<Shard>, key: nat): Option<nat> {
    if shards == [] then None
    else if Contains(shards[0], key) then Some(0)
    else match FindShard(shards[1..], key) case None => None case Some(i) => Some(i + 1)
  }

  lemma {:induction false} FindShardFinds(shards: seq<Shard>, key: nat)
    ensures match FindShard(shards, key)
            case Some(i) => i < |shards| && Contains(shards[i], key)
                         && forall j | 0 <= j < i :: !Contains(shards[j], key)
            case None => forall s <- shards :: !Contains(s, key)
  {
    if shards != [] && !Contains(shards[0], key) {
      FindShardFinds(shards[1..], key);
    }
  }

  /**
   * The lookup of a partition key, with the digest written out: the first shard
   * whose range holds the big-endian value of all 16 bytes of it.
   */
  lemma KeyIsLookedUpByDigest(shards: seq<Shard>, md5: string -> Digest, partitionKey: string)
    ensures match FindShard(shards, PartitionKeyToHashKey(md5, partitionKey))
            case Some(i) =>
              && i < |shards|
              && shards[i].startingHashKey <= SetBytes(md5(partitionKey)) <= shards[i].endingHashKey
              && (forall j | 0 <= j < i ::
                    !(shards[j].startingHashKey <= SetBytes(md5(partitionKey)) <= shards[j].endingHashKey))
            case None =>
              forall s <- shards :: !(s.startingHashKey <= SetBytes(md5(partitionKey)) <= s.endingHashKey)
  {
    FindShardFinds(shards, PartitionKeyToHashKey(md5, partitionKey));
  }

  /** In an accepted list the owner is unique: the scan finds i exactly when i contains the key. */
  lemma OwnerIsUnique(shards: seq<Shard>, key: nat, i: nat)
    requires Ascending(shards) && i < |shards|
    ensures FindShard(shards, key) == Some(i) <==> Contains(shards[i], key)
  {
    FindShardFinds(shards, key);
    if Contains(shards[i], key) {
      assert shards[i] in shards;
    }
  }

  /** The binary search that the source proposes in place of the scan. */
  function BinarySearch(shards: seq<Shard>, key: nat, lo: nat, hi: nat): Option<nat>
    requires lo <= hi <= |shards|
    decreases hi - lo
  {
    if lo == hi then None
    else
      var mid := (lo + hi) / 2;
      if key < shards[mid].startingHashKey then BinarySearch(shards, key, lo, mid)
      else if shards[mid].endingHashKey < key then BinarySearch(shards, key, mid + 1, hi)
      else Some(mid)
  }

  lemma {:induction false} BinarySearchFinds(shards: seq<Shard>, key: nat, lo: nat, hi: nat)
    requires Ascending(shards) && lo <= hi <= |shards|
    ensures match BinarySearch(shards, key, lo, hi)
            case Some(i) => lo <= i < hi && Contains(shards[i], key)
            case None => forall j | lo <= j < hi :: !Contains(shards[j], key)
    decreases hi - lo
  {
    if lo < hi {
      var mid := (lo + hi) / 2;
      assert forall j | lo <= j < hi :: shards[j] in shards;
      if key < shards[mid].startingHashKey {
        BinarySearchFinds(shards, key, lo, mid);
      } else if shards[mid].endingHashKey < key {
        BinarySearchFinds(shards, key, mid + 1, hi);
      }
    }
  }

  lemma ScanEqualsBinarySearch(shards: seq<Shard>, key: nat)
    requires Ascending(shards)
    ensures FindShard(shards, key) == BinarySearch(shards, key, 0, |shards|)
  {
    BinarySearchFinds(shards, key, 0, |shards|);
    FindShardFinds(shards, key);
    match BinarySearch(shards, key, 0, |shards|)
    case Some(i) => OwnerIsUnique(shards, key, i);
    case None =>
  }

  // ---------- the server's view of a shard ----------

  predicate SameDefinition(a: ShardDefinition, b: ShardDefinition) {
    a.shardId == b.shardId && a.startingHashKey == b.startingHashKey && a.endingHashKey == b.endingHashKey
  }

  /** shardIsPartOfConfig: same id and same range bytes as one of the definitions. */
  predicate ShardIsPartOfConfig(shard: ShardDefinition, config: Config) {
    exists d <- config :: SameDefinition(d, shard)
  }

  /**
   * The server compares ids and bytes, the client works with numbers: they
   * agree on two definitions up to leading zeros in the bytes, and with minimal
   * encodings entirely.
   */
  lemma ServerComparesExactly(a: ShardDefinition, b: ShardDefinition)
    ensures SameDefinition(a, b) <==>
      && InMemory(a).(origin := b) == InMemory(b)
      && |a.startingHashKey| == |b.startingHashKey| && |a.endingHashKey| == |b.endingHashKey|
    ensures Minimal(a.startingHashKey) && Minimal(a.endingHashKey) && Minimal(b.startingHashKey)
      && Minimal(b.endingHashKey)
      ==> (SameDefinition(a, b) <==> InMemory(a).(origin := b) == InMemory(b))
  {
    if InMemory(a).(origin := b) == InMemory(b) {
      SameKeySameBytesExactly(a.startingHashKey, b.startingHashKey);
      SameKeySameBytesExactly(a.endingHashKey, b.endingHashKey);
      SetBytesRoundTrip(a.startingHashKey);
      SetBytesRoundTrip(a.endingHashKey);
      SetBytesRoundTrip(b.startingHashKey);
      SetBytesRoundTrip(b.endingHashKey);
    }
  }
}
