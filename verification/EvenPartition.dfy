/**
 * The even partition of the hash-key space into a given number of shards
 * (createTestShardConfig in encoder_test.go).
 */
module EvenPartition {
  import opened Basics
  import opened HashKeys
  import opened ShardingConfig

  function Itoa(n: nat): string {
    if n < 10 then ["0123456789"[n]] else Itoa(n / 10) + ["0123456789"[n % 10]]
  }

  /** The last key of shard i of n; key 0 for i = 0. */
  function LastKey(i: nat, n: nat): nat
    requires n >= 1
  {
    MAX_HASH_KEY * i / n
  }

  function FirstKey(i: nat, n: nat): nat
    requires 1 <= i && n >= 1
  {
    if i == 1 then 0 else LastKey(i - 1, n) + 1
  }

  function EvenShard(i: nat, n: nat): ShardDefinition
    requires 1 <= i && n >= 1
  {
    ShardDefinition("shard#" + Itoa(i), Bytes(FirstKey(i, n)), Bytes(LastKey(i, n)))
  }

  function EvenConfig(n: nat): Config
    requires n >= 1
  {
    seq(n, k requires 0 <= k < n => EvenShard(k + 1, n))
  }

  /** The builder loop. It ends on the largest key, as its final check demands. */
  method CreateTestShardConfig(shardCount: nat) returns (cfg: Config)
    requires shardCount >= 1
    ensures cfg == EvenConfig(shardCount)
    ensures SetBytes(cfg[shardCount - 1].endingHashKey) == MAX_HASH_KEY
  {
    hide Bytes, Itoa, SetBytes;
    cfg := [];
    var prevHashKey, hashKey := 0, 0;
    for i := 1 to shardCount + 1
      invariant |cfg| == i - 1
      invariant forall k | 0 <= k < i - 1 :: cfg[k] == EvenShard(k + 1, shardCount)
      invariant prevHashKey == FirstKey(i, shardCount)
      invariant i > 1 ==> hashKey == LastKey(i - 1, shardCount)
    {
      hashKey := MAX_HASH_KEY;
      hashKey := hashKey * i;
      hashKey := hashKey / shardCount;
      assert hashKey == LastKey(i, shardCount);
      cfg := cfg + [ShardDefinition("shard#" + Itoa(i), Bytes(prevHashKey), Bytes(hashKey))];
      prevHashKey := hashKey;
      prevHashKey := prevHashKey + 1;
    }
    assert cfg == EvenConfig(shardCount);
    BytesRoundTrip(LastKey(shardCount, shardCount));
    EndsOnLargestKey(shardCount);
  }

  lemma EndsOnLargestKey(n: nat)
    requires n >= 1
    ensures LastKey(n, n) == MAX_HASH_KEY
  {
    DivUnique(MAX_HASH_KEY * n, n, MAX_HASH_KEY);
  }

  lemma DivUnique(a: int, n: int, q: int)
    requires n >= 1 && q * n <= a < (q + 1) * n
    ensures a / n == q
  {
    var p := a / n;
    assert a == p * n + a % n;
    MulMonotone(p + 1, q, n);
    MulMonotone(q + 1, p, n);
  }

  lemma DivBounds(a: int, n: int)
    requires n >= 1
    ensures a / n * n <= a < (a / n + 1) * n
  {
    assert a == n * (a / n) + a % n;
  }

  /** With no more shards than keys, every shard ends above its predecessor. */
  lemma LastKeyGrows(i: nat, n: nat)
    requires 1 <= i && n >= 1 && i < n <= MAX_HASH_KEY + 1
    ensures LastKey(i, n) < LastKey(i + 1, n)
  {
    var m := MAX_HASH_KEY;
    if n <= m {
      DivBounds(m * i, n);
      DivBounds(m * (i + 1), n);
      var p, q := m * i / n, m * (i + 1) / n;
      assert m * (i + 1) == m * i + m;
      assert (q + 1) * n == q * n + n;
      MulMonotone(q, p, n);
    } else {
      // As many shards as keys: shard i is the single key i - 1.
      assert m * i == (i - 1) * n + (n - i) && m * (i + 1) == i * n + (n - i - 1);
      DivUnique(m * i, n, i - 1);
      DivUnique(m * (i + 1), n, i);
    }
  }

  lemma {:induction false} LastKeyClimbs(i: nat, n: nat)
    requires n >= 1 && 1 <= i <= n
    requires forall j | 1 <= j < n :: LastKey(j, n) < LastKey(j + 1, n)
    ensures LastKey(i, n) >= i - 1
  {
    if i > 1 {
      LastKeyClimbs(i - 1, n);
      assert LastKey(i - 1, n) < LastKey(i - 1 + 1, n);
    }
  }

  lemma EvenShardRange(k: nat, n: nat)
    requires k < n
    ensures InMemory(EvenConfig(n)[k]).startingHashKey == FirstKey(k + 1, n)
    ensures InMemory(EvenConfig(n)[k]).endingHashKey == LastKey(k + 1, n)
  {
    BytesRoundTrip(FirstKey(k + 1, n));
    BytesRoundTrip(LastKey(k + 1, n));
  }

  lemma EvenShardsAscend(n: nat)
    requires 1 <= n <= MAX_HASH_KEY + 1
    ensures Ascending(Map(EvenConfig(n), InMemory))
  {
    var shards := Map(EvenConfig(n), InMemory);
    forall k | 0 <= k < n ensures shards[k].startingHashKey <= shards[k].endingHashKey {
      EvenShardRange(k, n);
      if k > 0 { LastKeyGrows(k, n); }
    }
    forall k | 0 < k < n ensures shards[k - 1].endingHashKey < shards[k].startingHashKey {
      EvenShardRange(k - 1, n);
      EvenShardRange(k, n);
    }
    forall i, j | 0 <= i < j < n ensures shards[i].endingHashKey < shards[j].startingHashKey {
      AdjacentImpliesAll(shards, i, j);
    }
  }

  /**
   * The even configuration is accepted exactly when there are no more shards
   * than keys. With one shard more, some shard would be empty.
   */
  lemma EvenConfigAccepted(n: nat)
    requires n >= 1
    ensures NewConfig(EvenConfig(n)).Ok? <==> n <= MAX_HASH_KEY + 1
    ensures n <= MAX_HASH_KEY + 1 ==> NewConfig(EvenConfig(n)).value == Map(EvenConfig(n), InMemory)
  {
    var c := EvenConfig(n);
    NewConfigAcceptsExactly(c);
    if n <= MAX_HASH_KEY + 1 {
      EvenShardsAscend(n);
      var shards := Map(c, InMemory);
      assert forall i | 0 <= i < n :: shards[i] == InMemory(c[i]);
      assert AllWellOrdered(c);
      assert SortedByStart(shards);
      AnySortGivesTheSameConfig(c, shards);
    } else if AllWellOrdered(c) {
      forall j | 1 <= j < n ensures LastKey(j, n) < LastKey(j + 1, n) {
        EvenShardRange(j, n);
        assert WellOrdered(c[j]);
      }
      LastKeyClimbs(n, n);
      EndsOnLargestKey(n);
    }
  }

  lemma {:induction false} EvenShardsCover(key: nat, i: nat, n: nat) returns (k: nat)
    requires 1 <= i <= n && key <= LastKey(i, n)
    ensures k < i && FirstKey(k + 1, n) <= key <= LastKey(k + 1, n)
  {
    if i == 1 || LastKey(i - 1, n) < key {
      k := i - 1;
    } else {
      k := EvenShardsCover(key, i - 1, n);
    }
  }

  /** No gaps and no overlaps: every digest belongs to exactly one of the shards, and the scan finds it. */
  lemma EveryKeyHasOneShard(n: nat, md5: string -> Digest, partitionKey: string)
    requires 1 <= n <= MAX_HASH_KEY + 1
    ensures NewConfig(EvenConfig(n)).Ok?
    ensures var shards := NewConfig(EvenConfig(n)).value;
      var owner := FindShard(shards, PartitionKeyToHashKey(md5, partitionKey));
      && owner.Some? && owner.value < n
      && SetBytes(EvenConfig(n)[owner.value].startingHashKey) <= SetBytes(md5(partitionKey))
         <= SetBytes(EvenConfig(n)[owner.value].endingHashKey)
      && forall j | 0 <= j < |shards| :: BelongsToShard(md5, shards[j], partitionKey) <==> owner == Some(j)
  {
    EvenConfigAccepted(n);
    EvenShardsAscend(n);
    var shards := NewConfig(EvenConfig(n)).value;
    var key := PartitionKeyToHashKey(md5, partitionKey);
    DigestInKeySpace(md5(partitionKey));
    EndsOnLargestKey(n);
    var k := EvenShardsCover(key, n, n);
    EvenShardRange(k, n);
    forall j | 0 <= j < |shards| ensures Contains(shards[j], key) <==> FindShard(shards, key) == Some(j) {
      OwnerIsUnique(shards, key, j);
    }
    KeyIsLookedUpByDigest(shards, md5, partitionKey);
    assert shards[k] == InMemory(EvenConfig(n)[k]);
  }

  // ---------- evenness ----------

  /** How many keys shard i of n holds. */
  function Width(i: nat, n: nat): int
    requires 1 <= i && n >= 1
  {
    SetBytes(EvenShard(i, n).endingHashKey) - SetBytes(EvenShard(i, n).startingHashKey) + 1
  }

  lemma WidthIsEven(i: nat, n: nat)
    requires 1 <= i <= n
    ensures MAX_HASH_KEY / n <= Width(i, n) <= MAX_HASH_KEY / n + 1
  {
    var m := MAX_HASH_KEY;
    BytesRoundTrip(FirstKey(i, n));
    BytesRoundTrip(LastKey(i, n));
    hide Bytes, SetBytes, Itoa;
    DivBounds(m, n);
    DivBounds(m * i, n);
    DivBounds(m * (i - 1), n);
    var q, p, r := m / n, m * (i - 1) / n, m * i / n;
    assert m * i == m * (i - 1) + m;
    SumOfQuotients(m * (i - 1), m, n);
    if i == 1 { assert m * 0 == 0 && m * 1 == m; }
  }

  lemma SumOfQuotients(a: int, b: int, n: int)
    requires n >= 1
    ensures a / n + b / n <= (a + b) / n <= a / n + b / n + 1
  {
    DivBounds(a, n);
    DivBounds(b, n);
    DivBounds(a + b, n);
    var p, q, r := a / n, b / n, (a + b) / n;
    assert (p + 1) * n == p * n + n && (q + 1) * n == q * n + n && (r + 1) * n == r * n + n;
    assert (p + q) * n == p * n + q * n && (p + q + 2) * n == p * n + q * n + 2 * n;
    MulMonotone(r + 1, p + q, n);
    MulMonotone(p + q + 2, r, n);
  }

  lemma {:induction false} ItoaIsInjective(a: nat, b: nat)
    ensures Itoa(a) == Itoa(b) ==> a == b
    decreases a
  {
    ItoaNonEmpty(a);
    ItoaNonEmpty(b);
    if Itoa(a) == Itoa(b) {
      LastDigit(a);
      LastDigit(b);
      DigitsDiffer(a % 10, b % 10);
      if a >= 10 && b >= 10 {
        assert Itoa(a / 10) == Itoa(a)[..|Itoa(a)| - 1] && Itoa(b / 10) == Itoa(b)[..|Itoa(b)| - 1];
        ItoaIsInjective(a / 10, b / 10);
      } else if a >= 10 {
        ItoaNonEmpty(a / 10);
      } else if b >= 10 {
        ItoaNonEmpty(b / 10);
      }
    }
  }

  lemma ItoaNonEmpty(n: nat)
    ensures Itoa(n) != []
  {
  }

  lemma LastDigit(n: nat)
    ensures Itoa(n) != [] && Itoa(n)[|Itoa(n)| - 1] == "0123456789"[n % 10]
  {
  }

  lemma DigitsDiffer(i: nat, j: nat)
    requires i < 10 && j < 10 && "0123456789"[i] == "0123456789"[j]
    ensures i == j
  {
  }

  lemma SameIdSameShard(i: nat, j: nat, n: nat)
    requires i < n && j < n && EvenConfig(n)[i].shardId == EvenConfig(n)[j].shardId
    ensures i == j
  {
    hide Bytes;
    var c := EvenConfig(n);
    assert c[i].shardId[6..] == Itoa(i + 1) && c[j].shardId[6..] == Itoa(j + 1);
    hide Itoa;
    ItoaIsInjective(i + 1, j + 1);
  }

  lemma ShardWidth(i: nat, n: nat)
    requires i < n
    ensures EvenConfig(n)[i] == EvenShard(i + 1, n)
  {
    hide EvenShard;
  }

  /** Any two shards differ by at most one key, and no two carry the same id. */
  lemma PartitionIsEven(i: nat, j: nat, n: nat)
    requires i < n && j < n
    ensures var c := EvenConfig(n);
      && -1 <= (SetBytes(c[i].endingHashKey) - SetBytes(c[i].startingHashKey))
             - (SetBytes(c[j].endingHashKey) - SetBytes(c[j].startingHashKey)) <= 1
      && (c[i].shardId == c[j].shardId ==> i == j)
  {
    WidthIsEven(i + 1, n);
    WidthIsEven(j + 1, n);
    ShardWidth(i, n);
    ShardWidth(j, n);
    if EvenConfig(n)[i].shardId == EvenConfig(n)[j].shardId { SameIdSameShard(i, j, n); }
    hide EvenShard, SetBytes, EvenConfig;
  }
}
