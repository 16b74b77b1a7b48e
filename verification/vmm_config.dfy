/**
 * The rate-limiter configuration values of the VMM's public configuration layer
 * (src/vmm/src/vmm_config/mod.rs): the stateless description of one token bucket,
 * the pair of optional buckets that configures a rate limiter, the axis-by-axis
 * merge used for live reconfiguration, and the lowering of a configuration into
 * the call of the rate limiter's six-argument constructor.
 *
 * The live `TokenBucket` and `RateLimiter` belong to another crate; here they are
 * datatypes that record the arguments they are built from, and whether the
 * rate limiter's constructor succeeds is a predicate the caller supplies.
 */
module VmmConfig {
  import opened Wrappers

  /** Rust's `u64`. Nothing in this layer does arithmetic, so no wrap-around arises. */
  const U64_LIMIT: int := 0x1_0000_0000_0000_0000
  type u64 = x: int | 0 <= x < U64_LIMIT

  // ---------------------------------------------------------------------------
  // Token buckets
  // ---------------------------------------------------------------------------

  /**
   * `TokenBucketConfig`: capacity `size`, an optional one-time burst and the
   * refill time in milliseconds. No field is validated at this layer.
   */
  datatype TokenBucketConfig = TokenBucketConfig(size: u64, oneTimeBurst: Option<u64>, refillTime: u64)

  /** The derived `Default` of `TokenBucketConfig`: size 0, no burst, refill time 0. */
  function DefaultTokenBucketConfig(): (d: TokenBucketConfig)
    ensures d.size == 0 && d.oneTimeBurst == None && d.refillTime == 0
  {
    TokenBucketConfig(0, None, 0)
  }

  /** A live token bucket, recorded by the three arguments of `TokenBucket::new`. */
  datatype TokenBucket = TokenBucket(size: u64, oneTimeBurst: Option<u64>, refillTimeMs: u64)

  /** `Into<TokenBucket>`: builds the live bucket from the configuration's fields. */
  function IntoTokenBucket(config: TokenBucketConfig): (bucket: TokenBucket)
    ensures bucket.size == config.size
    ensures bucket.oneTimeBurst == config.oneTimeBurst
    ensures bucket.refillTimeMs == config.refillTime
  {
    TokenBucket(config.size, config.oneTimeBurst, config.refillTime)
  }

  /** Reads a live bucket's construction arguments back as a configuration. */
  function BucketConfigOf(bucket: TokenBucket): TokenBucketConfig {
    TokenBucketConfig(bucket.size, bucket.oneTimeBurst, bucket.refillTimeMs)
  }

  /** Converting to a live bucket loses nothing: the configuration can be read back. */
  lemma IntoTokenBucketRoundTrip(config: TokenBucketConfig)
    ensures BucketConfigOf(IntoTokenBucket(config)) == config
  {
  }

  /** Two configurations build the same live bucket exactly when they are equal. */
  lemma IntoTokenBucketInjective(c1: TokenBucketConfig, c2: TokenBucketConfig)
    ensures IntoTokenBucket(c1) == IntoTokenBucket(c2) <==> c1 == c2
  {
  }

  /** An absent burst and an explicit zero burst reach `TokenBucket::new` as different arguments. */
  lemma AbsentAndZeroBurstStayDistinct(size: u64, refillTime: u64)
    ensures IntoTokenBucket(TokenBucketConfig(size, None, refillTime)).oneTimeBurst == None
    ensures IntoTokenBucket(TokenBucketConfig(size, Some(0), refillTime)).oneTimeBurst == Some(0)
    ensures IntoTokenBucket(TokenBucketConfig(size, None, refillTime))
         != IntoTokenBucket(TokenBucketConfig(size, Some(0), refillTime))
  {
  }

  // ---------------------------------------------------------------------------
  // Rate limiters
  // ---------------------------------------------------------------------------

  /**
   * A live rate limiter, recorded by the six arguments of `RateLimiter::new`
   * in their order: the bandwidth bucket's size, one-time burst and refill
   * time, then the same three for the operations bucket.
   */
  datatype RateLimiter = RateLimiter(
    bandwidthSize: u64, bandwidthOneTimeBurst: Option<u64>, bandwidthRefillTimeMs: u64,
    opsSize: u64, opsOneTimeBurst: Option<u64>, opsRefillTimeMs: u64)
  {
    /** The first three constructor arguments, as a token bucket. */
    function BandwidthArgs(): TokenBucket {
      TokenBucket(bandwidthSize, bandwidthOneTimeBurst, bandwidthRefillTimeMs)
    }

    /** The last three constructor arguments, as a token bucket. */
    function OpsArgs(): TokenBucket {
      TokenBucket(opsSize, opsOneTimeBurst, opsRefillTimeMs)
    }
  }

  /** The I/O-class error `RateLimiter::new` reports when it cannot build the limiter. */
  datatype IoError = ConstructionFailed

  /**
   * The constructor call `try_into` makes: each axis is unwrapped, an absent
   * one as the default bucket, and the two triples are passed bandwidth first.
   */
  function NewLimiterCall(bandwidth: Option<TokenBucketConfig>, ops: Option<TokenBucketConfig>): (call: RateLimiter)
    ensures bandwidth.Some? ==> call.BandwidthArgs() == IntoTokenBucket(bandwidth.value)
    ensures bandwidth.None? ==> call.BandwidthArgs() == TokenBucket(0, None, 0)
    ensures ops.Some? ==> call.OpsArgs() == IntoTokenBucket(ops.value)
    ensures ops.None? ==> call.OpsArgs() == TokenBucket(0, None, 0)
  {
    var bw := bandwidth.UnwrapOr(DefaultTokenBucketConfig());
    var op := ops.UnwrapOr(DefaultTokenBucketConfig());
    RateLimiter(bw.size, bw.oneTimeBurst, bw.refillTime, op.size, op.oneTimeBurst, op.refillTime)
  }

  /** With both axes absent the constructor receives (0, None, 0, 0, None, 0). */
  lemma NewLimiterCallUnthrottled()
    ensures NewLimiterCall(None, None) == RateLimiter(0, None, 0, 0, None, 0)
  {
  }

  /** At the constructor boundary an absent axis is indistinguishable from an explicit default bucket. */
  lemma AbsentAxisIsDefaultBucket(bandwidth: Option<TokenBucketConfig>, ops: Option<TokenBucketConfig>)
    ensures NewLimiterCall(None, ops) == NewLimiterCall(Some(DefaultTokenBucketConfig()), ops)
    ensures NewLimiterCall(bandwidth, None) == NewLimiterCall(bandwidth, Some(DefaultTokenBucketConfig()))
  {
  }

  /**
   * Each axis reaches the constructor on its own: two configurations give the same
   * call exactly when they agree on each axis once absent axes are defaulted.
   */
  lemma NewLimiterCallAxesIndependent(b1: Option<TokenBucketConfig>, o1: Option<TokenBucketConfig>,
                                      b2: Option<TokenBucketConfig>, o2: Option<TokenBucketConfig>)
    ensures NewLimiterCall(b1, o1) == NewLimiterCall(b2, o2) <==>
            && b1.UnwrapOr(DefaultTokenBucketConfig()) == b2.UnwrapOr(DefaultTokenBucketConfig())
            && o1.UnwrapOr(DefaultTokenBucketConfig()) == o2.UnwrapOr(DefaultTokenBucketConfig())
  {
  }

  // ---------------------------------------------------------------------------
  // The update rule, one axis at a time
  // ---------------------------------------------------------------------------

  /** The merge rule of `update` for one axis: a supplied bucket replaces the current one. */
  function Overwrite(current: Option<TokenBucketConfig>, patch: Option<TokenBucketConfig>): (r: Option<TokenBucketConfig>)
    ensures patch.Some? ==> r == patch
    ensures patch.None? ==> r == current
  {
    if patch.Some? then patch else current
  }

  /** A supplied bucket replaces the current one whole: no field of the old bucket survives. */
  lemma OverwriteReplacesWholeBucket(current: Option<TokenBucketConfig>, bucket: TokenBucketConfig)
    ensures Overwrite(current, Some(bucket)) == Some(bucket)
  {
  }

  /** An absent patch leaves the axis as it was. */
  lemma OverwriteAbsentKeeps(current: Option<TokenBucketConfig>)
    ensures Overwrite(current, None) == current
  {
  }

  /** The axis is unchanged exactly when the patch is absent or supplies the bucket already there. */
  lemma OverwriteUnchangedIff(current: Option<TokenBucketConfig>, patch: Option<TokenBucketConfig>)
    ensures Overwrite(current, patch) == current <==> patch.None? || patch == current
  {
  }

  /** Applying the same patch twice is the same as applying it once. */
  lemma OverwriteIdempotent(current: Option<TokenBucketConfig>, patch: Option<TokenBucketConfig>)
    ensures Overwrite(Overwrite(current, patch), patch) == Overwrite(current, patch)
  {
  }

  /** Two successive patches act as one patch: the first updated by the second. */
  lemma OverwriteCompose(current: Option<TokenBucketConfig>, first: Option<TokenBucketConfig>, second: Option<TokenBucketConfig>)
    ensures Overwrite(Overwrite(current, first), second) == Overwrite(current, Overwrite(first, second))
  {
  }

  /** The axis after the patches are applied by successive `update` calls, first to last. */
  function OverwriteAll(current: Option<TokenBucketConfig>, patches: seq<Option<TokenBucketConfig>>): (r: Option<TokenBucketConfig>)
    ensures (forall i :: 0 <= i < |patches| ==> patches[i].None?) ==> r == current
    ensures r == current || exists i :: 0 <= i < |patches| && patches[i].Some? && patches[i] == r
    decreases |patches|
  {
    if patches == [] then current else OverwriteAll(Overwrite(current, patches[0]), patches[1..])
  }

  /** The latest of `patches` that supplies a bucket, or `None` when none does. */
  function LastSupplied(patches: seq<Option<TokenBucketConfig>>): (r: Option<TokenBucketConfig>)
    ensures r.None? <==> forall i :: 0 <= i < |patches| ==> patches[i].None?
    ensures r.Some? ==> exists i :: 0 <= i < |patches| && patches[i] == r && NoneAfter(patches, i)
  {
    if patches == [] then None
    else if patches[|patches| - 1].Some? then patches[|patches| - 1]
    else LastSupplied(patches[..|patches| - 1])
  }

  /** No patch after position `i` supplies a bucket. */
  predicate NoneAfter(patches: seq<Option<TokenBucketConfig>>, i: nat) {
    forall j :: i < j < |patches| ==> patches[j].None?
  }

  /** Scanning from the end agrees with patching the first element by the rest. */
  lemma LastSuppliedFront(patches: seq<Option<TokenBucketConfig>>)
    requires |patches| > 0
    ensures LastSupplied(patches) == Overwrite(patches[0], LastSupplied(patches[1..]))
  {
  }

  /**
   * Repeated updates: after any sequence of patches, the axis holds the bucket of
   * the latest patch that supplied one, or its original value if none did.
   */
  lemma {:induction false} UpdatesLastWriterWins(current: Option<TokenBucketConfig>, patches: seq<Option<TokenBucketConfig>>)
    ensures OverwriteAll(current, patches) == Overwrite(current, LastSupplied(patches))
    decreases |patches|
  {
    if patches != [] {
      UpdatesLastWriterWins(Overwrite(current, patches[0]), patches[1..]);
      LastSuppliedFront(patches);
      OverwriteCompose(current, patches[0], LastSupplied(patches[1..]));
    }
  }

  // ---------------------------------------------------------------------------
  // The configuration object
  // ---------------------------------------------------------------------------

  /**
   * `RateLimiterConfig`: an optional bandwidth bucket and an optional operations
   * bucket; an absent axis is unthrottled. `update` changes the fields in place.
   */
  class RateLimiterConfig {
    var bandwidth: Option<TokenBucketConfig>
    var ops: Option<TokenBucketConfig>

    /** The derived `Default`: both axes absent. */
    constructor Default()
      ensures bandwidth == None && ops == None
    {
      bandwidth := None;
      ops := None;
    }

    /** A configuration with the given axes. */
    constructor (bandwidth: Option<TokenBucketConfig>, ops: Option<TokenBucketConfig>)
      ensures this.bandwidth == bandwidth && this.ops == ops
    {
      this.bandwidth := bandwidth;
      this.ops := ops;
    }

    /**
     * `update`: merges `newConfig` in, axis by axis; each axis follows `Overwrite`
     * and depends only on its own old value and its own patch. The patch is not changed.
     */
    method Update(newConfig: RateLimiterConfig)
      modifies this
      ensures bandwidth == Overwrite(old(bandwidth), old(newConfig.bandwidth))
      ensures ops == Overwrite(old(ops), old(newConfig.ops))
      ensures newConfig.bandwidth == old(newConfig.bandwidth) && newConfig.ops == old(newConfig.ops)
    {
      if newConfig.bandwidth.Some? {
        bandwidth := newConfig.bandwidth;
      }
      if newConfig.ops.Some? {
        ops := newConfig.ops;
      }
    }

    /**
     * `try_into`: calls the rate limiter's constructor, whose success is decided by
     * `accepts`; the configuration itself is left as it is.
     */
    function TryInto(accepts: RateLimiter -> bool): (r: Result<RateLimiter, IoError>)
      reads this
      ensures r.Ok? <==> accepts(NewLimiterCall(bandwidth, ops))
      ensures r.Ok? ==> r.value.BandwidthArgs() == IntoTokenBucket(bandwidth.UnwrapOr(DefaultTokenBucketConfig()))
      ensures r.Ok? ==> r.value.OpsArgs() == IntoTokenBucket(ops.UnwrapOr(DefaultTokenBucketConfig()))
    {
      var call := NewLimiterCall(bandwidth, ops);
      if accepts(call) then Ok(call) else Err(ConstructionFailed)
    }
  }

  /** Updating twice with the same patch leaves the configuration as one update does. */
  method UpdateTwiceIsUpdateOnce(config: RateLimiterConfig, patch: RateLimiterConfig)
    modifies config
    ensures config.bandwidth == Overwrite(old(config.bandwidth), old(patch.bandwidth))
    ensures config.ops == Overwrite(old(config.ops), old(patch.ops))
  {
    config.Update(patch);
    config.Update(patch);
  }

  /** Updating with the default configuration, both axes absent, changes nothing. */
  method UpdateWithDefaultKeeps(config: RateLimiterConfig)
    modifies config
    ensures config.bandwidth == old(config.bandwidth) && config.ops == old(config.ops)
  {
    var patch := new RateLimiterConfig.Default();
    config.Update(patch);
  }

  // ---------------------------------------------------------------------------
  // The unit test's scenario
  // ---------------------------------------------------------------------------

  const SIZE: u64 := 1024 * 1024
  const ONE_TIME_BURST: u64 := 1024
  const REFILL_TIME: u64 := 1000

  /**
   * Converts a bucket, converts a two-axis configuration, then updates it with a
   * patch that supplies only a bandwidth bucket: bandwidth takes the new bucket
   * and the operations bucket is kept.
   */
  method RateLimiterConfigsScenario(accepts: RateLimiter -> bool)
    returns (bucket: TokenBucket, limiter: Result<RateLimiter, IoError>,
             bandwidth: Option<TokenBucketConfig>, ops: Option<TokenBucketConfig>)
    requires accepts(RateLimiter(SIZE, Some(ONE_TIME_BURST), REFILL_TIME, SIZE * 2, None, REFILL_TIME * 2))
    ensures bucket.size == SIZE && bucket.oneTimeBurst == Some(ONE_TIME_BURST) && bucket.refillTimeMs == REFILL_TIME
    ensures limiter.Ok?
    ensures limiter.value.BandwidthArgs() == TokenBucket(SIZE, Some(ONE_TIME_BURST), REFILL_TIME)
    ensures limiter.value.OpsArgs() == TokenBucket(SIZE * 2, None, REFILL_TIME * 2)
    ensures bandwidth == Some(TokenBucketConfig(SIZE * 2, Some(ONE_TIME_BURST * 2), REFILL_TIME * 2))
    ensures ops == Some(TokenBucketConfig(SIZE * 2, None, REFILL_TIME * 2))
  {
    bucket := IntoTokenBucket(TokenBucketConfig(SIZE, Some(ONE_TIME_BURST), REFILL_TIME));
    var rlconf := new RateLimiterConfig(
      Some(TokenBucketConfig(SIZE, Some(ONE_TIME_BURST), REFILL_TIME)),
      Some(TokenBucketConfig(SIZE * 2, None, REFILL_TIME * 2)));
    limiter := rlconf.TryInto(accepts);
    var patch := new RateLimiterConfig(
      Some(TokenBucketConfig(SIZE * 2, Some(ONE_TIME_BURST * 2), REFILL_TIME * 2)),
      None);
    rlconf.Update(patch);
    bandwidth, ops := rlconf.bandwidth, rlconf.ops;
  }
}
