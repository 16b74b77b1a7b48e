# Rate-limiter configuration of the VMM configuration layer

This project models the rate-limiter configuration values that the virtual-machine
monitor's public configuration layer defines in `src/vmm/src/vmm_config/mod.rs`:

- `TokenBucketConfig` is one token bucket's description. It has a capacity `size`,
  an optional `one_time_burst` and a `refill_time` in milliseconds, all `u64`.
  Its derived `Default` is `(0, None, 0)`. Its `Into<TokenBucket>` conversion passes
  the three fields to `TokenBucket::new` unchanged.
- `RateLimiterConfig` pairs an optional `bandwidth` bucket with an optional `ops`
  bucket. Its derived `Default` has both axes absent.
- `RateLimiterConfig::update` merges a patch in place, one axis at a time. An axis the
  patch supplies replaces the current bucket whole. An axis the patch leaves absent
  stays as it was.
- `try_into` lowers the configuration to the six-argument `RateLimiter::new` call. The
  bandwidth triple comes first, then the ops triple. An absent axis contributes the
  default bucket `(0, None, 0)`.

The files are:

- `wrappers.dfy` (module `Wrappers`): `Option` and `Result`.
- `vmm_config.dfy` (module `VmmConfig`): the model.

`RateLimiterConfig` is a class, because `update` assigns its fields in place.
The per-axis merge rule is the function `Overwrite`, and `Update`'s postcondition
says each field is `Overwrite` of its own old value and its own patch.
The live `TokenBucket` and `RateLimiter` belong to another crate.
Here they are datatypes that record their constructor arguments.
Whether `RateLimiter::new` succeeds is the caller-supplied predicate `accepts`.
Its failure becomes the error `ConstructionFailed`.

## Model

| member | source | states |
|---|---|---|
| `VmmConfig.DefaultTokenBucketConfig` | src/vmm/src/vmm_config/mod.rs:43-51 | the derived default bucket has size 0, no one-time burst and refill time 0 |
| `VmmConfig.IntoTokenBucket` | src/vmm/src/vmm_config/mod.rs:53-57 | the live bucket is built from exactly the configuration's size, one-time burst and refill time |
| `VmmConfig.IntoTokenBucketRoundTrip` | src/vmm/src/vmm_config/mod.rs:53-57 | the configuration can be read back from the live bucket's construction arguments: nothing is lost |
| `VmmConfig.IntoTokenBucketInjective` | src/vmm/src/vmm_config/mod.rs:53-57 | two configurations give the same live bucket if and only if they are equal |
| `VmmConfig.AbsentAndZeroBurstStayDistinct` | src/vmm/src/vmm_config/mod.rs:159-167 | a `None` burst and a `Some(0)` burst reach `TokenBucket::new` as different arguments |
| `VmmConfig.NewLimiterCall` | src/vmm/src/vmm_config/mod.rs:86-95 | the first three constructor arguments are the bandwidth bucket's size, burst and refill time, and the last three are the ops bucket's; an absent axis gives `(0, None, 0)` |
| `VmmConfig.NewLimiterCallUnthrottled` | src/vmm/src/vmm_config/mod.rs:86-95 | with both axes absent the constructor receives `(0, None, 0, 0, None, 0)` |
| `VmmConfig.AbsentAxisIsDefaultBucket` | src/vmm/src/vmm_config/mod.rs:86-87 | because each axis is unwrapped with `unwrap_or_default`, an absent axis reaches the constructor the same as an explicit `TokenBucketConfig::default()` (the derived default of mod.rs:43) |
| `VmmConfig.NewLimiterCallAxesIndependent` | src/vmm/src/vmm_config/mod.rs:85-96 | two configurations produce the same constructor call if and only if they agree on each axis once absent axes are defaulted |
| `VmmConfig.RateLimiterConfig.TryInto` | src/vmm/src/vmm_config/mod.rs:82-97 | conversion succeeds exactly when the constructor accepts the lowered call; on success the constructor's first three arguments are the bandwidth bucket's fields and its last three the ops bucket's, each as `Into` would pass them, with `(0, None, 0)` for an absent axis |
| `VmmConfig.RateLimiterConfig.Update` | src/vmm/src/vmm_config/mod.rs:72-79 | each field becomes `Overwrite` of its own old value and its own patch, so each axis depends only on itself; the patch is not changed |
| `VmmConfig.RateLimiterConfig.Default` | src/vmm/src/vmm_config/mod.rs:61-68 | the derived default has both axes absent |
| `VmmConfig.RateLimiterConfig.constructor` | src/vmm/src/vmm_config/mod.rs:169-180 | a configuration built from a struct literal holds exactly the given bandwidth and ops axes |
| `VmmConfig.UpdateTwiceIsUpdateOnce` | src/vmm/src/vmm_config/mod.rs:72-79 | calling `update` twice with the same patch leaves the configuration as a single call does |
| `VmmConfig.UpdateWithDefaultKeeps` | src/vmm/src/vmm_config/mod.rs:72-79 | calling `update` with `RateLimiterConfig::default()` leaves both axes as they were |
| `VmmConfig.Overwrite` | src/vmm/src/vmm_config/mod.rs:73-78 | the per-axis rule of `update`: a supplied patch is the new value, an absent patch keeps the current value |
| `VmmConfig.OverwriteReplacesWholeBucket` | src/vmm/src/vmm_config/mod.rs:73-75 | a supplied bucket replaces the current one whole, with no field-level merge |
| `VmmConfig.OverwriteAbsentKeeps` | src/vmm/src/vmm_config/mod.rs:73-78 | an absent patch leaves the axis unchanged |
| `VmmConfig.OverwriteUnchangedIff` | src/vmm/src/vmm_config/mod.rs:73-78 | an axis is unchanged if and only if its patch is absent or supplies the bucket already there |
| `VmmConfig.OverwriteIdempotent` | src/vmm/src/vmm_config/mod.rs:72-79 | applying the same patch twice gives what applying it once gives |
| `VmmConfig.OverwriteCompose` | src/vmm/src/vmm_config/mod.rs:72-79 | two successive updates act as one update whose patch is the first patch updated by the second |
| `VmmConfig.OverwriteAll` | src/vmm/src/vmm_config/mod.rs:72-79 | the axis after successive `update` calls: its original value when no patch supplies a bucket, and in every case either the original value or a bucket some patch supplied |
| `VmmConfig.LastSupplied` | src/vmm/src/vmm_config/mod.rs:73-78 | the latest patch that supplies a bucket: `None` exactly when no patch supplies one, otherwise one of the patches with no supplying patch after it |
| `VmmConfig.LastSuppliedFront` | src/vmm/src/vmm_config/mod.rs:73-78 | scanning the patches from the end agrees with patching the first by the latest of the rest |
| `VmmConfig.UpdatesLastWriterWins` | src/vmm/src/vmm_config/mod.rs:72-79 | after any sequence of updates an axis holds the bucket of the latest patch that supplied one, or its original value if none did |
| `VmmConfig.RateLimiterConfigsScenario` | src/vmm/src/vmm_config/mod.rs:154-206 | the unit test's conversion, lowering and update: bandwidth takes the patch's bucket and `ops` keeps its old bucket |

## Left out

- `Writer` (src/vmm/src/vmm_config/mod.rs:101-143): it opens a FIFO with `O_NONBLOCK`, guards a `LineWriter` with a `Mutex` and recovers from lock poisoning. That is file I/O and concurrency, outside what the model can express.
- What `TokenBucket::new` and `RateLimiter::new` do with their arguments (refill timing, token accounting, timer file descriptors) is not part of this model. They are in another crate. The live objects only record their arguments.
- `RateLimiterConfig.TryInto`: whether `RateLimiter::new` fails is not modelled. It is the parameter `accepts`, and its `io::Error` is the single value `ConstructionFailed`.
- `RateLimiterConfigsScenario`: the test also reads `one_time_burst() == 0` back from a live bucket built with no burst (src/vmm/src/vmm_config/mod.rs:186). That is the other crate's behaviour. The model keeps the `Option` argument instead.
- Deserialization with serde, including `deny_unknown_fields`, is not modelled. That code is generated by a library.
- The submodules declared at src/vmm/src/vmm_config/mod.rs:16-30 (boot source, drives, network, vsock and others) are not part of this model.
- `u64` is a bounded subset of `int`. The core does no arithmetic, so no wrap-around is modelled.
- Rust's borrow rules keep the patch of `update` distinct from the receiver. The model does not require this: `Update` is correct even when the two alias.
