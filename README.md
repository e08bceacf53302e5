# OmniForge core, modelled in Dafny

OmniForge deploys and scales containerised applications. This project models
the parts of it that decide or compute something, and proves properties of
them:

- **The instance-count autoscaler** (`autoscaling.dfy`, module `AutoScaling`) computes a target number of instances. It starts from the current metric windows:
  - CPU and RAM load are an average blended with a peak;
  - response time is an average;
  - client load is measured against fleet capacity;
  - two historical trends are added.
  
  It combines six weighted factors into a score and maps the score onto a four-band multiplier. It then rounds, enforces a minimum step of a fifth of the fleet, and clamps to the configured bounds. A cooldown veto sits in front of all of it. The autoscaler is a record (`datatype AutoScaler`) because, outside the test at src/autoscalar/old_mod.rs:343, the source only ever reads its fields.
- **The threshold-action autoscaler** (`threshold_scaler.dfy`, module `ThresholdScaler`):
  - `DecideAll` maps optional integer metrics to one action per resource;
  - `ExampleScaler.Scale` changes an `AppInstance`'s allocations in place;
  - the `Reallocate*` methods overwrite one metric field each.
- **Docker image names** (`image_builder.dfy`, module `ImageBuilder`): character-level sanitising, and the `name-devcontainer:version` reference.
- **The deployment tool** (`deployment.dfy`, module `Deployment`):
  - the command-line parser, as a loop proved equal to a recursive specification;
  - the loop that splits hosts into masters and workers.
- **The state service** (`state_api.dfy`, module `StateApi`):
  - the versioned key-value table behind the HTTP API, a map held by the `StateManager` class;
  - the mapping of its errors to HTTP responses;
  - a replay semantics for sequences of writes and deletions.

`common.dfy` holds the `Option` and `Result` types.

Modelling conventions:
- `f64` arithmetic is exact `real` arithmetic.
- The `u32`/`u64`/`i64` counters are unbounded `nat`/`int`.
- The wall clock is a `now` parameter, in whole seconds.
- The argument list is an explicit `seq<string>`.
- The SQLite table is a `map` from key to record.

### Behaviour of the source worth knowing

- **Minimum step.** `bound_instances` (src/autoscalar/old_mod.rs:264-280) first moves by at least a fifth of the fleet, as its comment "Minimum 20% change" (line 265) says. It then clamps to `[min_instances, max_instances]` (lines 268 and 271), so the move can end up shorter than that minimum. `AutoScaling.ClampShortensStep` gives an example, and `AutoScaling.AutoScaler.BoundInstances` states the exact clamped move.
- **last_scale_time.** Outside the test at src/autoscalar/old_mod.rs:343, which assigns it directly to leave the cooldown, `last_scale_time` is set only by `AutoScaler::new` (src/autoscalar/old_mod.rs:74). `AutoScaling.HighLoadScenarioScalesUp` takes that assigned time as its `last` parameter. `calculate_target_instances` takes `&self` and never updates it. So the model's `TargetInstances` is a function of the record and changes nothing, and the cooldown is measured from construction.
- **Cooldown.** The cooldown compares whole minutes. `num_minutes()` truncates toward zero, as `AutoScaling.WholeMinutes` states.

## Model

| member | source | states |
|---|---|---|
| AutoScaling.DefaultConfig | src/autoscalar/old_mod.rs:48-61 | The default configuration is well formed: 1 ≤ min ≤ max, positive thresholds, and non-negative factors. Its scale-up factor exceeds 1.5 and its scale-down factor is below 1. |
| AutoScaling.Peak | src/autoscalar/old_mod.rs:119 | The max-fold from 0 is non-negative, at least every sample, and is either 0 or one of the samples. |
| AutoScaling.FoldMax | src/autoscalar/old_mod.rs:119 | A max-fold is at least its start and every element, and equals the start or an element. |
| AutoScaling.AsReals | src/autoscalar/old_mod.rs:163 | Converting client counts to reals keeps the length and every value. |
| AutoScaling.SumWithin | src/autoscalar/old_mod.rs:118 | The sum of samples in [lo, hi] lies between n·lo and n·hi. |
| AutoScaling.SumAbove | src/autoscalar/old_mod.rs:118 | The sum of a non-empty window strictly above lo exceeds n·lo. |
| AutoScaling.MeanWithin | src/autoscalar/old_mod.rs:118 | The average of samples in [lo, hi] lies in [lo, hi]. |
| AutoScaling.MeanAbove | src/autoscalar/old_mod.rs:118 | The average of samples all above lo is above lo. |
| AutoScaling.MeanConstant | src/autoscalar/old_mod.rs:142 | The average of a constant window is that constant. |
| AutoScaling.SumAsReals | src/autoscalar/old_mod.rs:162-163 | Summing counts as integers and then converting equals summing the converted counts. |
| AutoScaling.ClampUnit | src/autoscalar/old_mod.rs:194 | The clamp to [-1, 1] lands in [-1, 1] and leaves values already there unchanged. |
| AutoScaling.RecentMean | src/autoscalar/old_mod.rs:183-186 | The mean of the newest 144 samples. |
| AutoScaling.OldMean | src/autoscalar/old_mod.rs:188-192 | The mean of the 144 samples just before the newest 144. |
| AutoScaling.Trend | src/autoscalar/old_mod.rs:178-200 | The trend is in [-1, 1]. It is exactly 0 with fewer than 288 samples. Otherwise it is (recent − old)/old when that lies in [-1, 1], 1 above, and −1 below. With a positive older mean: it is positive iff the newest 144 average more than the 144 before them, zero iff they are equal, and 1 iff the newest at least double the older. |
| AutoScaling.TrendRatio | src/autoscalar/old_mod.rs:194 | The clamped relative change lies in [-1, 1]: it is (recent − old)/old when that lies in [-1, 1], 1 above, and −1 below. Against a positive baseline it has the sign of the difference and saturates at 1 exactly from double. |
| AutoScaling.RelativeChangeSigns | src/autoscalar/old_mod.rs:194 | Against a positive baseline, (recent − old)/old has the sign of recent − old, and is ≥ 1 iff recent ≥ 2·old. |
| AutoScaling.CountTrend | src/autoscalar/old_mod.rs:202-224 | The client trend is in [-1, 1] and is 0 with fewer than 288 samples. |
| AutoScaling.CountTrendAgrees | src/autoscalar/old_mod.rs:202-224 | The integer-summing client trend equals the real trend of the same samples, and is defined whenever it is. |
| AutoScaling.PositiveHistoryHasTrend | src/autoscalar/old_mod.rs:190-194 | With all samples positive, the older mean is positive, so the trend's division is defined. |
| AutoScaling.PositiveCountsHaveTrend | src/autoscalar/old_mod.rs:214-218 | With all client counts positive, the client trend's division is defined. |
| AutoScaling.WeightsSumToOne | src/autoscalar/old_mod.rs:235-246 | The six weights are positive and sum to exactly 1.0. |
| AutoScaling.Combined | src/autoscalar/old_mod.rs:235-246 | With all four factors 1.0 and both trends 0, the weighted score is exactly 1.0. |
| AutoScaling.CombinedWithin | src/autoscalar/old_mod.rs:235-246 | The score is a convex combination: if every factor, and 1 + each trend, lies in [lo, hi], so does the score. |
| AutoScaling.CombinedMonotone | src/autoscalar/old_mod.rs:235-246 | Raising any factor or trend never lowers the score. |
| AutoScaling.BandMultiplier | src/autoscalar/old_mod.rs:248-256 | The multiplier is the scale-up factor above 1.2, 1.5 in (1.0, 1.2], the scale-down factor below 0.6, and 1.0 in [0.6, 1.0]. |
| AutoScaling.BandDirection | src/autoscalar/old_mod.rs:248-256 | With up > 1 > down: the multiplier grows the fleet iff the score exceeds 1.0, shrinks it iff the score is below 0.6, and holds iff the score is in [0.6, 1.0]. |
| AutoScaling.BandMonotone | src/autoscalar/old_mod.rs:248-256 | With up ≥ 1.5 and down ≤ 1, a higher score never gives a smaller multiplier. |
| AutoScaling.Round | src/autoscalar/old_mod.rs:104 | For x ≥ 0, rounding gives the integer r with r ≤ x + 0.5 < r + 1. |
| AutoScaling.Ceil | src/autoscalar/old_mod.rs:265 | The ceiling is the least integer not below x. |
| AutoScaling.MinChange | src/autoscalar/old_mod.rs:265-271 | The minimum step ceil(current·0.2) equals (current+4)/5. It never exceeds current, so a decrease cannot underflow. It is at least 1 for a non-empty fleet. |
| AutoScaling.Clamp | src/autoscalar/old_mod.rs:268-271 | The clamp lands in [lo, hi], keeps values inside, and maps values below to lo and above to hi. |
| AutoScaling.WholeMinutes | src/autoscalar/old_mod.rs:83 | Whole minutes truncate toward zero for both signs of the elapsed time. |
| AutoScaling.AutoScaler.LoadFactor | src/autoscalar/old_mod.rs:113-135 | An empty window gives exactly 1.0. Otherwise the factor exceeds 1.5 iff the 0.6·avg + 0.4·peak blend exceeds 1.0, and is the blend itself when it does not, and 1.5 times the blend when it does. The factor never lies in (1.0, 1.5]. |
| AutoScaling.AutoScaler.WeightedLoad | src/autoscalar/old_mod.rs:118-124 | The 0.6·avg + 0.4·peak blend, normalised by the threshold, is never below the normalised average (the peak is at least the average). |
| AutoScaling.MeanAtMostPeak | src/autoscalar/old_mod.rs:118-119 | The average of a window never exceeds its peak, the max-fold from 0. |
| AutoScaling.AutoScaler.InCooldown | src/autoscalar/old_mod.rs:83 | For a clock that has not gone back, the cooldown holds iff fewer than 60·cooldown_minutes seconds have passed. A clock that has gone back is always in a non-zero cooldown. |
| AutoScaling.AutoScaler.ResponseTimeFactor | src/autoscalar/old_mod.rs:137-155 | An empty window gives exactly 1.0. Otherwise the factor exceeds 1.3 iff the average exceeds the threshold, is avg/threshold when it does not, and 1.3·avg/threshold when it does. The factor never lies in (1.0, 1.3]. |
| AutoScaling.AutoScaler.ClientUtilisation | src/autoscalar/old_mod.rs:162-164 | Average clients per unit of fleet capacity is non-negative. |
| AutoScaling.AutoScaler.ClientLoadFactor | src/autoscalar/old_mod.rs:157-176 | An empty window gives exactly 1.0 and the factor is never negative. Otherwise it exceeds 1.12 iff utilisation exceeds 0.8, is the utilisation when it does not, is 1.4 times the utilisation when it does, and never lies in (0.8, 1.12]. |
| AutoScaling.AutoScaler.ScalingFactor | src/autoscalar/old_mod.rs:226-262 | The factor is the band multiplier of the weighted score, and neutral inputs give 1.0 (hold). |
| AutoScaling.AutoScaler.BoundInstances | src/autoscalar/old_mod.rs:264-280 | A target equal to current returns current. A growing target gives clamp(max(target, current + minimum step), min, max). A shrinking target gives clamp(min(target, current − minimum step), min, max). So a changed result lies in [min, max], and the move is at least the minimum step unless the clamp stops it. |
| AutoScaling.AutoScaler.Decide | src/autoscalar/old_mod.rs:88-110 | The evaluation outside the cooldown changes the fleet only to a size within [min, max]. |
| AutoScaling.AutoScaler.TargetInstances | src/autoscalar/old_mod.rs:78-111 | During the cooldown the current count is returned whatever the metrics and whatever the configuration, valid or not. Any change happens outside the cooldown and lands in [min, max]. |
| AutoScaling.EmptyWindowsAreNeutral | src/autoscalar/old_mod.rs:113-160 | Empty CPU/RAM, response-time and client windows each give a factor of exactly 1.0. |
| AutoScaling.LoadAtOrUnderThreshold | src/autoscalar/old_mod.rs:118-129 | Samples all within [0, threshold] give a load factor of at most 1.0 (no amplification). |
| AutoScaling.LoadOverThreshold | src/autoscalar/old_mod.rs:118-129 | Samples all above the threshold give a load factor above 1.5. |
| AutoScaling.NeutralInputsHold | src/autoscalar/old_mod.rs:78-111 | With empty current windows and histories too short for a trend, the target is the current count. |
| AutoScaling.SumCountsConstant | src/autoscalar/old_mod.rs:162-163 | n copies of c sum to n·c. |
| AutoScaling.PeakConstant | src/autoscalar/old_mod.rs:119 | The peak of a constant non-negative window is that constant. |
| AutoScaling.ConstantFactors | src/autoscalar/old_mod.rs:118-149 | For a constant window the load factor is c/t·1.5 above the threshold, and the response-time factor is c/threshold at or under it. |
| AutoScaling.HighLoadScenarioScalesUp | src/autoscalar/old_mod.rs:289-352 | The source's test scenario (4 instances; 20 readings of cpu 90, ram 85, 95 clients and 450 ms; defined trends; cooldown elapsed) yields 8 instances, so more than 4. |
| AutoScaling.ScoreAboveBandDoubles | src/autoscalar/old_mod.rs:95-105 | Under the default configuration with 4 instances, a score above 1.2 gives exactly 8. |
| AutoScaling.ClampShortensStep | src/autoscalar/old_mod.rs:264-280 | With max 11, 10 instances asked to grow to 20 become 11, although the minimum step is 2. |
| ThresholdScaler.InstanceMetrics.GetFields | src/autoscalar/mod.rs:60-70 | Seven pairs whose names are the field names in declaration order ("disk_bandwith" last), and whose values rebuild exactly the original metrics. |
| ThresholdScaler.FieldNamesDistinct | src/autoscalar/mod.rs:60-70 | The seven reported names are pairwise distinct. |
| ThresholdScaler.AutoscalerThresholds.DecideAll | src/autoscalar/mod.rs:112-142 | The keys are exactly CPU, RAM, Clients and ResponseTime. CPU: ScaleUp iff the load is above its threshold, ScaleDown iff below half of it (integer division), else NoAction. RAM, judged on ram_usage: ScaleUp or ScaleLeft by the same rule. Clients and response time: ScaleRight iff strictly above the threshold, else NoAction. |
| ThresholdScaler.DecideMonotone | src/autoscalar/mod.rs:115-126 | A higher CPU load or RAM usage never yields a smaller action. |
| ThresholdScaler.DecideIgnoresUnreadMetrics | src/autoscalar/mod.rs:112-142 | ram_pressure, network_latency and disk_bandwidth never affect the decision. |
| ThresholdScaler.ExampleRunDecisions | src/autoscalar/mod.rs:331-345 | The source's example metrics give CPU NoAction, RAM ScaleUp, and Clients and ResponseTime ScaleRight. |
| ThresholdScaler.SaturatingSub | src/autoscalar/mod.rs:266-270 | Saturating subtraction is the difference when it is non-negative, and 0 otherwise. |
| ThresholdScaler.Scaled | src/autoscalar/mod.rs:259-278 | ScaleUp adds 10 CPU and 1024 MB. ScaleDown subtracts them, saturating at 0. ScaleLeft lowers only the disk bandwidth by 10, saturating. ScaleRight raises only the network bandwidth by 10. NoAction changes nothing. |
| ThresholdScaler.ScaleDownUndoesScaleUp | src/autoscalar/mod.rs:261-268 | Scaling down after scaling up restores the allocations. |
| ThresholdScaler.ScaleUpUndoesScaleDownIff | src/autoscalar/mod.rs:261-268 | Scaling up after scaling down restores the allocations iff neither subtraction saturated. |
| ThresholdScaler.LowRamShrinksDiskNotMemory | src/autoscalar/mod.rs:122-126 | Low RAM usage yields ScaleLeft, which leaves memory as it was and lowers disk bandwidth. |
| ThresholdScaler.AppInstance.constructor | src/autoscalar/mod.rs:160-167 | A new instance holds the given state and allocations. |
| ThresholdScaler.ExampleScaler.constructor | src/autoscalar/mod.rs:243-245 | A new scaler holds the given metrics. |
| ThresholdScaler.ExampleScaler.Scale | src/autoscalar/mod.rs:259-278 | The instance's allocations become Scaled(old allocations, action), its state is unchanged, and the result is Success. |
| ThresholdScaler.ExampleScaler.ReallocateMemory | src/autoscalar/mod.rs:296-302 | Only ram_usage changes, to Some(megabytes). |
| ThresholdScaler.ExampleScaler.ReallocateCpu | src/autoscalar/mod.rs:304-310 | Only cpu_load changes, to Some(percentage). |
| ThresholdScaler.ExampleScaler.ReallocateDiskBandwidth | src/autoscalar/mod.rs:312-318 | Only disk_bandwidth changes, to Some(value). |
| ThresholdScaler.ExampleScaler.ReallocateNetworkBandwidth | src/autoscalar/mod.rs:320-326 | Only network_latency changes, to Some(value), as the source writes. |
| ThresholdScaler.ReallocationVisibleInFields | src/autoscalar/mod.rs:60-70 | Each reallocation changes exactly one reported (name, value) pair. |
| ImageBuilder.ToLower | src/image_builder/mod.rs:71 | ASCII capitals map to the letter 32 code points later, and every other character is unchanged. |
| ImageBuilder.SanitizeChar | src/image_builder/mod.rs:71-76 | Allowed characters pass through, ASCII capitals become lowercase, everything else becomes '-', and the result is always allowed. |
| ImageBuilder.Sanitize | src/image_builder/mod.rs:68-78 | The output has the input's length, maps each character by SanitizeChar, and contains only a-z, 0-9, '.', '_' and '-'. |
| ImageBuilder.SanitizeIdempotent | src/image_builder/mod.rs:68-78 | Sanitising twice equals sanitising once. |
| ImageBuilder.SanitizeFixedIff | src/image_builder/mod.rs:68-78 | A name is left unchanged iff all its characters are already allowed. |
| ImageBuilder.SanitizeAppend | src/image_builder/mod.rs:68-78 | Sanitising distributes over concatenation. |
| ImageBuilder.VersionOf | src/image_builder/mod.rs:59-63 | The configured version when there is one, and "latest" otherwise. |
| ImageBuilder.GenerateImageName | src/image_builder/mod.rs:41-66 | It errs, with the fixed message, iff neither a configured name nor a parent directory exists. Otherwise it gives sanitize(name) + "-devcontainer:" + version, where the name is the configured one if present, and the version defaults to "latest". |
| ImageBuilder.ColonIndex | src/image_builder/mod.rs:65 | The position of the first ':' or the length. No earlier character is a colon. |
| ImageBuilder.SplitAtFirstColon | src/image_builder/mod.rs:65 | A colon-free prefix joined to a tag by ':' splits back into that prefix and tag. |
| ImageBuilder.ImageNameSplits | src/image_builder/mod.rs:41-78 | A generated reference splits into the repository sanitize(base) + "-devcontainer", which is a valid Docker name, and the tag version. |
| Deployment.ParseFrom | src/deployment/mod.rs:137-161 | An error is one of the two missing-value messages. A successful parse takes the config and the command from what was set so far or from a later argument. |
| Deployment.Parse | src/deployment/mod.rs:129-163 | An error is one of the two missing-value messages. The config is "config.json" or an argument after the program name, and a command, when there is one, is an argument after the program name. |
| Deployment.ParseArgs | src/deployment/mod.rs:129-163 | The while loop returns exactly the recursive parse of the argument list. |
| Deployment.ParseProgramNameOnly | src/_old.rs:9-12 | With only the program name, the result is config "config.json" and no command. |
| Deployment.ParseIgnoresArgZero | src/deployment/mod.rs:131-135 | Argument 0 never influences the result. |
| Deployment.ParseFromSameTail | src/_old.rs:13-38 | Two argument lists that agree after position 0 parse alike from any position ≥ 1. |
| Deployment.ParseFromAppend | src/_old.rs:13-38 | A successful parse stops at the end of its list: appended arguments continue from the state it reached. |
| Deployment.ParseAppendConfig | src/deployment/mod.rs:137-141 | A config flag with a value at the end sets the config, overriding earlier ones (the last one wins). |
| Deployment.ParseAppendCommand | src/_old.rs:23-26 | A command flag with a value at the end sets the command, overriding earlier positionals or flags. |
| Deployment.ParseAppendPositional | src/deployment/mod.rs:153-157 | A positional argument sets the command only if none is set yet (the first one wins). |
| Deployment.ParseTrailingFlag | src/deployment/mod.rs:141-151 | A final -c or -x without a value is the matching missing-value error. |
| Deployment.NumMasters | src/ssh.rs:140 | ceil(0.2·n) equals (n+4)/5. |
| Deployment.NumWorkers | src/ssh.rs:141 | floor(0.8·n) equals 4n/5. |
| Deployment.RolesCoverHosts | src/deployment/mod.rs:174-176 | The two counts add up to n. There are never more masters than hosts, and at least one for n > 0. |
| Deployment.Partition | src/deployment/mod.rs:171-187 | The masters are the first min(ceil(0.2n), n) hosts in order. The workers are the hosts at the following indices up to min(ceil(0.2n)+floor(0.8n), n), in order. |
| Deployment.PartitionIsExact | src/ssh.rs:136-151 | Masters followed by workers is exactly the host list, so no host is in both and none is left out. The counts are ceil(0.2n) and floor(0.8n), and both lists are empty for n = 0. |
| StateApi.ErrorText | src/api/mod.rs:37-46 | Only a missing key's text starts with "Key not found: ", and the rest of it is the key. |
| StateApi.IntoResponse | src/api/mod.rs:48-64 | Status 404 iff the error is NotFound, and 500 otherwise. The body reports failure with no data. A database error shows only "Database error"; the others show their display text. |
| StateApi.DatabaseCauseHidden | src/api/mod.rs:52 | The response to a database error does not depend on the database's message. |
| StateApi.NotFoundNamesKey | src/api/mod.rs:41-42 | Two NotFound responses are equal only for the same key. |
| StateApi.NextVersion | src/api/mod.rs:129-138 | A new key gets version 1, and an existing key its stored version + 1. |
| StateApi.Upsert | src/api/mod.rs:140-148 | The table after a write keeps every record well formed and adds the key. Value, version and update time are replaced, the stored creation time is kept, and no other key changes. |
| StateApi.Apply | src/api/mod.rs:123-164 | Writes and deletions keep every record filed under its own key with version ≥ 1. |
| StateApi.Replay | src/api/mod.rs:123-164 | Any sequence of writes and deletions keeps the table well formed. |
| StateApi.ReplaySnoc | src/api/mod.rs:123-164 | Replaying a history with one more change applies that change last. |
| StateApi.VersionCountsWrites | src/api/mod.rs:129-164 | From an empty table, a key is stored iff it was written since its last deletion, and its version is the number of those writes. |
| StateApi.DeleteThenPutRestarts | src/api/mod.rs:136-138 | The first write after a deletion stores version 1 with creation time now. |
| StateApi.StateManager.constructor | src/api/mod.rs:74-99 | A manager opened over a database holds exactly the well-formed rows already stored there. |
| StateApi.StateManager.Get | src/api/mod.rs:101-120 | None iff the key is absent. Otherwise the stored record, which carries the key and a version ≥ 1. |
| StateApi.StateManager.GetValue | src/api/mod.rs:176-188 | NotFound naming the key (a 404) iff the key is absent. Otherwise a successful response carrying the record. |
| StateApi.StateManager.Put | src/api/mod.rs:123-157 | The table becomes Upsert of the old table. The returned record has the next version and reports now as both times. A following Get returns the new value and version. |
| StateApi.StateManager.Delete | src/api/mod.rs:160-164 | The result is true iff the key was stored. The key is removed and nothing else changes, and a following Get returns None. |
| StateApi.StateManager.List | src/api/mod.rs:167-173 | Exactly the stored keys, each once. |

## Left out

- **Integer widths.** Overflow of the source's `u32`, `u64` and `i64` counters is not modelled: instance counts, allocations, versions and timestamps are unbounded.
- **Floating point.** There are no NaN or infinities, no `f64::round` tie-breaking beyond `floor(x + 0.5)` for x ≥ 0, and no saturating `as u32` casts. The partition's `f32` ratios are exact fifths.
- **Unchecked divisions.** The source divides without a guard, and each divisor becomes a precondition:
  - the trend's division by the older mean (src/autoscalar/old_mod.rs:194, 218), as `TrendDefined`, `CountTrendDefined` and `CanEvaluate`;
  - the client factor's division by the fleet capacity (src/autoscalar/old_mod.rs:163-164), as `CanEvaluate`;
  - the load factor's division by `cpu_threshold` and `ram_threshold` (src/autoscalar/old_mod.rs:121-122);
  - the response-time factor's division by `response_time_threshold` (src/autoscalar/old_mod.rs:143).

  In the source a zero divisor yields an infinite or NaN value, which the model does not represent. For the two trends this has definite outcomes that the model excludes rather than computes:
  - a zero older mean with a non-zero recent mean gives ±infinity, which `clamp(-1.0, 1.0)` turns into a trend of exactly ±1.0;
  - a zero older mean with a zero recent mean gives 0/0, a NaN trend. The NaN score then fails all three comparisons at src/autoscalar/old_mod.rs:248-252 and gets the hold multiplier 1.0.

  `TrendDefined` and `CountTrendDefined` exclude both kinds of input, so the model does not state the ±1.0 trend or the hold the source gives on them. A zero threshold or capacity likewise gives an infinite or NaN factor and score, which the model does not represent.
- **ValidConfig.** `ValidConfig`, which `Decide` requires and `TargetInstances` requires outside the cooldown, is a set of assumptions the source never checks:
  - `min_instances ≤ max_instances`, because `clamp` panics otherwise;
  - all three thresholds positive (the divisions above);
  - both scale factors non-negative, so that the rounded target is a count.

  A negative factor would round to a negative number that `as u32` saturates to 0. That is not modelled.
- AutoScaling.AutoScaler.Decide: states only that a change lands within the bounds. The exact value follows from `ScalingFactor`, `Round` and `BoundInstances`, each specified on its own.
- StateApi.StateManager.constructor: the database file and the SQL schema are not modelled. The rows an existing `omniforge_state.db` already holds (src/api/mod.rs:238) are the constructor's `initial` parameter.
- ImageBuilder.Sanitize: lowercases ASCII letters only. Rust's Unicode `to_lowercase`, which can change the length of non-ASCII text, is not modelled.
- **Image name input.** Reading and parsing the devcontainer JSON, and taking the parent directory name from a path, are inputs here (`DevContainerConfig`, `parentDir`). A `name` or `version` that is present but not a string counts as absent, as in the source.
- **Side effects.** I/O, the clock and the environment are not modelled:
  - `env::args()` becomes a parameter;
  - `Utc::now()` is a parameter, in whole seconds, with no sub-second precision;
  - SSH sessions, command execution and reading the config file are left out;
  - Docker builds, the HTTP server and routing, the health endpoint, and `println!` logging are left out.
- **Storage and concurrency.** SQLite is not modelled. Its errors (`StateError::Database`) are never produced by the table operations; they appear only in `IntoResponse`. The `Mutex` locks become plain field access, so a `reallocate_*` call that fails to take the lock (and then changes nothing) is not modelled, and the async runtime is left out.
- **Query stubs.** `ExampleScaler::query` and `query_over_period` are not modelled. `query` goes through the no-op `set_field` (src/autoscalar/mod.rs:71), so it always reports absent metrics, and `query_over_period` adds only sleeping. `src/autoscalar/proposal.rs` holds stubs only.
- **Handler wrappers.** The `put_value`, `delete_value` and `list_keys` handlers only wrap the manager's results in a successful `ApiResponse`. The wrapping is modelled once, for `get_value`.
- **Order of `list`.** The order of keys from `list` is whatever the database returns, so the model fixes no order.
