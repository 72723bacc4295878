/** notion_wrapper.py: the Notion client facade. Every block operation runs through a
    bounded retry with exponential backoff whose policy comes from the configuration;
    the block types the agent supports are read from the configuration once.
    The Notion SDK itself is abstract: an operation is given as the outcome of its
    k-th call (k = 0, 1, ...), and the sleeps between calls are recorded, not taken. */
module NotionWrapper {
  import opened Wrappers
  import opened Python

  /** `error_handling.retry_policy`. `maxAttempts` is compared with the integer attempt
      counter as Python compares numbers, so a non-integral setting is kept as it is. */
  datatype RetryPolicy = RetryPolicy(maxAttempts: real, initialBackoff: real, multiplier: real)

  const DefaultPolicy := RetryPolicy(3.0, 1.0, 2.0)

  /** A policy setting: `retry_config.get(key, default)`, which must be a number. */
  function NumberSetting(retryConfig: Value, key: string, default: Value): Result<real, PyError>
  {
    match Get(retryConfig, key, default)
    case Err(e) => Err(e)
    case Ok(v) => AsNumber(v)
  }

  /** One key of a `retry_policy` mapping: its number when present, else its default. */
  function PolicyKey(m: map<string, Value>, key: string, default: real): Result<real, PyError>
  {
    if key in m then AsNumber(m[key]) else Ok(default)
  }

  /** The policy `_implement_retry` reads, with defaults 3 attempts, 1.0 s and 2.0. */
  function PolicyOf(config: Value): (r: Result<RetryPolicy, PyError>)
    ensures GetChain(config, ["error_handling", "retry_policy"]) == Ok(EmptyDict) ==> r == Ok(DefaultPolicy)
    ensures GetChain(config, ["error_handling", "retry_policy"]).Err? ==> r.Err?
    // each configured key is used and each absent key falls back to its own default;
    // a key that is not a number is a TypeError
    ensures var rc := GetChain(config, ["error_handling", "retry_policy"]);
            rc.Ok? && rc.value.Dict? ==>
              var maxAttempts := PolicyKey(rc.value.entries, "max_attempts", 3.0);
              var initial := PolicyKey(rc.value.entries, "initial_backoff_seconds", 1.0);
              var multiplier := PolicyKey(rc.value.entries, "backoff_multiplier", 2.0);
              r == if maxAttempts.Ok? && initial.Ok? && multiplier.Ok?
                   then Ok(RetryPolicy(maxAttempts.value, initial.value, multiplier.value))
                   else Err(TypeError)
    ensures var rc := GetChain(config, ["error_handling", "retry_policy"]);
            rc.Ok? && !rc.value.Dict? ==> r == Err(AttributeError)
  {
    match GetChain(config, ["error_handling", "retry_policy"])
    case Err(e) => Err(e)
    case Ok(rc) =>
      match NumberSetting(rc, "max_attempts", Int(3))
      case Err(e) => Err(e)
      case Ok(maxAttempts) =>
        match NumberSetting(rc, "initial_backoff_seconds", Float(1.0))
        case Err(e) => Err(e)
        case Ok(initial) =>
          match NumberSetting(rc, "backoff_multiplier", Float(2.0))
          case Err(e) => Err(e)
          case Ok(multiplier) => Ok(RetryPolicy(maxAttempts, initial, multiplier))
  }

  function Pow(x: real, n: nat): real
  {
    if n == 0 then 1.0 else x * Pow(x, n - 1)
  }

  /** The wait after failure number `failures`: `initial * multiplier ** (failures - 1)`. */
  function Delay(p: RetryPolicy, failures: nat): real
    requires failures >= 1
  {
    p.initialBackoff * Pow(p.multiplier, failures - 1)
  }

  lemma {:induction false} PowNonNegative(x: real, n: nat)
    requires x >= 0.0
    ensures Pow(x, n) >= 0.0
  {
    if n > 0 {
      PowNonNegative(x, n - 1);
    }
  }

  /** With a non-negative initial wait and multiplier, no wait is negative. */
  lemma DelayNonNegative(p: RetryPolicy, failures: nat)
    requires failures >= 1
    requires p.initialBackoff >= 0.0 && p.multiplier >= 0.0
    ensures Delay(p, failures) >= 0.0
  {
    PowNonNegative(p.multiplier, failures - 1);
  }

  /** What `_implement_retry` hands back: the call's value, the exception it
      re-raises, or the `None` it falls through to when the loop ends. */
  datatype Returned<+T, +E> = Returned(value: T) | Raised(error: E) | ReturnedNone

  /** A retry run: its outcome, how many times the operation was called, and the
      durations slept, in order. */
  datatype Run<+T, +E> = Run(result: Returned<T, E>, calls: nat, sleeps: seq<real>)

  /** What `time.sleep` raises for a negative duration. */
  const SleepNegative := ValueError("sleep length must be non-negative")

  /** The retry loop from the state `attempt` failures so far. */
  function RetryFrom<T>(op: nat -> Result<T, PyError>, p: RetryPolicy, attempt: nat): Run<T, PyError>
    decreases p.maxAttempts.Floor + 1 - attempt
  {
    if attempt as real >= p.maxAttempts then Run(ReturnedNone, 0, [])
    else match op(attempt)
      case Ok(v) => Run(Returned(v), 1, [])
      case Err(e) =>
        if (attempt + 1) as real == p.maxAttempts then Run(Raised(e), 1, [])
        else if Delay(p, attempt + 1) < 0.0 then Run(Raised(SleepNegative), 1, [])
        else
          var rest := RetryFrom(op, p, attempt + 1);
          Run(rest.result, rest.calls + 1, [Delay(p, attempt + 1)] + rest.sleeps)
  }

  /** What a retry run from `attempt` failures consists of. */
  lemma {:induction false} RetryFromSpec<T>(op: nat -> Result<T, PyError>, p: RetryPolicy, attempt: nat)
    decreases p.maxAttempts.Floor + 1 - attempt
    // the loop calls only while the counter is below the bound
    ensures RetryFrom(op, p, attempt).calls == 0 <==> attempt as real >= p.maxAttempts
    ensures var run := RetryFrom(op, p, attempt);
            run.calls > 0 ==> (attempt + run.calls - 1) as real < p.maxAttempts
    // every call but the last one failed
    ensures var run := RetryFrom(op, p, attempt);
            forall j :: attempt <= j < attempt + run.calls - 1 ==> op(j).Err?
    // success is returned at once
    ensures var run := RetryFrom(op, p, attempt);
            run.result.Returned? <==> run.calls > 0 && op(attempt + run.calls - 1).Ok?
    ensures var run := RetryFrom(op, p, attempt);
            run.result.Returned? ==> run.result.value == op(attempt + run.calls - 1).value
    // a failure is re-raised unchanged when the bound is reached; below it, a
    // negative wait makes the sleep raise instead
    ensures var run := RetryFrom(op, p, attempt);
            run.result.Raised? ==>
              run.calls > 0 && op(attempt + run.calls - 1).Err? &&
              (if (attempt + run.calls) as real == p.maxAttempts
               then run.result.error == op(attempt + run.calls - 1).error
               else Delay(p, attempt + run.calls) < 0.0 && run.result.error == SleepNegative)
    // the loop falls through only when the counter steps over a non-integral bound
    ensures var run := RetryFrom(op, p, attempt);
            run.result.ReturnedNone? ==> (attempt + run.calls) as real >= p.maxAttempts
    ensures var run := RetryFrom(op, p, attempt);
            run.result.ReturnedNone? && run.calls > 0 ==> p.maxAttempts < (attempt + run.calls) as real
    // one sleep after each failure but the last one, none of them negative
    ensures var run := RetryFrom(op, p, attempt);
            |run.sleeps| == (if run.result.ReturnedNone? then run.calls else run.calls - 1)
    ensures var run := RetryFrom(op, p, attempt);
            forall i :: 0 <= i < |run.sleeps| ==> run.sleeps[i] == Delay(p, attempt + i + 1)
    ensures var run := RetryFrom(op, p, attempt);
            forall i :: 0 <= i < |run.sleeps| ==> run.sleeps[i] >= 0.0
  {
    if attempt as real < p.maxAttempts && op(attempt).Err? && (attempt + 1) as real != p.maxAttempts
       && Delay(p, attempt + 1) >= 0.0 {
      RetryFromSpec(op, p, attempt + 1);
      var rest := RetryFrom(op, p, attempt + 1);
      var run := RetryFrom(op, p, attempt);
      assert run.sleeps == [Delay(p, attempt + 1)] + rest.sleeps;
      forall i | 0 <= i < |run.sleeps| ensures run.sleeps[i] == Delay(p, attempt + i + 1) {
        if i > 0 {
          assert run.sleeps[i] == rest.sleeps[i - 1];
        }
      }
    }
  }

  /** One step of the loop: a failure below the bound that does not reach it is
      followed by its sleep and the rest of the run. */
  lemma RetryFromFailure<T>(op: nat -> Result<T, PyError>, p: RetryPolicy, attempt: nat)
    requires attempt as real < p.maxAttempts && op(attempt).Err?
    requires (attempt + 1) as real != p.maxAttempts && Delay(p, attempt + 1) >= 0.0
    ensures RetryFrom(op, p, attempt) ==
              Run(RetryFrom(op, p, attempt + 1).result, RetryFrom(op, p, attempt + 1).calls + 1,
                  [Delay(p, attempt + 1)] + RetryFrom(op, p, attempt + 1).sleeps)
  {
  }

  /** A success below the bound ends the run with that call's value. */
  lemma RetryFromSuccess<T>(op: nat -> Result<T, PyError>, p: RetryPolicy, attempt: nat)
    requires attempt as real < p.maxAttempts && op(attempt).Ok?
    ensures RetryFrom(op, p, attempt) == Run(Returned(op(attempt).value), 1, [])
  {
  }

  /** A failure that reaches the bound is re-raised. */
  lemma RetryFromLast<T>(op: nat -> Result<T, PyError>, p: RetryPolicy, attempt: nat)
    requires attempt as real < p.maxAttempts && op(attempt).Err?
    requires (attempt + 1) as real == p.maxAttempts
    ensures RetryFrom(op, p, attempt) == Run(Raised(op(attempt).error), 1, [])
  {
  }

  /** A failure below the bound whose wait is negative ends the run at once. */
  lemma RetryFromNegativeWait<T>(op: nat -> Result<T, PyError>, p: RetryPolicy, attempt: nat)
    requires attempt as real < p.maxAttempts && op(attempt).Err?
    requires (attempt + 1) as real != p.maxAttempts && Delay(p, attempt + 1) < 0.0
    ensures RetryFrom(op, p, attempt) == Run(Raised(SleepNegative), 1, [])
  {
  }

  /** The whole retry run of `op` under policy `p`. */
  function Retry<T>(op: nat -> Result<T, PyError>, p: RetryPolicy): Run<T, PyError>
  {
    RetryFrom(op, p, 0)
  }

  /** The retry loop of `_implement_retry`, with the policy already read. */
  method RunWithRetry<T>(op: nat -> Result<T, PyError>, p: RetryPolicy)
    returns (r: Returned<T, PyError>, ghost calls: nat, ghost sleeps: seq<real>)
    ensures Run(r, calls, sleeps) == Retry(op, p)
    ensures r == Retry(op, p).result
  {
    var attempt: nat := 0;
    calls, sleeps := 0, [];
    while attempt as real < p.maxAttempts
      invariant calls == attempt
      invariant Retry(op, p) == (var rest := RetryFrom(op, p, attempt);
                                 Run(rest.result, attempt + rest.calls, sleeps + rest.sleeps))
      decreases p.maxAttempts.Floor + 1 - attempt
    {
      calls := calls + 1;
      match op(attempt)
      case Ok(v) =>
        RetryFromSuccess(op, p, attempt);
        return Returned(v), calls, sleeps;
      case Err(e) =>
        if (attempt + 1) as real == p.maxAttempts {
          RetryFromLast(op, p, attempt);
          return Raised(e), calls, sleeps;
        }
        var wait := Delay(p, attempt + 1);
        if wait < 0.0 {
          RetryFromNegativeWait(op, p, attempt);
          return Raised(SleepNegative), calls, sleeps;
        }
        RetryFromFailure(op, p, attempt);
        ghost var rest := RetryFrom(op, p, attempt + 1);
        attempt := attempt + 1;
        assert sleeps + [wait] + rest.sleeps == sleeps + ([wait] + rest.sleeps);
        sleeps := sleeps + [wait];
    }
    r := ReturnedNone;
  }

  /** Success on call k (after k failures, within the bound, with no negative wait
      before it) returns that call's value after exactly k + 1 calls and k sleeps of
      initial * multiplier^i. */
  lemma RetryReturnsFirstSuccess<T>(op: nat -> Result<T, PyError>, p: RetryPolicy, k: nat)
    requires (k as real) < p.maxAttempts
    requires forall j :: 0 <= j < k ==> op(j).Err?
    requires forall j :: 1 <= j <= k ==> Delay(p, j) >= 0.0
    requires op(k).Ok?
    ensures Retry(op, p).result == Returned(op(k).value)
    ensures Retry(op, p).calls == k + 1
    ensures |Retry(op, p).sleeps| == k
    ensures forall i :: 0 <= i < k ==> Retry(op, p).sleeps[i] == p.initialBackoff * Pow(p.multiplier, i)
  {
    RetryFromSpec(op, p, 0);
    var run := Retry(op, p);
    if run.calls - 1 > k {
      assert false;
    }
    if run.calls - 1 < k {
      assert false;
    }
  }

  /** An operation that always fails, with no negative wait, is called exactly n
      times; the n-th exception is re-raised after n - 1 sleeps. */
  lemma RetryExhausted<T>(op: nat -> Result<T, PyError>, p: RetryPolicy, n: nat)
    requires n >= 1 && p.maxAttempts == n as real
    requires forall j :: 0 <= j < n ==> op(j).Err?
    requires forall j :: 1 <= j < n ==> Delay(p, j) >= 0.0
    ensures Retry(op, p).result == Raised(op(n - 1).error)
    ensures Retry(op, p).calls == n
    ensures |Retry(op, p).sleeps| == n - 1
    ensures forall i :: 0 <= i < n - 1 ==> Retry(op, p).sleeps[i] == p.initialBackoff * Pow(p.multiplier, i)
  {
    RetryFromSpec(op, p, 0);
    var run := Retry(op, p);
    if run.calls < n {
      assert false;
    }
  }

  /** A negative wait: the first failure below the bound ends the run with the
      ValueError of `time.sleep`, without any sleep or further call. */
  lemma RetryNegativeBackoff<T>(op: nat -> Result<T, PyError>, p: RetryPolicy)
    requires 1.0 < p.maxAttempts && p.initialBackoff < 0.0
    requires op(0).Err?
    ensures Retry(op, p) == Run(Raised(SleepNegative), 1, [])
  {
    assert Delay(p, 1) == p.initialBackoff;
  }

  /** A bound of zero or less: the operation is never called and the result is None. */
  lemma RetryNeverCalls<T>(op: nat -> Result<T, PyError>, p: RetryPolicy)
    requires p.maxAttempts <= 0.0
    ensures Retry(op, p) == Run(ReturnedNone, 0, [])
  {
  }

  /** The default policy on an update that fails twice and then succeeds: two sleeps,
      of 1.0 and 2.0 seconds, and the third call's value. */
  lemma DefaultPolicyTwoFailures<T>(op: nat -> Result<T, PyError>)
    requires op(0).Err? && op(1).Err? && op(2).Ok?
    ensures Retry(op, DefaultPolicy) == Run(Returned(op(2).value), 3, [1.0, 2.0])
  {
    var p := DefaultPolicy;
    assert Delay(p, 1) == 1.0;
    assert Delay(p, 2) == 2.0 by {
      assert Pow(2.0, 1) == 2.0;
    }
    RetryFromSuccess(op, p, 2);
    RetryFromFailure(op, p, 1);
    RetryFromFailure(op, p, 0);
    assert [1.0] + ([2.0] + []) == [1.0, 2.0];
  }

  /** `_get_supported_blocks`: the `@type` of every `block_support.supported_types.block`
      entry, in configuration order. */
  function SupportedBlocks(config: Value): (r: Result<seq<Value>, PyError>)
    ensures GetChain(config, ["block_support", "supported_types"]).Err? ==> r.Err?
    ensures var bc := GetChain(config, ["block_support", "supported_types"]);
            bc.Ok? && bc.value.Dict? && "block" in bc.value.entries && bc.value.entries["block"].List? &&
            (forall i :: 0 <= i < |bc.value.entries["block"].items| ==> bc.value.entries["block"].items[i].Dict?) ==>
              var entries := bc.value.entries["block"].items;
              r.Ok? && |r.value| == |entries| &&
              forall i :: 0 <= i < |entries| ==> r.value[i] == GetIn(entries[i], "@type", Null)
  {
    match GetChain(config, ["block_support", "supported_types"])
    case Err(e) => Err(e)
    case Ok(blockConfig) =>
      match Get(blockConfig, "block", EmptyList)
      case Err(e) => Err(e)
      case Ok(blocks) => GetEach(blocks, "@type", Null)
  }

  /** With no `block` key, nothing is supported. */
  lemma NoBlocksConfigured(config: Value, blockConfig: map<string, Value>)
    requires GetChain(config, ["block_support", "supported_types"]) == Ok(Dict(blockConfig))
    requires "block" !in blockConfig
    ensures SupportedBlocks(config) == Ok([])
  {
  }

  /** A type is in the supported list iff some configured entry carries it as `@type`. */
  lemma SupportedTypeListed(config: Value, blockConfig: map<string, Value>, entries: seq<Value>, t: string)
    requires GetChain(config, ["block_support", "supported_types"]) == Ok(Dict(blockConfig))
    requires "block" in blockConfig && blockConfig["block"] == List(entries)
    requires forall i :: 0 <= i < |entries| ==> entries[i].Dict?
    ensures SupportedBlocks(config).Ok?
    ensures Str(t) in SupportedBlocks(config).value <==>
              exists i :: 0 <= i < |entries| && "@type" in entries[i].entries && entries[i].entries["@type"] == Str(t)
  {
    var types := SupportedBlocks(config).value;
    if Str(t) in types {
      var i :| 0 <= i < |types| && types[i] == Str(t);
      assert GetIn(entries[i], "@type", Null) == Str(t);
    }
    if exists i :: 0 <= i < |entries| && "@type" in entries[i].entries && entries[i].entries["@type"] == Str(t) {
      var i :| 0 <= i < |entries| && "@type" in entries[i].entries && entries[i].entries["@type"] == Str(t);
      assert types[i] == Str(t);
    }
  }

  /** The four Notion block calls, with the arguments they are given. */
  datatype BlockCall =
    | Retrieve(blockId: string)
    | Update(blockId: string, properties: map<string, Value>)
    | AppendChildren(parentId: string, properties: map<string, Value>)
    | Delete(blockId: string)

  /** `_implement_retry` with the policy read from `config` on every call: a malformed
      policy raises before the operation is ever called. */
  function Retried<T>(config: Value, op: nat -> Result<T, PyError>): Run<T, PyError>
  {
    match PolicyOf(config)
    case Err(e) => Run(Raised(e), 0, [])
    case Ok(p) => Retry(op, p)
  }

  class NotionClient {
    const config: Value
    const supportedBlocks: seq<Value>

    constructor (config: Value)
      requires SupportedBlocks(config).Ok?
      ensures this.config == config && supportedBlocks == SupportedBlocks(config).value
    {
      this.config := config;
      this.supportedBlocks := SupportedBlocks(config).value;
    }

    /** `_implement_retry(func)` */
    method ImplementRetry<T>(op: nat -> Result<T, PyError>)
      returns (r: Returned<T, PyError>, ghost calls: nat, ghost sleeps: seq<real>)
      ensures r == Retried(config, op).result
      ensures calls == Retried(config, op).calls && sleeps == Retried(config, op).sleeps
    {
      var policy := PolicyOf(config);
      match policy
      case Err(e) =>
        return Raised(e), 0, [];
      case Ok(p) =>
        r, calls, sleeps := RunWithRetry(op, p);
    }

    /** `get_block(block_id)` retrieves that block through the retry. */
    method GetBlock(blockId: string, api: BlockCall -> nat -> Result<Value, PyError>)
      returns (r: Returned<Value, PyError>, ghost calls: nat, ghost sleeps: seq<real>)
      ensures r == Retried(config, api(Retrieve(blockId))).result
      ensures calls == Retried(config, api(Retrieve(blockId))).calls && sleeps == Retried(config, api(Retrieve(blockId))).sleeps
    {
      r, calls, sleeps := ImplementRetry(api(Retrieve(blockId)));
    }

    /** `update_block(block_id, **kwargs)` */
    method UpdateBlock(blockId: string, properties: map<string, Value>,
                       api: BlockCall -> nat -> Result<Value, PyError>)
      returns (r: Returned<Value, PyError>, ghost calls: nat, ghost sleeps: seq<real>)
      ensures r == Retried(config, api(Update(blockId, properties))).result
      ensures calls == Retried(config, api(Update(blockId, properties))).calls && sleeps == Retried(config, api(Update(blockId, properties))).sleeps
    {
      r, calls, sleeps := ImplementRetry(api(Update(blockId, properties)));
    }

    /** `create_block(parent_id, **kwargs)` appends children to the parent. */
    method CreateBlock(parentId: string, properties: map<string, Value>,
                       api: BlockCall -> nat -> Result<Value, PyError>)
      returns (r: Returned<Value, PyError>, ghost calls: nat, ghost sleeps: seq<real>)
      ensures r == Retried(config, api(AppendChildren(parentId, properties))).result
      ensures calls == Retried(config, api(AppendChildren(parentId, properties))).calls && sleeps == Retried(config, api(AppendChildren(parentId, properties))).sleeps
    {
      r, calls, sleeps := ImplementRetry(api(AppendChildren(parentId, properties)));
    }

    /** `delete_block(block_id)` */
    method DeleteBlock(blockId: string, api: BlockCall -> nat -> Result<Value, PyError>)
      returns (r: Returned<Value, PyError>, ghost calls: nat, ghost sleeps: seq<real>)
      ensures r == Retried(config, api(Delete(blockId))).result
      ensures calls == Retried(config, api(Delete(blockId))).calls && sleeps == Retried(config, api(Delete(blockId))).sleeps
    {
      r, calls, sleeps := ImplementRetry(api(Delete(blockId)));
    }

    /** `is_supported_block(block_type)`: list membership. */
    function IsSupportedBlock(blockType: string): (b: bool)
      ensures b <==> exists i :: 0 <= i < |supportedBlocks| && supportedBlocks[i] == Str(blockType)
      ensures supportedBlocks == [] ==> !b
    {
      Str(blockType) in supportedBlocks
    }
  }
}
