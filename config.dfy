/** config.py: the required-environment check and the dot-path settings lookup.
    Reading the YAML file and setting up logging are not part of this model; the
    parsed tree and the process environment are passed in. */
module Config {
  import opened Wrappers
  import opened Python
  import opened Strings

  /** The variables `Config` insists on, in the order its error message lists them. */
  const RequiredVars: seq<string> := ["NOTION_WORKSPACE_A_TOKEN", "OPENAI_API_KEY", "ANTHROPIC_API_KEY"]

  /** `os.getenv(name)` is truthy: the variable exists and is not empty. */
  predicate IsSet(env: map<string, string>, name: string)
  {
    name in env && env[name] != ""
  }

  /** `[var for var in names if not os.getenv(var)]` */
  function MissingVars(names: seq<string>, env: map<string, string>): (missing: seq<string>)
    ensures forall x :: x in missing <==> x in names && !IsSet(env, x)
    ensures |missing| <= |names|
  {
    if names == [] then []
    else (if IsSet(env, names[0]) then [] else [names[0]]) + MissingVars(names[1..], env)
  }

  /** The missing required variables keep the fixed order of `RequiredVars`. */
  lemma MissingRequiredInOrder(env: map<string, string>)
    ensures MissingVars(RequiredVars, env) ==
              (if IsSet(env, RequiredVars[0]) then [] else [RequiredVars[0]]) +
              (if IsSet(env, RequiredVars[1]) then [] else [RequiredVars[1]]) +
              (if IsSet(env, RequiredVars[2]) then [] else [RequiredVars[2]])
  {
    var names := RequiredVars;
    assert MissingVars(names[1..][1..][1..], env) == [];
    assert MissingVars(names[1..][1..], env) ==
             (if IsSet(env, names[2]) then [] else [names[2]]);
    assert MissingVars(names[1..], env) ==
             (if IsSet(env, names[1]) then [] else [names[1]]) + MissingVars(names[1..][1..], env);
  }

  /** `_validate_env_vars`: a RuntimeError naming exactly the missing variables. */
  function ValidateEnvVars(env: map<string, string>): (r: Result<(), PyError>)
    ensures r.Err? <==> exists x :: x in RequiredVars && !IsSet(env, x)
    ensures r.Err? ==> r.error == RuntimeError("Missing required environment variables: " +
                                               Join(MissingVars(RequiredVars, env), ", "))
  {
    var missing := MissingVars(RequiredVars, env);
    if |missing| > 0 then
      assert missing[0] in missing;
      Err(RuntimeError("Missing required environment variables: " + Join(missing, ", ")))
    else Ok(())
  }

  /** What `get_setting` computes: consume `keys` left to right, descending into
      a dict by `.get(key, default)`, and give `default` as soon as the current
      value is not a dict while keys remain. */
  function Lookup(value: Value, keys: seq<string>, default: Value): Value
    decreases |keys|
  {
    if keys == [] then value
    else if value.Dict? then
      Lookup(if keys[0] in value.entries then value.entries[keys[0]] else default, keys[1..], default)
    else default
  }

  /** Every key of the path names an entry of the dict reached so far. */
  predicate PathExists(value: Value, keys: seq<string>)
    decreases |keys|
  {
    keys == [] ||
    (value.Dict? && keys[0] in value.entries && PathExists(value.entries[keys[0]], keys[1..]))
  }

  /** The nested value at an existing path. */
  function At(value: Value, keys: seq<string>): Value
    requires PathExists(value, keys)
    decreases |keys|
  {
    if keys == [] then value else At(value.entries[keys[0]], keys[1..])
  }

  /** When every key exists, the lookup yields the nested value at that path. */
  lemma {:induction false} LookupFound(value: Value, keys: seq<string>, default: Value)
    requires PathExists(value, keys)
    ensures Lookup(value, keys, default) == At(value, keys)
  {
    if keys != [] {
      LookupFound(value.entries[keys[0]], keys[1..], default);
    }
  }

  /** With a default that is not a dict, a path with a missing key (or one that
      runs into a non-dict) yields the default. */
  lemma {:induction false} LookupMissing(value: Value, keys: seq<string>, default: Value)
    requires !default.Dict?
    requires !PathExists(value, keys)
    ensures Lookup(value, keys, default) == default
  {
    if value.Dict? && keys[0] in value.entries {
      LookupMissing(value.entries[keys[0]], keys[1..], default);
    }
  }

  /** Walking an existing prefix of the path first and the rest after gives the same result. */
  lemma {:induction false} LookupAfterPrefix(value: Value, keys: seq<string>, i: nat, default: Value)
    requires i <= |keys|
    requires PathExists(value, keys[..i])
    ensures Lookup(value, keys, default) == Lookup(At(value, keys[..i]), keys[i..], default)
  {
    if i > 0 {
      assert keys[..i][0] == keys[0];
      assert keys[..i][1..] == keys[1..][..i - 1];
      LookupAfterPrefix(value.entries[keys[0]], keys[1..], i - 1, default);
      assert keys[1..][i - 1..] == keys[i..];
    }
  }

  /** Meeting a non-dict before the keys run out gives the default at once. */
  lemma LookupHitsNonDict(value: Value, keys: seq<string>, i: nat, default: Value)
    requires i < |keys|
    requires PathExists(value, keys[..i]) && !At(value, keys[..i]).Dict?
    ensures Lookup(value, keys, default) == default
  {
    LookupAfterPrefix(value, keys, i, default);
  }

  /** A missing key replaces the current value with the default, and the walk goes
      on inside the default with the remaining keys. */
  lemma LookupContinuesInDefault(value: Value, keys: seq<string>, i: nat, default: Value)
    requires i < |keys|
    requires PathExists(value, keys[..i])
    requires At(value, keys[..i]).Dict? && keys[i] !in At(value, keys[..i]).entries
    ensures Lookup(value, keys, default) == Lookup(default, keys[i + 1..], default)
  {
    LookupAfterPrefix(value, keys, i, default);
    assert keys[i..][1..] == keys[i + 1..];
  }

  class Config {
    /** The parsed configuration tree; never changed after construction. */
    const config: Value

    /** A `Config` exists only once the required environment variables are set. */
    constructor (config: Value, env: map<string, string>)
      requires ValidateEnvVars(env).Ok?
      ensures this.config == config
    {
      this.config := config;
    }

    /** `get_setting(path, default)` */
    method GetSetting(path: string, default: Value) returns (r: Value)
      ensures r == Lookup(config, Split(path, '.'), default)
    {
      var keys := Split(path, '.');
      var value := config;
      var i := 0;
      while i < |keys|
        invariant 0 <= i <= |keys|
        invariant Lookup(value, keys[i..], default) == Lookup(config, keys, default)
      {
        assert keys[i..][0] == keys[i] && keys[i..][1..] == keys[i + 1..];
        if value.Dict? {
          value := if keys[i] in value.entries then value.entries[keys[i]] else default;
        } else {
          return default;
        }
        i := i + 1;
      }
      return value;
    }
  }
}
