/** The environment-variable loader of server/env_vars_loader.py, and the
    "first missing key" notion it shares with the submitter's own loader.
    The process environment is an input map from variable name to value. */
module EnvVars {
  import opened Wrappers

  /** Key `keys[i]` is absent from `env` and every key before it is present. */
  ghost predicate FirstMissingAt(keys: seq<string>, env: map<string, string>, i: int)
  {
    0 <= i < |keys| && keys[i] !in env &&
    forall j :: 0 <= j < i ==> keys[j] in env
  }

  /** The first key of `keys`, in list order, that `env` lacks; `None` when all are present. */
  function FirstMissing(keys: seq<string>, env: map<string, string>): (r: Option<string>)
    ensures r == None <==> forall k :: k in keys ==> k in env
    ensures r.Some? ==> r.value in keys && r.value !in env
  {
    if keys == [] then None
    else if keys[0] !in env then Some(keys[0])
    else FirstMissing(keys[1..], env)
  }

  /** What `FirstMissing` reports really is the first missing key. */
  lemma {:induction false} FirstMissingIsFirst(keys: seq<string>, env: map<string, string>)
    requires FirstMissing(keys, env).Some?
    ensures exists i :: FirstMissingAt(keys, env, i) && keys[i] == FirstMissing(keys, env).value
  {
    if keys[0] in env {
      FirstMissingIsFirst(keys[1..], env);
      var i :| FirstMissingAt(keys[1..], env, i) && keys[1..][i] == FirstMissing(keys[1..], env).value;
      assert FirstMissingAt(keys, env, i + 1);
    } else {
      assert FirstMissingAt(keys, env, 0);
    }
  }

  /** Conversely, the first missing key at any position is what `FirstMissing` reports. */
  lemma {:induction false} FirstMissingAtIsReported(keys: seq<string>, env: map<string, string>, i: int)
    requires FirstMissingAt(keys, env, i)
    ensures FirstMissing(keys, env) == Some(keys[i])
  {
    if i > 0 {
      assert keys[0] in env;
      assert FirstMissingAt(keys[1..], env, i - 1);
      FirstMissingAtIsReported(keys[1..], env, i - 1);
    }
  }

  /** A missing variable (the source's `VarNotFoundException`), naming the variable. */
  datatype VarNotFound = VarNotFound(name: string)

  /** Loads a configured list of environment variables into a dictionary. */
  class EnvVarsLoader {
    const envKeys: seq<string>

    constructor (envKeys: seq<string>)
      ensures this.envKeys == envKeys
    {
      this.envKeys := envKeys;
    }

    /** Fails on the first key, in list order, that the environment lacks;
        otherwise returns exactly the listed keys with their environment values. */
    method GetEnvVars(env: map<string, string>) returns (r: Result<map<string, string>, VarNotFound>)
      ensures r.Ok? <==> forall k :: k in envKeys ==> k in env
      ensures r.Err? ==> exists i :: FirstMissingAt(envKeys, env, i) && envKeys[i] == r.error.name
      ensures r.Ok? ==> r.value.Keys == set k | k in envKeys
      ensures r.Ok? ==> forall k :: k in r.value ==> k in env && r.value[k] == env[k]
    {
      var envVars: map<string, string> := map[];
      for j := 0 to |envKeys|
        invariant forall i :: 0 <= i < j ==> envKeys[i] in env
        invariant envVars.Keys == set k | k in envKeys[..j]
        invariant forall k :: k in envVars ==> k in env && envVars[k] == env[k]
      {
        var name := envKeys[j];
        if name !in env {
          assert FirstMissingAt(envKeys, env, j);
          return Err(VarNotFound(name));
        }
        assert envKeys[..j + 1] == envKeys[..j] + [name];
        envVars := envVars[name := env[name]];
      }
      assert envKeys[..|envKeys|] == envKeys;
      return Ok(envVars);
    }
  }
}
