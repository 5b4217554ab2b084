/**
 * The dependency environment (core/components/deps_env.py): a set-once cache
 * of the host's system and machine names, normalised, and the per-call copy
 * of it with the caller's overrides applied. The host's names, which the
 * source reads from the `platform` module, are parameters here.
 */
module DepsEnv {
  import opened Wrappers

  predicate IsUpper(c: char) {
    'A' <= c <= 'Z'
  }

  /** ASCII lower-casing of one character. */
  function LowerChar(c: char): (r: char)
    ensures !IsUpper(r)
    ensures IsUpper(c) ==> r as int == c as int + 32
    ensures !IsUpper(c) ==> r == c
  {
    if IsUpper(c) then (c as int + 32) as char else c
  }

  /** `str.lower()` on ASCII text. */
  function Lower(s: string): (r: string)
    ensures |r| == |s|
    ensures forall i :: 0 <= i < |r| ==> !IsUpper(r[i])
    ensures forall i :: 0 <= i < |s| && !IsUpper(s[i]) ==> r[i] == s[i]
    ensures forall i :: 0 <= i < |s| && IsUpper(s[i]) ==> r[i] as int == s[i] as int + 32
  {
    if s == [] then [] else [LowerChar(s[0])] + Lower(s[1..])
  }

  /** Lower-casing lower-cased text changes nothing. */
  lemma {:induction false} LowerIdempotent(s: string)
    ensures Lower(Lower(s)) == Lower(s)
  {
    var r := Lower(s);
    LowerFixesLowerCase(r);
  }

  lemma {:induction false} LowerFixesLowerCase(s: string)
    requires forall i :: 0 <= i < |s| ==> !IsUpper(s[i])
    ensures Lower(s) == s
  {
    if s != [] {
      LowerFixesLowerCase(s[1..]);
    }
  }

  /** The one machine-name alias the source rewrites. */
  function NormalizeMachine(machine: string): (r: string)
    ensures machine == "amd64" ==> r == "x86_64"
    ensures machine != "amd64" ==> r == machine
  {
    if machine == "amd64" then "x86_64" else machine
  }

  const EnvKeys: set<string> := {"system", "machine"}

  /** The environment `init_deps_env` caches for the given platform names. */
  function EnvOf(system: string, machine: string): (env: map<string, string>)
    ensures env.Keys == EnvKeys
    ensures env["system"] == Lower(system)
    ensures env["machine"] == NormalizeMachine(Lower(machine))
    ensures forall k :: k in env ==> Lower(env[k]) == env[k]
  {
    LowerIdempotent(system);
    LowerIdempotent(machine);
    map["system" := Lower(system), "machine" := NormalizeMachine(Lower(machine))]
  }

  /** On Windows, where the machine is reported as `AMD64`, the cached name is `x86_64`. */
  lemma WindowsMachineIsX8664(system: string)
    ensures EnvOf(system, "AMD64")["machine"] == "x86_64"
  {
    assert Lower("AMD64") == "amd64" by {
      assert Lower("4") == "4";
      assert Lower("64") == "64";
      assert Lower("D64") == "d64";
      assert Lower("MD64") == "md64";
    }
  }

  /** `dict.update` on a copy: every key of `custom` takes custom's value, every other key keeps its own. */
  function Overlay(base: map<string, string>, custom: map<string, string>): (r: map<string, string>)
    ensures r.Keys == base.Keys + custom.Keys
    ensures forall k :: k in custom ==> r[k] == custom[k]
    ensures forall k :: k in base && k !in custom ==> r[k] == base[k]
  {
    base + custom
  }

  /** `DepsEnvBuild`; one object stands for the class and its class-level field. */
  class DepsEnvBuild {
    var depsEnv: Option<map<string, string>>

    ghost predicate Valid()
      reads this
    {
      depsEnv.Some? ==> depsEnv.value.Keys == EnvKeys
    }

    constructor ()
      ensures Valid() && depsEnv == None
    {
      depsEnv := None;
    }

    /** `init_deps_env`: the cache is filled only when it is still empty. */
    method InitDepsEnv(system: string, machine: string)
      requires Valid()
      modifies this
      ensures Valid() && depsEnv.Some?
      ensures old(depsEnv).Some? ==> depsEnv == old(depsEnv)
      ensures old(depsEnv).None? ==> depsEnv == Some(EnvOf(system, machine))
    {
      if depsEnv.None? {
        var sys := Lower(system);
        var mach := Lower(machine);
        mach := if mach == "amd64" then "x86_64" else mach;
        depsEnv := Some(map["system" := sys, "machine" := mach]);
      }
    }

    /**
     * `get_deps_env`: fills the cache if needed, then returns a copy of it
     * with `custom` applied; the cache itself is not changed by the overrides.
     */
    method GetDepsEnv(custom: map<string, string>, system: string, machine: string)
      returns (env: map<string, string>)
      requires Valid()
      modifies this
      ensures Valid() && depsEnv.Some?
      ensures old(depsEnv).Some? ==> depsEnv == old(depsEnv)
      ensures old(depsEnv).None? ==> depsEnv == Some(EnvOf(system, machine))
      ensures env == Overlay(depsEnv.value, custom)
      ensures env.Keys == EnvKeys + custom.Keys
    {
      InitDepsEnv(system, machine);
      var copy := depsEnv.value;
      copy := copy + custom;
      env := copy;
    }
  }
}
