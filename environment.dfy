/**
 * The scripts' configuration, read from `process.env`: the required
 * variable check (`assertEnv`) and the `HEADLESS` switch.
 */
module Environment {
  import opened Wrappers

  type Env = map<string, string>

  /** `process.env[name]` is truthy: an unset variable and an empty one
      both count as missing. */
  predicate IsSet(env: Env, name: string) {
    name in env && env[name] != ""
  }

  /** The index of the first name that the run of `assertEnv` calls stops
      at, or None when every one of them is set. */
  function FirstMissing(env: Env, names: seq<string>): (r: Option<nat>)
    ensures r.None? <==> forall i :: 0 <= i < |names| ==> IsSet(env, names[i])
    ensures r.Some? ==> r.value < |names| && !IsSet(env, names[r.value])
    ensures r.Some? ==> forall j :: 0 <= j < r.value ==> IsSet(env, names[j])
  {
    if names == [] then None
    else if !IsSet(env, names[0]) then Some(0)
    else match FirstMissing(env, names[1..])
      case None => None
      case Some(i) => Some(i + 1)
  }

  /** `HEADLESS === 'false' ? false : true`. */
  function Headless(env: Env): bool {
    !("HEADLESS" in env && env["HEADLESS"] == "false")
  }

  /** The browser runs headless unless HEADLESS is exactly `false`: unset,
      empty, other spellings and other words all keep it headless. */
  lemma HeadlessUnlessExactlyFalse(env: Env, v: string)
    ensures Headless(env - {"HEADLESS"})
    ensures Headless(env["HEADLESS" := v]) <==> v != "false"
    ensures Headless(env["HEADLESS" := "False"]) && Headless(env["HEADLESS" := "0"])
  {
  }
}
