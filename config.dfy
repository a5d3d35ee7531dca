/** Configuration lookup: a setting is read from the environment, then
    from a `--KEY value` pair on the command line, then from its default.
    The process environment and argument vector are parameters. */
module Config {
  import opened Wrappers
  import opened JsString

  /** The command-line token that names `key`. */
  function Flag(key: string): string
  {
    "--" + key
  }

  /** The value of setting `key`. */
  function GetConfigValue(env: map<string, string>, argv: seq<string>, key: string, default: string): (r: string)
    ensures key in env ==> r == env[key]
    ensures key !in env && Flag(key) !in argv ==> r == default
    ensures key !in env ==> forall i :: 0 <= i < |argv| && argv[i] == Flag(key) && Flag(key) !in argv[..i] ==>
      r == if i + 1 < |argv| then argv[i + 1] else default
  {
    if key in env then env[key]
    else match IndexOfItem(argv, Flag(key))
      case Some(i) => if i + 1 < |argv| then argv[i + 1] else default
      case None => default
  }

  /** Only the exact token `--KEY` names a setting: `--KEY=value` and other
      spellings leave the default in place. */
  lemma OnlyExactFlag(env: map<string, string>, argv: seq<string>, key: string, default: string)
    requires key !in env
    requires forall i :: 0 <= i < |argv| ==> argv[i] != Flag(key)
    ensures GetConfigValue(env, argv, key, default) == default
  {
  }

  /** The environment wins over the command line, even when its value is
      empty. */
  lemma EnvironmentFirst(env: map<string, string>, argv: seq<string>, key: string, default: string, value: string)
    ensures GetConfigValue(env[key := value], argv, key, default) == value
  {
  }
}
