/** Reading required configuration from the environment (pkg/tools/server.go). */
module ToolsServer {
  import opened Base

  const MissingVariablePhrase := "missing environment variable "

  /** Models MustGetenv: the variable's value, or an error naming the variable when it
      is unset or set to the empty string. */
  function MustGetenv(env: map<string, string>, key: string): (r: Result<string>)
    ensures r.Ok? <==> key in env && env[key] != ""
    ensures r.Ok? ==> r.value == env[key] && |r.value| > 0
    ensures r.Err? ==> r.error == Error(MissingVariablePhrase + Quote(key))
  {
    var value := Getenv(env, key);
    if |value| == 0 then Err(Error(MissingVariablePhrase + Quote(key))) else Ok(value)
  }

  /** A variable set to the empty string is rejected exactly as an unset one is. */
  lemma EmptyIsUnset(env: map<string, string>, key: string)
    ensures MustGetenv(env[key := ""], key) == MustGetenv(env - {key}, key)
  {
  }

  /** The error message names the variable: it is the phrase followed by the quoted key. */
  lemma MissingMessageNamesKey(env: map<string, string>, key: string)
    requires MustGetenv(env, key).Err?
    ensures var msg := MustGetenv(env, key).error.msg;
      && HasPrefix(msg, MissingVariablePhrase)
      && msg[|MissingVariablePhrase| + 1..|MissingVariablePhrase| + 1 + |key|] == key
  {
    var msg := MustGetenv(env, key).error.msg;
    assert msg == MissingVariablePhrase + "\"" + key + "\"";
    assert msg[..|MissingVariablePhrase|] == MissingVariablePhrase;
  }

  /** Other variables do not matter. */
  lemma OnlyTheKeyMatters(env1: map<string, string>, env2: map<string, string>, key: string)
    requires Getenv(env1, key) == Getenv(env2, key)
    ensures MustGetenv(env1, key) == MustGetenv(env2, key)
  {
  }
}
