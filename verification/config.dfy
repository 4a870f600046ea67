/** Process-wide settings read once at start (src/codex_mcp/server.py:16-20) and
    the model defaulting of `codex_exec` and `codex_async`. */
module Config {

  /** Fallback of `CODEX_MODEL` when the variable is unset. */
  const FALLBACK_MODEL: string := "gpt-4.1"

  /** Fallback of `CODEX_SYSTEM_PROMPT` when the variable is unset. */
  const FALLBACK_SYSTEM_PROMPT: string :=
    "You are Codex, a helpful coding assistant. Provide concise, practical advice."

  /** `DEFAULT_MODEL` and `SYSTEM_PROMPT`. */
  datatype Settings = Settings(defaultModel: string, systemPrompt: string)

  /** `os.environ.get(name, fallback)` for the two variables the core uses; a
      variable that is set wins even when it is set to the empty string. */
  function FromEnvironment(env: map<string, string>): (s: Settings)
    ensures "CODEX_MODEL" in env ==> s.defaultModel == env["CODEX_MODEL"]
    ensures "CODEX_MODEL" !in env ==> s.defaultModel == FALLBACK_MODEL
    ensures "CODEX_SYSTEM_PROMPT" in env ==> s.systemPrompt == env["CODEX_SYSTEM_PROMPT"]
    ensures "CODEX_SYSTEM_PROMPT" !in env ==> s.systemPrompt == FALLBACK_SYSTEM_PROMPT
  {
    Settings(
      if "CODEX_MODEL" in env then env["CODEX_MODEL"] else FALLBACK_MODEL,
      if "CODEX_SYSTEM_PROMPT" in env then env["CODEX_SYSTEM_PROMPT"] else FALLBACK_SYSTEM_PROMPT)
  }

  /** `model if model else DEFAULT_MODEL`: an empty request falls back to the default. */
  function ResolveModel(requested: string, default: string): (m: string)
    ensures requested != "" ==> m == requested
    ensures requested == "" ==> m == default
    ensures m == requested || m == default
  {
    if requested != "" then requested else default
  }

  /** The resolved model is never empty while the default is not. */
  lemma ResolvedModelNonEmpty(requested: string, default: string)
    requires default != ""
    ensures ResolveModel(requested, default) != ""
  {
  }

  /** With `CODEX_MODEL` unset the default is non-empty, so every request is
      answered by a named model. */
  lemma UnsetVariableNamesAModel(env: map<string, string>, requested: string)
    requires "CODEX_MODEL" !in env
    ensures ResolveModel(requested, FromEnvironment(env).defaultModel) != ""
  {
  }

  /** `CODEX_MODEL` set to the empty string makes `DEFAULT_MODEL` empty, and then a
      request that leaves the model empty resolves to the empty model. */
  lemma EmptyVariableGivesEmptyModel(env: map<string, string>)
    requires "CODEX_MODEL" in env && env["CODEX_MODEL"] == ""
    ensures ResolveModel("", FromEnvironment(env).defaultModel) == ""
  {
  }
}
