// src/lib.rs: `set_directories`, which fills the two process-wide directory
// settings from the command line and the environment. The command line and
// the environment are parameters; the `static mut` globals are the fields
// of `Globals`.

module Lib {
  import opened Vk

  const SHADER_BUILD_DIR_VAR: string := "SHADER_BUILD_DIR"
  const ASSETS_DIR_VAR: string := "ASSETS_DIR"
  const DEFAULT_SHADER_BUILD_DIR: string := "./shaderbuild"
  const DEFAULT_ASSETS_DIR: string := "./assets"
  const TOO_MANY_ARGS: string := "Too many args"

  /** `std::env::var(key).unwrap_or_else(|_| default)`. */
  function EnvOr(env: map<string, string>, key: string, default: string): string
  {
    if key in env then env[key] else default
  }

  /** The argument at `i` if the command line has one there, else the environment fallback. */
  function ArgOrEnv(args: seq<string>, i: nat, env: map<string, string>, key: string, default: string): (r: string)
    ensures i < |args| ==> r == args[i]
    ensures i >= |args| && key in env ==> r == env[key]
    ensures i >= |args| && key !in env ==> r == default
  {
    if |args| > i then args[i] else EnvOr(env, key, default)
  }

  /**
   * The pair (shader build directory, assets directory) that a successful
   * call sets, or the error for more than three arguments (the program name
   * counts as one).
   */
  function Directories(args: seq<string>, env: map<string, string>): (r: Result<(string, string)>)
    ensures r.Err? <==> |args| > 3
    ensures r.Err? ==> r.msg == TOO_MANY_ARGS
  {
    if |args| > 3 then Err(TOO_MANY_ARGS)
    else Ok((ArgOrEnv(args, 1, env, SHADER_BUILD_DIR_VAR, DEFAULT_SHADER_BUILD_DIR),
             ArgOrEnv(args, 2, env, ASSETS_DIR_VAR, DEFAULT_ASSETS_DIR)))
  }

  /** The two `static mut` settings, `SHADERBUILD_DIR` and `ASSETS_DIR`. */
  class Globals {
    var shaderBuildDir: Option<string>
    var assetsDir: Option<string>

    constructor ()
      ensures shaderBuildDir == None && assetsDir == None
    {
      shaderBuildDir := None;
      assetsDir := None;
    }

    /** `set_directories`: nothing is set on the error path; both settings are `Some` on success. */
    method SetDirectories(args: seq<string>, env: map<string, string>) returns (r: Result<()>)
      modifies this
      ensures r.Err? <==> Directories(args, env).Err?
      ensures r.Err? ==> (r.msg == TOO_MANY_ARGS
                          && shaderBuildDir == old(shaderBuildDir) && assetsDir == old(assetsDir))
      ensures r.Ok? ==> (shaderBuildDir == Some(Directories(args, env).value.0)
                         && assetsDir == Some(Directories(args, env).value.1))
    {
      if |args| > 3 {
        return Err(TOO_MANY_ARGS);
      }
      if |args| > 1 {
        shaderBuildDir := Some(args[1]);
      } else {
        var dir := if SHADER_BUILD_DIR_VAR in env then env[SHADER_BUILD_DIR_VAR] else DEFAULT_SHADER_BUILD_DIR;
        shaderBuildDir := Some(dir);
      }
      if |args| > 2 {
        assetsDir := Some(args[2]);
      } else {
        var dir := if ASSETS_DIR_VAR in env then env[ASSETS_DIR_VAR] else DEFAULT_ASSETS_DIR;
        assetsDir := Some(dir);
      }
      r := Ok(());
    }
  }

  /** The program name, `args[0]`, never influences the outcome. */
  lemma ProgramNameUnused(args: seq<string>, name: string, env: map<string, string>)
    requires |args| > 0
    ensures Directories(args[0 := name], env) == Directories(args, env)
  {
  }

  /** A command-line directory wins over the environment, whatever the environment holds. */
  lemma ArgumentsOverrideEnvironment(args: seq<string>, env1: map<string, string>, env2: map<string, string>)
    requires |args| == 3
    ensures Directories(args, env1) == Directories(args, env2) == Ok((args[1], args[2]))
  {
  }

  /** With only the program name, the environment decides, falling back to the defaults. */
  lemma EnvironmentFallback(name: string, env: map<string, string>)
    ensures Directories([name], env).Ok?
    ensures Directories([name], env).value.0
            == (if SHADER_BUILD_DIR_VAR in env then env[SHADER_BUILD_DIR_VAR] else DEFAULT_SHADER_BUILD_DIR)
    ensures Directories([name], env).value.1
            == (if ASSETS_DIR_VAR in env then env[ASSETS_DIR_VAR] else DEFAULT_ASSETS_DIR)
    ensures Directories([name], map[]).Ok? && Directories([name], map[]).value == (DEFAULT_SHADER_BUILD_DIR, DEFAULT_ASSETS_DIR)
  {
  }

  /** Two arguments set the shader directory only; the assets directory still comes from the environment. */
  lemma ShaderArgumentAlone(name: string, shaderDir: string, env: map<string, string>)
    ensures Directories([name, shaderDir], env)
            == Ok((shaderDir, if ASSETS_DIR_VAR in env then env[ASSETS_DIR_VAR] else DEFAULT_ASSETS_DIR))
  {
  }
}
