/**
 * The build-argument validator of the SCons build: it takes the command-line targets and the
 * `ARGUMENTS` dictionary of `key=value` options, maps the one target to a target environment,
 * and validates the build profile and the profiling switch. An exception is a `Raised` outcome
 * (its message, which ends with the usage text, is not modelled); `exit(0)` after printing the
 * usage is `Exited(0)`.
 */
module BuildArgs {
  import opened Wrappers

  /** What each raised exception reports. */
  datatype ParseError = WrongArgumentCount | InvalidTarget | NoTarget | InvalidBuildProfile | InvalidProfilingType

  datatype ParseOutcome = Parsed(args: map<string, string>) | Raised(error: ParseError) | Exited(status: int)

  const CMD_LINE_ARGS: nat := 1
  const TEST_BUILD_TARGET_ACCEPTED_ARGS: seq<string> := ["build-tests", "run-tests", "run-tests-gcov"]
  const SIM_BUILD_TARGET_ACCEPTED_ARGS: seq<string> := ["build-sim", "run-sim"]
  const HARDWARE_BUILD_TARGET_ACCEPTED_ARGS: seq<string> := ["build", "run", "size", "gdb"]
  const VALID_BUILD_PROFILES: seq<string> := ["debug", "release", "fast"]
  const VALID_PROFILING_TYPES: seq<string> := ["true", "false"]

  /** The target environment of an accepted target, tried in the order of the three lists. */
  function TargetEnv(target: string): (env: Option<string>)
    ensures env == Some("tests") <==> target in TEST_BUILD_TARGET_ACCEPTED_ARGS
    ensures env == Some("sim") <==> target in SIM_BUILD_TARGET_ACCEPTED_ARGS
    ensures env == Some("hardware") <==> target in HARDWARE_BUILD_TARGET_ACCEPTED_ARGS
    ensures env.None? <==>
      target !in TEST_BUILD_TARGET_ACCEPTED_ARGS && target !in SIM_BUILD_TARGET_ACCEPTED_ARGS && target !in HARDWARE_BUILD_TARGET_ACCEPTED_ARGS
  {
    if target in TEST_BUILD_TARGET_ACCEPTED_ARGS then Some("tests")
    else if target in SIM_BUILD_TARGET_ACCEPTED_ARGS then Some("sim")
    else if target in HARDWARE_BUILD_TARGET_ACCEPTED_ARGS then Some("hardware")
    else None
  }

  /** `"help"` is not a build target. */
  lemma HelpIsNoTarget()
    ensures TargetEnv("help").None?
  {
  }

  /** The profile chosen for a target environment: the `profile` option, or by default `debug` for tests and `release` otherwise. */
  function ChosenProfile(env: string, arguments: map<string, string>): (profile: string)
    ensures "profile" !in arguments ==> profile == (if env == "tests" then "debug" else "release")
    ensures "profile" in arguments ==> profile == arguments["profile"]
  {
    var defaultBuildProfile := if env == "tests" then "debug" else "release";
    if "profile" in arguments then arguments["profile"] else defaultBuildProfile
  }

  /** The default profiles are valid ones. */
  lemma DefaultProfilesValid(env: string)
    ensures ChosenProfile(env, map[]) in VALID_BUILD_PROFILES
  {
  }

  /** The profiling switch chosen: the `profiling` option, or `false`. */
  function ChosenProfiling(arguments: map<string, string>): (profiling: string)
    ensures "profiling" !in arguments ==> profiling == "false"
    ensures "profiling" in arguments ==> profiling == arguments["profiling"]
  {
    if "profiling" in arguments then arguments["profiling"] else "false"
  }

  /** The dictionary returned for a valid command line: the three settings, and the test filter when one was given. */
  function ParsedArgs(env: string, arguments: map<string, string>): (args: map<string, string>)
    ensures args.Keys == {"TARGET_ENV", "BUILD_PROFILE", "PROFILING"} + (if "test" in arguments then {"TEST"} else {})
    ensures args["TARGET_ENV"] == env
    ensures args["BUILD_PROFILE"] == ChosenProfile(env, arguments)
    ensures args["PROFILING"] == ChosenProfiling(arguments)
    ensures "test" in arguments ==> args["TEST"] == arguments["test"]
  {
    var args := map["TARGET_ENV" := env, "BUILD_PROFILE" := ChosenProfile(env, arguments), "PROFILING" := ChosenProfiling(arguments)];
    if "test" in arguments then args["TEST" := arguments["test"]] else args
  }

  /** The SCons `ARGUMENTS` dictionary, which `parse_args` reads and partly overwrites. */
  class SConsArguments {
    var arguments: map<string, string>

    constructor(arguments: map<string, string>)
      ensures this.arguments == arguments
    {
      this.arguments := arguments;
    }

    /**
     * `parse_args` for the command-line targets `commandLineTargets`. Exactly one target is
     * accepted; `help` exits, an unknown target raises. Once the target is accepted the chosen
     * profile is written back to `ARGUMENTS["profile"]`, before it is validated, so the write
     * happens even when the profile or the profiling switch then raises.
     */
    method ParseArgs(commandLineTargets: seq<string>) returns (outcome: ParseOutcome)
      modifies this
      ensures |commandLineTargets| > CMD_LINE_ARGS ==> outcome == Raised(WrongArgumentCount) && arguments == old(arguments)
      ensures |commandLineTargets| == 0 ==> outcome == Raised(NoTarget) && arguments == old(arguments)
      ensures |commandLineTargets| == 1 && commandLineTargets[0] == "help" ==> outcome == Exited(0) && arguments == old(arguments)
      ensures |commandLineTargets| == 1 && commandLineTargets[0] != "help" && TargetEnv(commandLineTargets[0]).None? ==>
        outcome == Raised(InvalidTarget) && arguments == old(arguments)
      ensures |commandLineTargets| == 1 && TargetEnv(commandLineTargets[0]).Some? ==>
        var env := TargetEnv(commandLineTargets[0]).value;
        var profile := ChosenProfile(env, old(arguments));
        arguments == old(arguments)["profile" := profile]
        && outcome == (if profile !in VALID_BUILD_PROFILES then Raised(InvalidBuildProfile)
                       else if ChosenProfiling(old(arguments)) !in VALID_PROFILING_TYPES then Raised(InvalidProfilingType)
                       else Parsed(ParsedArgs(env, old(arguments))))
      ensures outcome.Parsed? ==>
        outcome.args["BUILD_PROFILE"] in VALID_BUILD_PROFILES && outcome.args["PROFILING"] in VALID_PROFILING_TYPES
        && outcome.args["TARGET_ENV"] in ["tests", "sim", "hardware"]
    {
      var args := map["TARGET_ENV" := "", "BUILD_PROFILE" := "", "PROFILING" := ""];
      if |commandLineTargets| > CMD_LINE_ARGS {
        return Raised(WrongArgumentCount);
      }
      if |commandLineTargets| != 0 {
        var buildTarget := commandLineTargets[0];
        if buildTarget == "help" {
          return Exited(0);
        } else if buildTarget in TEST_BUILD_TARGET_ACCEPTED_ARGS {
          args := args["TARGET_ENV" := "tests"];
        } else if buildTarget in SIM_BUILD_TARGET_ACCEPTED_ARGS {
          args := args["TARGET_ENV" := "sim"];
        } else if buildTarget in HARDWARE_BUILD_TARGET_ACCEPTED_ARGS {
          args := args["TARGET_ENV" := "hardware"];
        } else {
          return Raised(InvalidTarget);
        }
      } else {
        return Raised(NoTarget);
      }

      outcome := ParseOptions(args);
    }

    /**
     * The second half of `parse_args`, once `args["TARGET_ENV"]` is set: the profile is chosen,
     * written back to `ARGUMENTS["profile"]` and validated, then the profiling switch, then the
     * optional test filter.
     */
    method ParseOptions(args0: map<string, string>) returns (outcome: ParseOutcome)
      requires args0.Keys == {"TARGET_ENV", "BUILD_PROFILE", "PROFILING"}
      modifies this
      ensures var env := args0["TARGET_ENV"];
        var profile := ChosenProfile(env, old(arguments));
        arguments == old(arguments)["profile" := profile]
        && outcome == (if profile !in VALID_BUILD_PROFILES then Raised(InvalidBuildProfile)
                       else if ChosenProfiling(old(arguments)) !in VALID_PROFILING_TYPES then Raised(InvalidProfilingType)
                       else Parsed(ParsedArgs(env, old(arguments))))
    {
      var args := args0;
      var defaultBuildProfile := if args["TARGET_ENV"] == "tests" then "debug" else "release";
      args := args["BUILD_PROFILE" := if "profile" in arguments then arguments["profile"] else defaultBuildProfile];
      arguments := arguments["profile" := args["BUILD_PROFILE"]];
      if args["BUILD_PROFILE"] !in VALID_BUILD_PROFILES {
        return Raised(InvalidBuildProfile);
      }

      args := args["PROFILING" := if "profiling" in arguments then arguments["profiling"] else "false"];
      if args["PROFILING"] !in VALID_PROFILING_TYPES {
        return Raised(InvalidProfilingType);
      }

      if "test" in arguments {
        args := args["TEST" := arguments["test"]];
      }
      FilledArgs(args0, old(arguments));
      return Parsed(args);
    }
  }

  /** Filling in the profile, the profiling switch and the test filter gives the dictionary `ParsedArgs` describes. */
  lemma FilledArgs(args0: map<string, string>, arguments: map<string, string>)
    requires args0.Keys == {"TARGET_ENV", "BUILD_PROFILE", "PROFILING"}
    ensures var env := args0["TARGET_ENV"];
      var a := args0["BUILD_PROFILE" := ChosenProfile(env, arguments)]["PROFILING" := ChosenProfiling(arguments)];
      (if "test" in arguments then a["TEST" := arguments["test"]] else a) == ParsedArgs(env, arguments)
  {
    var env := args0["TARGET_ENV"];
    var a := args0["BUILD_PROFILE" := ChosenProfile(env, arguments)]["PROFILING" := ChosenProfiling(arguments)];
    var base := map["TARGET_ENV" := env, "BUILD_PROFILE" := ChosenProfile(env, arguments), "PROFILING" := ChosenProfiling(arguments)];
    assert a.Keys == base.Keys;
    assert a == base;
  }
}
