/** scripts/load-env.js: copies the Bitbucket settings of .env.local into Forge
    variables with `forge variables set`. The file system, the dotenv parser and the
    spawned `forge` processes are inputs: whether the file exists, the parsed
    key/value map, and each spawned process's exit status. */
module LoadEnv {
  import opened Text

  /** One setting to copy, and whether Forge should store it encrypted. */
  datatype ConfigItem = ConfigItem(key: string, encrypted: bool)

  const VariableConfig: seq<ConfigItem> := [
    ConfigItem("BITBUCKET_USERNAME", true),
    ConfigItem("BITBUCKET_APP_PASSWORD", true),
    ConfigItem("BITBUCKET_WORKSPACE", false),
    ConfigItem("BITBUCKET_REPO_SLUG", false)]

  // ================================================================ arguments

  const DryRunFlag := "--dry-run"

  /** `args.includes('--dry-run')` */
  predicate IsDryRun(args: seq<string>)
  {
    DryRunFlag in args
  }

  predicate IsEnvironmentFlag(arg: string)
  {
    arg == "-e" || arg == "--environment"
  }

  /** `args.findIndex(isEnvironmentFlag)`, absent as None. */
  function FindEnvironmentFlag(args: seq<string>): (r: Option<nat>)
    ensures r.Some? ==> r.value < |args| && IsEnvironmentFlag(args[r.value])
    ensures forall j :: 0 <= j < |args| && (r.None? || j < r.value) ==> !IsEnvironmentFlag(args[j])
  {
    if args == [] then None
    else if IsEnvironmentFlag(args[0]) then Some(0)
    else match FindEnvironmentFlag(args[1..])
      case None => None
      case Some(i) => Some(i + 1)
  }

  /** `args[i]` is the first `-e` or `--environment` flag. */
  predicate FirstFlagAt(args: seq<string>, i: int)
  {
    0 <= i < |args| && IsEnvironmentFlag(args[i]) && forall j :: 0 <= j < i ==> !IsEnvironmentFlag(args[j])
  }

  /** The argument after the FIRST `-e` or `--environment`; absent when there is no
      such flag or nothing follows it. */
  function Environment(args: seq<string>): (r: Option<string>)
    ensures r.Some? <==> exists i :: FirstFlagAt(args, i) && i + 1 < |args|
    ensures r.Some? ==> exists i :: FirstFlagAt(args, i) && r.value == args[i + 1]
  {
    var flag := FindEnvironmentFlag(args);
    assert forall i :: FirstFlagAt(args, i) ==> flag == Some(i);
    if flag.Some? && flag.value + 1 < |args| then Some(args[flag.value + 1]) else None
  }

  /** The arguments of one `forge variables set` call. */
  function ForgeArgs(key: string, value: string, encrypted: bool, environment: Option<string>): (r: seq<string>)
  {
    ["variables", "set"] + (if encrypted then ["--encrypt"] else [])
    + (if Truthy(environment) then ["--environment", environment.value] else []) + [key, value]
  }

  /** `buildForgeArgs`, pushing onto the argument list. */
  method BuildForgeArgs(key: string, value: string, encrypted: bool, environment: Option<string>)
    returns (forgeArgs: seq<string>)
    ensures forgeArgs == ForgeArgs(key, value, encrypted, environment)
  {
    forgeArgs := ["variables", "set"];
    if encrypted {
      forgeArgs := forgeArgs + ["--encrypt"];
    }
    if Truthy(environment) {
      forgeArgs := forgeArgs + ["--environment", environment.value];
    }
    forgeArgs := forgeArgs + [key, value];
  }

  /** The shape of a `forge variables set` command: the subcommand first, the key and
      value last, "--encrypt" exactly for encrypted settings, and the environment
      option exactly when an environment was given, in that order. */
  lemma ForgeArgsShape(key: string, value: string, encrypted: bool, environment: Option<string>)
    requires key != "--encrypt" && value != "--encrypt" && key != "--environment" && value != "--environment"
    requires environment.Some? ==> environment.value != "--encrypt" && environment.value != "--environment"
    ensures var r := ForgeArgs(key, value, encrypted, environment);
      && |r| == 4 + (if encrypted then 1 else 0) + (if Truthy(environment) then 2 else 0)
      && r[..2] == ["variables", "set"] && r[|r| - 2..] == [key, value]
      && ("--encrypt" in r <==> encrypted)
      && (encrypted ==> r[2] == "--encrypt")
      && ("--environment" in r <==> Truthy(environment))
      && (Truthy(environment) ==> r[|r| - 4..|r| - 2] == ["--environment", environment.value])
  {
    var r := ForgeArgs(key, value, encrypted, environment);
    var opts := (if encrypted then ["--encrypt"] else []) + (if Truthy(environment) then ["--environment", environment.value] else []);
    assert r == ["variables", "set"] + opts + [key, value];
    assert forall a :: a in r <==> a in ["variables", "set"] || a in opts || a in [key, value];
  }

  // ================================================================ masking

  /** `maskValue`: "<empty>" for nothing, "****" for up to four characters, otherwise
      the first two and the last two characters around "***". */
  function MaskValue(value: Option<string>): (r: string)
    ensures !Truthy(value) ==> r == "<empty>"
    ensures Truthy(value) && |value.value| <= 4 ==> r == "****"
    ensures Truthy(value) && |value.value| > 4 ==>
      |r| == 7 && r[..2] == value.value[..2] && r[2..5] == "***" && r[5..] == value.value[|value.value| - 2..]
  {
    if !Truthy(value) then "<empty>"
    else if |value.value| <= 4 then "****"
    else value.value[..2] + "***" + value.value[|value.value| - 2..]
  }

  /** The mask reveals at most the first two and the last two characters: values that
      agree there are masked alike, whatever lies between. */
  lemma MaskHidesTheMiddle(a: string, b: string)
    requires |a| > 4 && |b| > 4
    requires a[..2] == b[..2] && a[|a| - 2..] == b[|b| - 2..]
    ensures MaskValue(Some(a)) == MaskValue(Some(b))
  {
  }

  // ================================================================ the missing-key check

  /** What dotenv parsed for a key, absent as None. */
  function Parsed(parsed: map<string, string>, key: string): (r: Option<string>)
  {
    if key in parsed then Some(parsed[key]) else None
  }

  /** The keys of `items`, in order, whose parsed value is absent or empty. */
  function MissingKeys(items: seq<ConfigItem>, parsed: map<string, string>): (r: seq<string>)
    ensures forall k :: k in r <==> (exists i :: 0 <= i < |items| && items[i].key == k) && !Truthy(Parsed(parsed, k))
    ensures |r| <= |items|
  {
    if items == [] then []
    else
      var rest := MissingKeys(items[1..], parsed);
      assert forall i :: 1 <= i < |items| ==> items[i] == items[1..][i - 1];
      (if !Truthy(Parsed(parsed, items[0].key)) then [items[0].key] else []) + rest
  }

  /** The keys of `items`, in order. */
  function Keys(items: seq<ConfigItem>): (r: seq<string>)
    ensures |r| == |items| && forall i :: 0 <= i < |items| ==> r[i] == items[i].key
  {
    seq(|items|, i requires 0 <= i < |items| => items[i].key)
  }

  /** The missing keys are reported in configuration order. */
  lemma {:induction false} MissingKeysInOrder(items: seq<ConfigItem>, parsed: map<string, string>)
    ensures exists idx :: SelectedAt(MissingKeys(items, parsed), Keys(items), idx)
  {
    if items == [] {
      var none: seq<nat> := [];
      assert MissingKeys(items, parsed) == [];
      assert SelectedAt(MissingKeys(items, parsed), Keys(items), none);
    } else {
      MissingKeysInOrder(items[1..], parsed);
      var rest := MissingKeys(items[1..], parsed);
      var idx :| SelectedAt(rest, Keys(items[1..]), idx);
      assert Keys(items)[1..] == Keys(items[1..]);
      SelectedAtShift(rest, Keys(items), idx);
      if !Truthy(Parsed(parsed, items[0].key)) {
        assert MissingKeys(items, parsed) == [Keys(items)[0]] + rest;
        assert SelectedAt(MissingKeys(items, parsed), Keys(items), [0] + Shift(idx));
      } else {
        assert MissingKeys(items, parsed) == rest;
        assert SelectedAt(MissingKeys(items, parsed), Keys(items), Shift(idx));
      }
    }
  }

  /** Every configured setting has a non-empty value exactly when nothing is missing. */
  lemma NothingMissing(parsed: map<string, string>)
    ensures MissingKeys(VariableConfig, parsed) == [] <==>
      forall i :: 0 <= i < |VariableConfig| ==> Truthy(Parsed(parsed, VariableConfig[i].key))
  {
    if MissingKeys(VariableConfig, parsed) == [] {
      forall i | 0 <= i < |VariableConfig| ensures Truthy(Parsed(parsed, VariableConfig[i].key)) {
        var k := VariableConfig[i].key;
        assert k !in MissingKeys(VariableConfig, parsed);
      }
    } else {
      assert MissingKeys(VariableConfig, parsed)[0] in MissingKeys(VariableConfig, parsed);
    }
  }

  // ================================================================ setting the variables

  /** `result.status ?? 1`: a process without an exit status counts as a failure. */
  function ExitCode(status: Option<int>): (r: int)
  {
    if status.Some? then status.value else 1
  }

  /** How the set loop ends: the exit code, and the commands spawned in order. */
  datatype Completion = Completion(exitCode: int, spawned: seq<seq<string>>)

  /** Reference definition of the set loop over `items`, `statuses[i]` being what the
      i-th spawned process returns: a dry run spawns nothing and succeeds; otherwise
      the first non-zero exit code ends the loop and becomes the script's. */
  function SetAll(items: seq<ConfigItem>, parsed: map<string, string>, environment: Option<string>,
                  isDryRun: bool, statuses: seq<Option<int>>): (r: Completion)
    requires |statuses| == |items|
    requires forall i :: 0 <= i < |items| ==> items[i].key in parsed
    ensures |r.spawned| <= |items|
    ensures isDryRun ==> r == Completion(0, [])
  {
    if items == [] || isDryRun then Completion(0, [])
    else
      var item := items[0];
      var command := ForgeArgs(item.key, parsed[item.key], item.encrypted, environment);
      var code := ExitCode(statuses[0]);
      if code != 0 then Completion(code, [command])
      else
        assert forall i :: 1 <= i < |items| ==> items[i] == items[1..][i - 1];
        var rest := SetAll(items[1..], parsed, environment, isDryRun, statuses[1..]);
        Completion(rest.exitCode, [command] + rest.spawned)
  }

  /** The loop stops at the first failure: every process before the last one spawned
      succeeded, a non-zero exit code is the last process's, and exit code 0 means
      every setting was set. */
  lemma {:induction false} SetAllStopsAtFirstFailure(items: seq<ConfigItem>, parsed: map<string, string>,
                                                    environment: Option<string>, statuses: seq<Option<int>>)
    requires |statuses| == |items|
    requires forall i :: 0 <= i < |items| ==> items[i].key in parsed
    ensures var r := SetAll(items, parsed, environment, false, statuses);
      && (forall i :: 0 <= i < |r.spawned| ==>
            r.spawned[i] == ForgeArgs(items[i].key, parsed[items[i].key], items[i].encrypted, environment))
      && (forall i :: 0 <= i < |r.spawned| - 1 ==> ExitCode(statuses[i]) == 0)
      && (r.exitCode != 0 ==> |r.spawned| > 0 && r.exitCode == ExitCode(statuses[|r.spawned| - 1]))
      && (r.exitCode == 0 <==> forall i :: 0 <= i < |items| ==> ExitCode(statuses[i]) == 0)
      && (r.exitCode == 0 ==> |r.spawned| == |items|)
    decreases |items|
  {
    if items != [] {
      assert forall i :: 1 <= i < |items| ==> items[i] == items[1..][i - 1];
      SetAllStopsAtFirstFailure(items[1..], parsed, environment, statuses[1..]);
    }
  }

  /** `runForgeVariablesSet`: the exit code of one `forge variables set`, 0 on a dry run. */
  method RunForgeVariablesSet(item: ConfigItem, value: string, environment: Option<string>, isDryRun: bool,
                              status: Option<int>) returns (exitCode: int, spawned: seq<seq<string>>)
    ensures isDryRun ==> exitCode == 0 && spawned == []
    ensures !isDryRun ==> exitCode == ExitCode(status) && spawned == [ForgeArgs(item.key, value, item.encrypted, environment)]
  {
    var forgeArgs := BuildForgeArgs(item.key, value, item.encrypted, environment);
    if isDryRun {
      return 0, [];
    }
    return ExitCode(status), [forgeArgs];
  }

  /** One step of the set loop, on the suffix that starts at `i`. */
  lemma SetAllStep(items: seq<ConfigItem>, parsed: map<string, string>, environment: Option<string>,
                   isDryRun: bool, statuses: seq<Option<int>>, i: nat)
    requires |statuses| == |items| && i < |items|
    requires forall j :: 0 <= j < |items| ==> items[j].key in parsed
    ensures var command := ForgeArgs(items[i].key, parsed[items[i].key], items[i].encrypted, environment);
      var code := ExitCode(statuses[i]);
      SetAll(items[i..], parsed, environment, isDryRun, statuses[i..]) ==
        if isDryRun then Completion(0, [])
        else if code != 0 then Completion(code, [command])
        else var rest := SetAll(items[i + 1..], parsed, environment, isDryRun, statuses[i + 1..]);
          Completion(rest.exitCode, [command] + rest.spawned)
  {
    assert items[i..][0] == items[i] && statuses[i..][0] == statuses[i];
    assert items[i..][1..] == items[i + 1..] && statuses[i..][1..] == statuses[i + 1..];
  }

  /** The set loop of `main`, over the configured `items`. */
  method SetVariables(items: seq<ConfigItem>, parsed: map<string, string>, environment: Option<string>, isDryRun: bool,
                      statuses: seq<Option<int>>) returns (r: Completion)
    requires |statuses| == |items|
    requires forall i :: 0 <= i < |items| ==> items[i].key in parsed
    ensures r == SetAll(items, parsed, environment, isDryRun, statuses)
  {
    var spawned: seq<seq<string>> := [];
    var i := 0;
    while i < |items|
      invariant 0 <= i <= |items|
      invariant SetAll(items, parsed, environment, isDryRun, statuses) ==
        var rest := SetAll(items[i..], parsed, environment, isDryRun, statuses[i..]);
        Completion(rest.exitCode, spawned + rest.spawned)
    {
      var item := items[i];
      var exitCode, commands := RunForgeVariablesSet(item, parsed[item.key], environment, isDryRun, statuses[i]);
      SetAllStep(items, parsed, environment, isDryRun, statuses, i);
      if exitCode != 0 {
        return Completion(exitCode, spawned + commands);
      }
      ghost var rest := SetAll(items[i + 1..], parsed, environment, isDryRun, statuses[i + 1..]);
      assert spawned + commands + rest.spawned == spawned + (commands + rest.spawned);
      spawned := spawned + commands;
      i := i + 1;
    }
    return Completion(0, spawned);
  }

  /** `main` as a function of its inputs: a missing file or a missing key exits with 1
      before anything is set; otherwise the set loop decides. */
  function LoadEnvOutcome(args: seq<string>, envFileExists: bool, parsed: map<string, string>,
                          statuses: seq<Option<int>>): (r: Completion)
    requires |statuses| == |VariableConfig|
  {
    if !envFileExists then Completion(1, [])
    else if MissingKeys(VariableConfig, parsed) != [] then Completion(1, [])
    else
      NothingMissing(parsed);
      SetAll(VariableConfig, parsed, Environment(args), IsDryRun(args), statuses)
  }

  /** `main` step by step. */
  method LoadEnvMain(args: seq<string>, envFileExists: bool, parsed: map<string, string>, statuses: seq<Option<int>>)
    returns (r: Completion)
    requires |statuses| == |VariableConfig|
    ensures r == LoadEnvOutcome(args, envFileExists, parsed, statuses)
  {
    if !envFileExists {
      return Completion(1, []);
    }
    var missing := MissingKeys(VariableConfig, parsed);
    if |missing| > 0 {
      return Completion(1, []);
    }
    NothingMissing(parsed);
    r := SetVariables(VariableConfig, parsed, Environment(args), IsDryRun(args), statuses);
  }

  /** A run that gets past the checks: a dry run sets nothing and exits 0; a real run
      exits 0 exactly when every `forge` call succeeded, having spawned one command
      per setting in configuration order, and otherwise exits with the first failing
      call's code; a missing key always exits 1 without spawning anything. */
  lemma LoadEnvOutcomes(args: seq<string>, parsed: map<string, string>, statuses: seq<Option<int>>)
    requires |statuses| == |VariableConfig|
    ensures MissingKeys(VariableConfig, parsed) != [] ==> LoadEnvOutcome(args, true, parsed, statuses) == Completion(1, [])
    ensures MissingKeys(VariableConfig, parsed) == [] && IsDryRun(args) ==>
      LoadEnvOutcome(args, true, parsed, statuses) == Completion(0, [])
    ensures MissingKeys(VariableConfig, parsed) == [] && !IsDryRun(args) ==>
      var r := LoadEnvOutcome(args, true, parsed, statuses);
      && (r.exitCode == 0 <==> forall i :: 0 <= i < |VariableConfig| ==> ExitCode(statuses[i]) == 0)
      && (r.exitCode == 0 ==> |r.spawned| == |VariableConfig|)
      && (r.exitCode != 0 ==> |r.spawned| > 0 && r.exitCode == ExitCode(statuses[|r.spawned| - 1]))
  {
    if MissingKeys(VariableConfig, parsed) == [] {
      NothingMissing(parsed);
      if !IsDryRun(args) {
        SetAllStopsAtFirstFailure(VariableConfig, parsed, Environment(args), statuses);
      }
    }
  }
}
