/**
 * `parseArgs`: the agent runner's command-line flag parser. It walks the
 * arguments with an index; value flags take the next argument (or nothing,
 * when there is none) and skip it.
 */
module CliArgs {
  import opened Wrappers

  datatype CliOptions = CliOptions(
    capabilityId: Option<string>,
    prompt: Option<string>,
    check: bool,
    planOnly: bool,
    simulateId: Option<string>,
    dryRunOnly: bool,
    envFiles: seq<string>,
    autoApprove: bool)

  const Defaults := CliOptions(None, None, true, false, None, false, [], false)

  /** The `case` labels of the `switch`; every other token falls to `default`. */
  datatype Flag = CapabilityFlag | PromptFlag | NoCheckFlag | CheckFlag | PlanOnlyFlag
                | SimulateFlag | DryRunOnlyFlag | EnvFlag | AutoApproveFlag | OtherToken

  function Classify(t: string): Flag {
    if t == "--capability" || t == "-c" then CapabilityFlag
    else if t == "--prompt" || t == "-p" then PromptFlag
    else if t == "--no-check" then NoCheckFlag
    else if t == "--check" then CheckFlag
    else if t == "--plan-only" then PlanOnlyFlag
    else if t == "--simulate" then SimulateFlag
    else if t == "--dry-run-only" then DryRunOnlyFlag
    else if t == "--env" || t == "--env-file" then EnvFlag
    else if t == "--auto-approve" then AutoApproveFlag
    else OtherToken
  }

  /** The check cases are recognised by exactly their spellings. */
  lemma CheckSpellings(t: string)
    ensures Classify(t) == CheckFlag <==> t == "--check"
    ensures Classify(t) == NoCheckFlag <==> t == "--no-check"
  {
  }

  /** So is the env-file case. */
  lemma EnvSpellings(t: string)
    ensures Classify(t) == EnvFlag <==> t == "--env" || t == "--env-file"
  {
  }

  /** Flags that take the following argument as their value. */
  predicate TakesValue(f: Flag) {
    f in {CapabilityFlag, PromptFlag, SimulateFlag, EnvFlag}
  }

  /** `argv[i + 1]`: the argument after position 0 of `rest`, if there is one. */
  function NextArg(rest: seq<string>): Option<string> {
    if |rest| > 1 then Some(rest[1]) else None
  }

  /** The effect of a token of kind `f`, followed by `next`, on the options. */
  function Apply(f: Flag, next: Option<string>, o: CliOptions): CliOptions {
    match f
    case CapabilityFlag => o.(capabilityId := next)
    case PromptFlag => o.(prompt := next)
    case NoCheckFlag => o.(check := false)
    case CheckFlag => o.(check := true)
    case PlanOnlyFlag => o.(planOnly := true)
    case SimulateFlag => o.(simulateId := next)
    case DryRunOnlyFlag => o.(dryRunOnly := true)
    case EnvFlag =>
      // `if (argv[i + 1])`: a missing or empty value is not recorded
      if next.Some? && next.value != "" then o.(envFiles := o.envFiles + [next.value]) else o
    case AutoApproveFlag => o.(autoApprove := true)
    case OtherToken => o
  }

  /** How many arguments the token at the head of `rest` uses up (the flag and maybe its value). */
  function Width(f: Flag): nat {
    if TakesValue(f) then 2 else 1
  }

  /** The options after reading `rest` from its first token on, starting from `o`. */
  function ParseFrom(rest: seq<string>, o: CliOptions): CliOptions
    decreases |rest|
  {
    if rest == [] then o
    else ParseFrom(AfterHead(rest), Apply(Classify(rest[0]), NextArg(rest), o))
  }

  /** What is left once the head token (and its value, if it takes one) is read; `i += 1` may step past the end. */
  function AfterHead(rest: seq<string>): (tail: seq<string>)
    requires rest != []
    ensures |tail| < |rest|
    ensures forall x :: x in tail ==> x in rest
  {
    var w := Width(Classify(rest[0]));
    if w <= |rest| then rest[w..] else []
  }

  function Suffix(argv: seq<string>, i: nat): seq<string> {
    if i <= |argv| then argv[i..] else []
  }

  /** `parseArgs(argv)`: the index walk of the runner. */
  method ParseArgs(argv: seq<string>) returns (options: CliOptions)
    ensures options == ParseFrom(argv, Defaults)
  {
    options := Defaults;
    var i := 0;
    while i < |argv|
      invariant ParseFrom(Suffix(argv, i), options) == ParseFrom(argv, Defaults)
      decreases |argv| - i
    {
      var next := if i + 1 < |argv| then Some(argv[i + 1]) else None;
      ParseStep(argv, i, options);
      var skipValue;
      options, skipValue := SwitchCase(Classify(argv[i]), next, options);
      if skipValue {
        i := i + 1;
      }
      i := i + 1;
    }
    assert Suffix(argv, i) == [];
  }

  /** The body of the `switch`: the new options, and whether the case also did `i += 1` past a value. */
  method SwitchCase(flag: Flag, next: Option<string>, options: CliOptions) returns (updated: CliOptions, skipValue: bool)
    ensures updated == Apply(flag, next, options)
    ensures skipValue <==> TakesValue(flag)
  {
    updated, skipValue := options, false;
    match flag {
      case CapabilityFlag =>
        updated, skipValue := options.(capabilityId := next), true;
      case PromptFlag =>
        updated, skipValue := options.(prompt := next), true;
      case NoCheckFlag =>
        updated := options.(check := false);
      case CheckFlag =>
        updated := options.(check := true);
      case PlanOnlyFlag =>
        updated := options.(planOnly := true);
      case SimulateFlag =>
        updated, skipValue := options.(simulateId := next), true;
      case DryRunOnlyFlag =>
        updated := options.(dryRunOnly := true);
      case EnvFlag =>
        if next.Some? && next.value != "" {
          updated := options.(envFiles := options.envFiles + [next.value]);
        }
        skipValue := true;
      case AutoApproveFlag =>
        updated := options.(autoApprove := true);
      case OtherToken =>
    }
  }

  /** One turn of the loop: the token at `i` (and its value) read off the front. */
  lemma ParseStep(argv: seq<string>, i: nat, o: CliOptions)
    requires i < |argv|
    ensures ParseFrom(Suffix(argv, i), o)
         == ParseFrom(Suffix(argv, i + Width(Classify(argv[i]))),
                      Apply(Classify(argv[i]), if i + 1 < |argv| then Some(argv[i + 1]) else None, o))
  {
    var rest := argv[i..];
    assert rest[0] == argv[i];
    assert AfterHead(rest) == Suffix(argv, i + Width(Classify(argv[i])));
  }

  // ---- Properties ----

  /** Only `--check` and `--no-check` touch the check flag. */
  lemma ApplyCheck(t: string, next: Option<string>, o: CliOptions)
    ensures Apply(Classify(t), next, o).check == if t == "--check" then true else if t == "--no-check" then false else o.check
  {
    CheckSpellings(t);
  }

  /** Only `--env` and `--env-file` with a non-empty value add an env file. */
  lemma ApplyEnv(t: string, next: Option<string>, o: CliOptions)
    ensures Apply(Classify(t), next, o).envFiles
         == if (t == "--env" || t == "--env-file") && next.Some? && next.value != "" then o.envFiles + [next.value] else o.envFiles
  {
    EnvSpellings(t);
  }

  /** Only a value flag looks at the following argument. */
  lemma ApplyIgnoresNext(f: Flag, n1: Option<string>, n2: Option<string>, o: CliOptions)
    requires !TakesValue(f)
    ensures Apply(f, n1, o) == Apply(f, n2, o)
  {
  }

  /** One flag without a value, read off the front. */
  lemma FlagStep(t: string, rest: seq<string>, o: CliOptions)
    requires !TakesValue(Classify(t))
    ensures ParseFrom([t] + rest, o) == ParseFrom(rest, Apply(Classify(t), None, o))
  {
    assert ([t] + rest)[1..] == rest;
    ApplyIgnoresNext(Classify(t), NextArg([t] + rest), None, o);
  }

  /** One value flag and its value, read off the front. */
  lemma ValueStep(t: string, v: string, rest: seq<string>, o: CliOptions)
    requires TakesValue(Classify(t))
    ensures ParseFrom([t, v] + rest, o) == ParseFrom(rest, Apply(Classify(t), Some(v), o))
  {
    assert ([t, v] + rest)[2..] == rest;
  }

  /** An unknown token is skipped and changes nothing. */
  lemma UnknownTokenIgnored(t: string, rest: seq<string>, o: CliOptions)
    requires Classify(t) == OtherToken
    ensures ParseFrom([t] + rest, o) == ParseFrom(rest, o)
  {
    assert ([t] + rest)[1..] == rest;
  }

  /** `argv` is read to its end without a value flag missing its value. */
  predicate Complete(argv: seq<string>)
    decreases |argv|
  {
    argv == [] || (Width(Classify(argv[0])) <= |argv| && Complete(argv[Width(Classify(argv[0]))..]))
  }

  /** Reading a complete prefix and then the rest is reading the whole. */
  lemma {:induction false} ParseConcat(a: seq<string>, b: seq<string>, o: CliOptions)
    requires Complete(a)
    ensures ParseFrom(a + b, o) == ParseFrom(b, ParseFrom(a, o))
    decreases |a|
  {
    if a == [] {
      assert a + b == b;
    } else {
      var f := Classify(a[0]);
      var w := Width(f);
      assert (a + b)[0] == a[0];
      assert AfterHead(a + b) == a[w..] + b;
      assert AfterHead(a) == a[w..];
      if !TakesValue(f) {
        ApplyIgnoresNext(f, NextArg(a + b), NextArg(a), o);
      }
      ParseConcat(a[w..], b, Apply(f, NextArg(a), o));
    }
  }

  /** Arguments without `--check` or `--no-check` leave the check flag as it was. */
  lemma {:induction false} CheckUntouched(rest: seq<string>, o: CliOptions)
    requires "--check" !in rest && "--no-check" !in rest
    ensures ParseFrom(rest, o).check == o.check
    decreases |rest|
  {
    if rest != [] {
      assert rest[0] in rest;
      ApplyCheck(rest[0], NextArg(rest), o);
      CheckUntouched(AfterHead(rest), Apply(Classify(rest[0]), NextArg(rest), o));
    }
  }

  /** The last `--check` / `--no-check` decides the check flag. */
  lemma LastCheckFlagWins(a: seq<string>, flag: string, b: seq<string>, o: CliOptions)
    requires Complete(a)
    requires flag == "--check" || flag == "--no-check"
    requires "--check" !in b && "--no-check" !in b
    ensures ParseFrom(a + [flag] + b, o).check == (flag == "--check")
  {
    ParseConcat(a, [flag] + b, o);
    assert a + [flag] + b == a + ([flag] + b);
    CheckFlagThenRest(flag, b, ParseFrom(a, o));
  }

  lemma CheckFlagThenRest(flag: string, b: seq<string>, o: CliOptions)
    requires flag == "--check" || flag == "--no-check"
    requires "--check" !in b && "--no-check" !in b
    ensures ParseFrom([flag] + b, o).check == (flag == "--check")
  {
    FlagStep(flag, b, o);
    ApplyCheck(flag, None, o);
    CheckUntouched(b, Apply(Classify(flag), None, o));
  }

  /** A value flag takes the next argument as its value, whatever it looks like. */
  lemma ValueFlagConsumesNext(flag: string, v: string, rest: seq<string>, o: CliOptions)
    requires flag == "--prompt" || flag == "-p"
    ensures ParseFrom([flag, v] + rest, o) == ParseFrom(rest, o.(prompt := Some(v)))
  {
    assert ([flag, v] + rest)[2..] == rest;
  }

  /** `--env` / `--env-file` as the last argument skips past the end and adds nothing. */
  lemma TrailingEnvFlagAddsNothing(a: seq<string>, flag: string, o: CliOptions)
    requires Complete(a)
    requires flag == "--env" || flag == "--env-file"
    ensures ParseFrom(a + [flag], o).envFiles == ParseFrom(a, o).envFiles
  {
    ParseConcat(a, [flag], o);
  }

  /** `--env` followed by an empty argument consumes it and records nothing. */
  lemma EmptyEnvValueSkipped(flag: string, rest: seq<string>, o: CliOptions)
    requires flag == "--env" || flag == "--env-file"
    ensures ParseFrom([flag, ""] + rest, o) == ParseFrom(rest, o)
  {
    assert ([flag, ""] + rest)[2..] == rest;
  }

  /** Only `--env` / `--env-file` values are collected, in order, and never an empty one. */
  lemma {:induction false} EnvFilesCollected(rest: seq<string>, o: CliOptions)
    ensures o.envFiles <= ParseFrom(rest, o).envFiles
    ensures forall i :: |o.envFiles| <= i < |ParseFrom(rest, o).envFiles| ==>
      ParseFrom(rest, o).envFiles[i] != "" && ParseFrom(rest, o).envFiles[i] in rest
    decreases |rest|
  {
    if rest != [] {
      var o' := Apply(Classify(rest[0]), NextArg(rest), o);
      ApplyEnv(rest[0], NextArg(rest), o);
      EnvFilesCollected(AfterHead(rest), o');
      if |rest| > 1 {
        assert rest[1] in rest;
      }
    }
  }

  // ---- The runner's own test cases ----

  lemma NoFlagsGiveDefaults()
    ensures ParseFrom([], Defaults) == CliOptions(None, None, true, false, None, false, [], false)
  {
  }

  lemma ClassifyTestTokens()
    ensures Classify("--plan-only") == PlanOnlyFlag && Classify("--simulate") == SimulateFlag
    ensures Classify("--dry-run-only") == DryRunOnlyFlag && Classify("--capability") == CapabilityFlag
    ensures Classify("--prompt") == PromptFlag && Classify("--env-file") == EnvFlag
    ensures Classify("--auto-approve") == AutoApproveFlag
  {
  }

  /** A flag, a value flag with its value, and a flag. */
  lemma FlagValueFlag(t1: string, t2: string, v: string, t3: string, o: CliOptions)
    requires !TakesValue(Classify(t1)) && TakesValue(Classify(t2)) && !TakesValue(Classify(t3))
    ensures ParseFrom([t1, t2, v, t3], o)
         == Apply(Classify(t3), None, Apply(Classify(t2), Some(v), Apply(Classify(t1), None, o)))
  {
    var o1 := Apply(Classify(t1), None, o);
    var o2 := Apply(Classify(t2), Some(v), o1);
    assert [t1, t2, v, t3] == [t1] + ([t2, v] + [t3]);
    FlagStep(t3, [], o2);
    assert [t3] + [] == [t3];
    ValueStep(t2, v, [t3], o1);
    FlagStep(t1, [t2, v] + [t3], o);
  }

  /** Two value flags with their values, then a flag, then the rest. */
  lemma ValueValueFlag(t1: string, v1: string, t2: string, v2: string, t3: string, tail: seq<string>, o: CliOptions)
    requires TakesValue(Classify(t1)) && TakesValue(Classify(t2)) && !TakesValue(Classify(t3))
    ensures ParseFrom([t1, v1, t2, v2, t3] + tail, o)
         == ParseFrom(tail, Apply(Classify(t3), None, Apply(Classify(t2), Some(v2), Apply(Classify(t1), Some(v1), o))))
  {
    var o1 := Apply(Classify(t1), Some(v1), o);
    var o2 := Apply(Classify(t2), Some(v2), o1);
    assert [t1, v1, t2, v2, t3] + tail == [t1, v1] + ([t2, v2] + ([t3] + tail));
    FlagStep(t3, tail, o2);
    ValueStep(t2, v2, [t3] + tail, o1);
    ValueStep(t1, v1, [t2, v2] + ([t3] + tail), o);
  }

  lemma ParsesTail(o: CliOptions)
    ensures ParseFrom(["--plan-only", "--simulate", "abc123", "--dry-run-only"], o)
         == o.(planOnly := true, simulateId := Some("abc123"), dryRunOnly := true)
  {
    ClassifyTestTokens();
    FlagValueFlag("--plan-only", "--simulate", "abc123", "--dry-run-only", o);
  }

  lemma ParsesHead(tail: seq<string>)
    ensures ParseFrom(["--capability", "n00t.test", "--prompt", "hello", "--no-check"] + tail, Defaults)
         == ParseFrom(tail, Defaults.(capabilityId := Some("n00t.test"), prompt := Some("hello"), check := false))
  {
    ClassifyTestTokens();
    assert Classify("--no-check") == NoCheckFlag;
    ValueValueFlag("--capability", "n00t.test", "--prompt", "hello", "--no-check", tail, Defaults);
  }

  lemma ParsesBooleanAndValueFlags()
    ensures ParseFrom(["--capability", "n00t.test", "--prompt", "hello", "--no-check", "--plan-only",
                       "--simulate", "abc123", "--dry-run-only"], Defaults)
         == CliOptions(Some("n00t.test"), Some("hello"), false, true, Some("abc123"), true, [], false)
  {
    var tail := ["--plan-only", "--simulate", "abc123", "--dry-run-only"];
    ParsesHead(tail);
    ParsesTail(Defaults.(capabilityId := Some("n00t.test"), prompt := Some("hello"), check := false));
    assert ["--capability", "n00t.test", "--prompt", "hello", "--no-check"] + tail
        == ["--capability", "n00t.test", "--prompt", "hello", "--no-check", "--plan-only",
            "--simulate", "abc123", "--dry-run-only"];
  }

  lemma CollectsEnvBundles()
    ensures var r := ParseFrom(["--env-file", "secret.env", "--env", "another.env", "--auto-approve"], Defaults);
      r.envFiles == ["secret.env", "another.env"] && r.autoApprove
  {
    ClassifyTestTokens();
    ValueValueFlag("--env-file", "secret.env", "--env", "another.env", "--auto-approve", [], Defaults);
    assert ["--env-file", "secret.env", "--env", "another.env", "--auto-approve"] + []
        == ["--env-file", "secret.env", "--env", "another.env", "--auto-approve"];
  }
}
