/**
 * The deployment tool's command line and its split of the configured hosts
 * into masters and workers.
 *
 * The argument list is given explicitly (element 0 is the program name);
 * paths are plain strings.
 */
module Deployment {
  import opened Common

  // ---------------------------------------------------------------------
  // Command-line arguments
  // ---------------------------------------------------------------------

  /** The parsed arguments: the configuration file and an optional command. */
  datatype Args = Args(config: string, command: Option<string>)

  const DefaultConfigPath: string := "config.json"
  const MissingConfigValue: string := "Missing value for config argument"
  const MissingCommandValue: string := "Missing value for command argument"

  predicate IsConfigFlag(arg: string)
  {
    arg == "-c" || arg == "--config"
  }

  predicate IsCommandFlag(arg: string)
  {
    arg == "-x" || arg == "--command"
  }

  /** An argument that is neither flag: a positional command. */
  predicate IsPositional(arg: string)
  {
    !IsConfigFlag(arg) && !IsCommandFlag(arg)
  }

  /** `x` is one of the arguments at position `i` or later. */
  predicate OccursFrom(args: seq<string>, i: nat, x: string)
  {
    exists j :: i <= j < |args| && args[j] == x
  }

  /**
   * The parse of `args` from position `i` on, with `config` and `command`
   * as set so far. A successful parse takes its config either from what was
   * set so far or from an argument at `i` or later, and likewise its command.
   */
  function ParseFrom(args: seq<string>, i: nat, config: string, command: Option<string>): (r: Result<Args, string>)
    ensures r.Err? ==> r.error in {MissingConfigValue, MissingCommandValue}
    ensures r.Ok? ==> r.value.config == config || OccursFrom(args, i, r.value.config)
    ensures r.Ok? ==> r.value.command == command || (r.value.command.Some? && OccursFrom(args, i, r.value.command.value))
    decreases |args| - i
  {
    if i >= |args| then Ok(Args(config, command))
    else if IsConfigFlag(args[i]) then
      if i + 1 < |args| then
        ParseFrom(args, i + 2, args[i + 1], command)
      else Err(MissingConfigValue)
    else if IsCommandFlag(args[i]) then
      if i + 1 < |args| then
        ParseFrom(args, i + 2, config, Some(args[i + 1]))
      else Err(MissingCommandValue)
    else
      ParseFrom(args, i + 1, config, if command.None? then Some(args[i]) else command)
  }

  /**
   * The whole parse: argument 0 is skipped, the config defaults to
   * "config.json" and the command to none. Whatever it returns comes from
   * those defaults or from an argument after the program name.
   */
  function Parse(args: seq<string>): (r: Result<Args, string>)
    ensures r.Err? ==> r.error in {MissingConfigValue, MissingCommandValue}
    ensures r.Ok? ==> r.value.config == DefaultConfigPath || OccursFrom(args, 1, r.value.config)
    ensures r.Ok? && r.value.command.Some? ==> OccursFrom(args, 1, r.value.command.value)
  {
    ParseFrom(args, 1, DefaultConfigPath, None)
  }

  /** `parse_args`, over an explicit argument list. */
  method ParseArgs(args: seq<string>) returns (r: Result<Args, string>)
    ensures r == Parse(args)
  {
    var config := DefaultConfigPath;
    var command: Option<string> := None;
    var i := 1;
    while i < |args|
      invariant 1 <= i
      invariant ParseFrom(args, i, config, command) == Parse(args)
      decreases |args| - i
    {
      if IsConfigFlag(args[i]) {
        i := i + 1;
        if i < |args| {
          config := args[i];
        } else {
          return Err(MissingConfigValue);
        }
      } else if IsCommandFlag(args[i]) {
        i := i + 1;
        if i < |args| {
          command := Some(args[i]);
        } else {
          return Err(MissingCommandValue);
        }
      } else {
        if command.None? {
          command := Some(args[i]);
        }
      }
      i := i + 1;
    }
    r := Ok(Args(config, command));
  }

  /** With only the program name (or nothing at all), the defaults are returned. */
  lemma ParseProgramNameOnly(args: seq<string>)
    requires |args| <= 1
    ensures Parse(args) == Ok(Args(DefaultConfigPath, None))
  {
  }

  /** Argument 0 is never interpreted, whatever it says. */
  lemma ParseIgnoresArgZero(a: string, b: string, rest: seq<string>)
    ensures Parse([a] + rest) == Parse([b] + rest)
  {
    ParseFromSameTail([a] + rest, [b] + rest, 1, DefaultConfigPath, None);
  }

  lemma {:induction false} ParseFromSameTail(xs: seq<string>, ys: seq<string>, i: nat, config: string, command: Option<string>)
    requires 1 <= i && 1 <= |xs| == |ys| && xs[1..] == ys[1..]
    ensures ParseFrom(xs, i, config, command) == ParseFrom(ys, i, config, command)
    decreases |xs| - i
  {
    if i < |xs| {
      assert xs[i] == ys[i] by { assert xs[i] == xs[1..][i - 1]; }
      if i + 1 < |xs| {
        assert xs[i + 1] == ys[i + 1] by { assert xs[i + 1] == xs[1..][i]; }
      }
      ParseFromSameTail(xs, ys, i + 1, config, if command.None? then Some(xs[i]) else command);
      if i + 1 < |xs| {
        ParseFromSameTail(xs, ys, i + 2, xs[i + 1], command);
        ParseFromSameTail(xs, ys, i + 2, config, Some(xs[i + 1]));
      }
    }
  }

  /**
   * A parse that succeeds on `args` stops exactly at its end: parsing
   * `args + more` carries on from there with what `args` set.
   */
  lemma {:induction false} ParseFromAppend(args: seq<string>, more: seq<string>, i: nat, config: string, command: Option<string>)
    requires i <= |args|
    requires ParseFrom(args, i, config, command).Ok?
    ensures var a := ParseFrom(args, i, config, command).value;
            ParseFrom(args + more, i, config, command) == ParseFrom(args + more, |args|, a.config, a.command)
    decreases |args| - i
  {
    var all := args + more;
    if i < |args| {
      assert all[i] == args[i];
      if IsConfigFlag(args[i]) {
        assert all[i + 1] == args[i + 1];
        ParseFromAppend(args, more, i + 2, args[i + 1], command);
      } else if IsCommandFlag(args[i]) {
        assert all[i + 1] == args[i + 1];
        ParseFromAppend(args, more, i + 2, config, Some(args[i + 1]));
      } else {
        ParseFromAppend(args, more, i + 1, config, if command.None? then Some(args[i]) else command);
      }
    }
  }

  /** A config flag and value added at the end set the config, whatever came before: the last one wins. */
  lemma ParseAppendConfig(args: seq<string>, flag: string, value: string)
    requires |args| >= 1 && Parse(args).Ok? && IsConfigFlag(flag)
    ensures Parse(args + [flag, value]) == Ok(Parse(args).value.(config := value))
  {
    ParseFromAppend(args, [flag, value], 1, DefaultConfigPath, None);
  }

  /** A command flag and value added at the end set the command, overriding any earlier command. */
  lemma ParseAppendCommand(args: seq<string>, flag: string, value: string)
    requires |args| >= 1 && Parse(args).Ok? && IsCommandFlag(flag)
    ensures Parse(args + [flag, value]) == Ok(Parse(args).value.(command := Some(value)))
  {
    ParseFromAppend(args, [flag, value], 1, DefaultConfigPath, None);
  }

  /** A positional argument added at the end becomes the command only if none is set yet: the first one wins. */
  lemma ParseAppendPositional(args: seq<string>, arg: string)
    requires |args| >= 1 && Parse(args).Ok? && IsPositional(arg)
    ensures var a := Parse(args).value;
            Parse(args + [arg]) == Ok(if a.command.None? then a.(command := Some(arg)) else a)
  {
    ParseFromAppend(args, [arg], 1, DefaultConfigPath, None);
  }

  /** A flag with no value after it is an error naming the missing value. */
  lemma ParseTrailingFlag(args: seq<string>, flag: string)
    requires |args| >= 1 && Parse(args).Ok? && !IsPositional(flag)
    ensures Parse(args + [flag]) == Err(if IsConfigFlag(flag) then MissingConfigValue else MissingCommandValue)
  {
    ParseFromAppend(args, [flag], 1, DefaultConfigPath, None);
  }

  // ---------------------------------------------------------------------
  // Masters and workers
  // ---------------------------------------------------------------------

  /**
   * `ceil(n * 0.2)`: the number of masters, a fifth rounded up. This is the
   * same computation as the autoscaler's minimum step (`AutoScaling.MinChange`);
   * the two modules are kept independent, so it is stated again here.
   */
  function NumMasters(n: nat): (r: nat)
    ensures r == (n + 4) / 5
  {
    var x := n as real * 0.2;
    var q, m := n / 5, n % 5;
    assert n == 5 * q + m;
    assert x == q as real + m as real / 5.0;
    assert x.Floor == q;
    if x.Floor as real == x then x.Floor else x.Floor + 1
  }

  /** `floor(n * 0.8)`: the number of workers, four fifths rounded down. */
  function NumWorkers(n: nat): (r: nat)
    ensures r == 4 * n / 5
  {
    var x := n as real * 0.8;
    var q, m := 4 * n / 5, 4 * n % 5;
    assert 4 * n == 5 * q + m;
    assert x == q as real + m as real / 5.0;
    x.Floor
  }

  /** In exact arithmetic the two counts add up to the number of hosts, so every host gets a role. */
  lemma RolesCoverHosts(n: nat)
    ensures NumMasters(n) + NumWorkers(n) == n
    ensures NumMasters(n) <= n
    ensures n > 0 ==> NumMasters(n) >= 1
  {
  }

  /** The smaller of two counts (the same as `AutoScaling.MinNat`, kept local to this module). */
  function Min(a: nat, b: nat): nat
  {
    if a <= b then a else b
  }

  /**
   * The master/worker split: hosts before position `NumMasters(n)` become
   * masters and the next `NumWorkers(n)` become workers, both in host order.
   */
  method Partition<H>(hosts: seq<H>) returns (masters: seq<H>, workers: seq<H>)
    ensures var n := |hosts|;
            var m := Min(NumMasters(n), n);
            && masters == hosts[..m]
            && workers == hosts[m..Min(NumMasters(n) + NumWorkers(n), n)]
  {
    var n := |hosts|;
    var numMasters := NumMasters(n);
    var numWorkers := NumWorkers(n);
    masters, workers := [], [];
    for i := 0 to n
      invariant masters == hosts[..Min(i, numMasters)]
      invariant workers == hosts[Min(i, numMasters)..Min(i, numMasters + numWorkers)]
    {
      if i < numMasters {
        masters := masters + [hosts[i]];
      } else if i < numMasters + numWorkers {
        workers := workers + [hosts[i]];
      }
    }
  }

  /**
   * The split places every host exactly once: masters then workers is the
   * host list itself, so no position lands in both lists.
   */
  lemma PartitionIsExact<H>(hosts: seq<H>, masters: seq<H>, workers: seq<H>)
    requires var n := |hosts|;
             var m := Min(NumMasters(n), n);
             masters == hosts[..m] && workers == hosts[m..Min(NumMasters(n) + NumWorkers(n), n)]
    ensures masters + workers == hosts
    ensures |masters| == NumMasters(|hosts|) && |workers| == NumWorkers(|hosts|)
    ensures |hosts| == 0 ==> masters == [] && workers == []
  {
    RolesCoverHosts(|hosts|);
  }
}
