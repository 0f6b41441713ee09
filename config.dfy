// The runtime configuration: command-line arguments read as "--key value"
// pairs into a map, and typed getters with defaults over that map.

module RuntimeConfiguration {
  import opened Base

  const ArgumentPrefix: string := "--"
  const ArgumentFormatErrorMessage: string := "Invalid argument format. Required format: --property value"

  function MissingValueMessage(argumentName: string): string
  {
    "Missing argument value for a provided argument: " + argumentName + "."
  }

  /** The key of an argument: the argument trimmed, with every "--" removed. */
  function ArgumentName(argument: string): string
  {
    RemoveAll(Trim(argument), ArgumentPrefix)
  }

  predicate HasDoubleDash(s: string)
  {
    exists k :: 0 <= k < |s| - 1 && s[k] == '-' && s[k + 1] == '-'
  }

  /** Removing every "--" left to right leaves no "--" behind. */
  lemma {:induction false} RemoveAllDashesLeavesNone(s: string)
    ensures !HasDoubleDash(RemoveAll(s, ArgumentPrefix))
    ensures |s| > 0 && s[0] != '-' ==> |RemoveAll(s, ArgumentPrefix)| > 0 && RemoveAll(s, ArgumentPrefix)[0] == s[0]
    decreases |s|
  {
    var r := RemoveAll(s, ArgumentPrefix);
    if |s| < 2 {
    } else if s[..2] == ArgumentPrefix {
      RemoveAllDashesLeavesNone(s[2..]);
    } else {
      RemoveAllDashesLeavesNone(s[1..]);
      var tail := RemoveAll(s[1..], ArgumentPrefix);
      assert r == [s[0]] + tail;
      assert s[..2] == [s[0], s[1]];
      forall k | 0 <= k < |r| - 1
        ensures !(r[k] == '-' && r[k + 1] == '-')
      {
        if k > 0 {
          assert r[k] == tail[k - 1] && r[k + 1] == tail[k];
        }
      }
    }
  }

  /** A key never holds "--". */
  lemma ArgumentNameHasNoDoubleDash(argument: string)
    ensures !HasDoubleDash(ArgumentName(argument))
  {
    RemoveAllDashesLeavesNone(Trim(argument));
  }

  /**
   * The arguments read pairwise: a key that does not start with "--", or a
   * missing value (the end of the arguments, or a value that starts with
   * "--"), raises a CliException; for a repeated key the last value wins.
   */
  function ParseArguments(args: seq<string>): (r: Result<map<string, string>>)
    ensures r.Err? ==> r.error.CliException?
    decreases |args|
  {
    if args == [] then Ok(map[])
    else if !StartsWith(args[0], ArgumentPrefix) then Err(CliException(ArgumentFormatErrorMessage))
    else
      var argumentName := ArgumentName(args[0]);
      if |args| < 2 || StartsWith(args[1], ArgumentPrefix) then Err(CliException(MissingValueMessage(argumentName)))
      else
        var rest :- ParseArguments(args[2..]);
        Ok(map[argumentName := args[1]] + rest)
  }

  /** An odd number of arguments always leaves a key without its value. */
  lemma {:induction false} OddArgumentCountFails(args: seq<string>)
    requires |args| % 2 == 1
    ensures ParseArguments(args).Err?
    decreases |args|
  {
    if |args| >= 2 {
      OddArgumentCountFails(args[2..]);
    }
  }

  /** The arguments parsed so far, overridden by the ones still to parse. */
  function Override(parsed: map<string, string>, later: Result<map<string, string>>): Result<map<string, string>>
  {
    if later.Err? then later else Ok(parsed + later.value)
  }

  /** The constructor's loop over the arguments, two at a time. */
  method ParseCommandLine(args: seq<string>) returns (r: Result<map<string, string>>)
    ensures r == ParseArguments(args)
  {
    var arguments: map<string, string> := map[];
    var i := 0;
    assert args[i..] == args;
    if ParseArguments(args).Ok? {
      UnionWithEmpty(ParseArguments(args).value);
    }
    while i < |args|
      invariant 0 <= i <= |args|
      invariant Override(arguments, ParseArguments(args[i..])) == ParseArguments(args)
    {
      if !StartsWith(args[i], ArgumentPrefix) {
        return Err(CliException(ArgumentFormatErrorMessage));
      }
      var argumentName := ArgumentName(args[i]);
      if i + 1 >= |args| || StartsWith(args[i + 1], ArgumentPrefix) {
        return Err(CliException(MissingValueMessage(argumentName)));
      }
      assert args[i..][2..] == args[i + 2..];
      ghost var rest := ParseArguments(args[i + 2..]);
      if rest.Ok? {
        UnionAssociative(arguments, map[argumentName := args[i + 1]], rest.value);
      }
      UnionWithSingleton(arguments, argumentName, args[i + 1]);
      arguments := arguments[argumentName := args[i + 1]];
      i := i + 2;
    }
    assert args[i..] == [];
    UnionWithEmpty(arguments);
    return Ok(arguments);
  }

  /** Parsing a run of pairs, then more pairs, lets the later pairs override the earlier ones. */
  lemma {:induction false} ParseArgumentsAppend(a: seq<string>, b: seq<string>)
    requires |a| % 2 == 0
    ensures var x := ParseArguments(a); var y := ParseArguments(b);
            ParseArguments(a + b) == (if x.Err? then x else Override(x.value, y))
    decreases |a|
  {
    if a == [] {
      assert a + b == b;
      var y := ParseArguments(b);
      if y.Ok? {
        UnionWithEmpty(y.value);
      }
    } else {
      assert (a + b)[0] == a[0] && (a + b)[1] == a[1];
      assert (a + b)[2..] == a[2..] + b;
      ParseArgumentsAppend(a[2..], b);
      var x := ParseArguments(a[2..]);
      var y := ParseArguments(b);
      if x.Ok? && y.Ok? {
        UnionAssociative(map[ArgumentName(a[0]) := a[1]], x.value, y.value);
      }
    }
  }

  lemma LastValueWins(args: seq<string>, key: string, value: string)
    requires |args| % 2 == 0 && ParseArguments(args).Ok?
    requires StartsWith(key, ArgumentPrefix) && !StartsWith(value, ArgumentPrefix)
    ensures ParseArguments(args + [key, value]) == Ok(ParseArguments(args).value[ArgumentName(key) := value])
  {
    ParseArgumentsAppend(args, [key, value]);
    PairParses(key, value);
    var x := ParseArguments(args).value;
    var m := map[ArgumentName(key) := value];
    assert ParseArguments(args + [key, value]) == Ok(x + m);
    UnionWithSingleton(x, ArgumentName(key), value);
  }

  lemma UnionWithSingleton(x: map<string, string>, k: string, v: string)
    ensures x + map[k := v] == x[k := v]
  {
  }

  lemma UnionWithEmpty(x: map<string, string>)
    ensures map[] + x == x && x + map[] == x
  {
  }

  lemma UnionAssociative(x: map<string, string>, y: map<string, string>, z: map<string, string>)
    ensures (x + y) + z == x + (y + z)
  {
  }

  lemma PairParses(key: string, value: string)
    requires StartsWith(key, ArgumentPrefix) && !StartsWith(value, ArgumentPrefix)
    ensures ParseArguments([key, value]) == Ok(map[ArgumentName(key) := value])
  {
    var pair := [key, value];
    assert pair[2..] == [];
    assert ParseArguments(pair[2..]) == Ok(map[]);
    UnionWithEmpty(map[ArgumentName(key) := value]);
  }

  /** The names of the arguments at even positions. */
  function ArgumentNames(args: seq<string>): set<string>
    decreases |args|
  {
    if args == [] then {} else {ArgumentName(args[0])} + ArgumentNames(if |args| < 2 then [] else args[2..])
  }

  lemma UnionKeys(x: map<string, string>, y: map<string, string>)
    ensures (x + y).Keys == x.Keys + y.Keys
  {
  }

  /** The parsed keys are exactly the names of the arguments at even positions. */
  lemma {:induction false} ParsedKeys(args: seq<string>)
    requires ParseArguments(args).Ok?
    ensures ParseArguments(args).value.Keys == ArgumentNames(args)
    decreases |args|
  {
    if args != [] {
      ParsedKeys(args[2..]);
      UnionKeys(map[ArgumentName(args[0]) := args[1]], ParseArguments(args[2..]).value);
    }
  }

  /** "--port" names the key "port". */
  lemma PortArgumentName()
    ensures ArgumentName("--port") == "port"
  {
    TrimPort();
    RemovePrefixOfPort();
  }

  lemma TrimPort()
    ensures Trim("--port") == "--port"
  {
    TrimOfUnpadded("--port");
  }

  lemma RemovePrefixOfPort()
    ensures RemoveAll("--port", ArgumentPrefix) == "port"
  {
    assert "--port"[..2] == ArgumentPrefix && "--port"[2..] == "port";
    assert "port"[..2] != ArgumentPrefix && "port"[1..] == "ort";
    assert "ort"[..2] != ArgumentPrefix && "ort"[1..] == "rt";
    assert "rt"[..2] != ArgumentPrefix && "rt"[1..] == "t";
    assert RemoveAll("t", ArgumentPrefix) == "t";
  }

  class RumbleRuntimeConfiguration {
    var arguments: map<string, string>

    /** The configuration without arguments. */
    constructor ()
      ensures arguments == map[]
    {
      arguments := map[];
    }

    /** The configuration of already parsed arguments. */
    constructor WithArguments(arguments: map<string, string>)
      ensures this.arguments == arguments
    {
      this.arguments := arguments;
    }

    /** The String[] constructor: the parsed arguments, or the CliException the parsing raises. */
    static method FromCommandLine(args: seq<string>) returns (r: Result<RumbleRuntimeConfiguration>)
      ensures r.Ok? <==> ParseArguments(args).Ok?
      ensures r.Ok? ==> fresh(r.value) && r.value.arguments == ParseArguments(args).value
      ensures r.Err? ==> r.error == ParseArguments(args).error
    {
      var parsed := ParseCommandLine(args);
      if parsed.Err? {
        return Err(parsed.error);
      }
      var c := new RumbleRuntimeConfiguration.WithArguments(parsed.value);
      return Ok(c);
    }

    /** getConfigurationArgument: the value of the key, None (null) when absent. */
    function GetConfigurationArgument(key: string): (r: Option<string>)
      reads this
      ensures r.Some? <==> key in arguments
      ensures r.Some? ==> r.value == arguments[key]
    {
      if key in arguments then Some(arguments[key]) else None
    }

    function GetOutputPath(): (r: Option<string>)
      reads this
      ensures r.Some? <==> "output-path" in arguments
      ensures r.Some? ==> r.value == arguments["output-path"]
    {
      GetConfigurationArgument("output-path")
    }

    function GetLogPath(): (r: Option<string>)
      reads this
      ensures r.Some? <==> "log-path" in arguments
      ensures r.Some? ==> r.value == arguments["log-path"]
    {
      GetConfigurationArgument("log-path")
    }

    function GetQueryPath(): (r: Option<string>)
      reads this
      ensures r.Some? <==> "query-path" in arguments
      ensures r.Some? ==> r.value == arguments["query-path"]
    {
      GetConfigurationArgument("query-path")
    }

    /** An integer setting: the parsed value, or the default when absent. */
    function IntegerSetting(key: string, default: int): (r: Result<int>)
      reads this
      ensures key !in arguments ==> r == Ok(default)
      ensures key in arguments ==> r == ParseInt(arguments[key])
    {
      if key in arguments then ParseInt(arguments[key]) else Ok(default)
    }

    function GetPort(): (r: Result<int>)
      reads this
      ensures "port" !in arguments ==> r == Ok(8001)
      ensures "port" in arguments ==> r == ParseInt(arguments["port"])
    {
      IntegerSetting("port", 8001)
    }

    function GetResultSizeCap(): (r: Result<int>)
      reads this
      ensures "result-size" !in arguments ==> r == Ok(200)
      ensures "result-size" in arguments ==> r == ParseInt(arguments["result-size"])
    {
      IntegerSetting("result-size", 200)
    }

    /** A flag holds exactly when its value is "yes"; an absent flag is false. */
    function Flag(key: string): (b: bool)
      reads this
      ensures b ==> key in arguments
      ensures b <==> GetConfigurationArgument(key) == Some("yes")
    {
      key in arguments && arguments[key] == "yes"
    }

    function GetOverwrite(): (b: bool)
      reads this
      ensures "overwrite" !in arguments ==> !b
      ensures "overwrite" in arguments ==> (b <==> arguments["overwrite"] == "yes")
    {
      Flag("overwrite")
    }

    function GetShowErrorInfo(): (b: bool)
      reads this
      ensures "show-error-info" !in arguments ==> !b
      ensures "show-error-info" in arguments ==> (b <==> arguments["show-error-info"] == "yes")
    {
      Flag("show-error-info")
    }

    function IsShell(): (b: bool)
      reads this
      ensures "shell" !in arguments ==> !b
      ensures "shell" in arguments ==> (b <==> arguments["shell"] == "yes")
    {
      Flag("shell")
    }

    function IsServer(): (b: bool)
      reads this
      ensures "server" !in arguments ==> !b
      ensures "server" in arguments ==> (b <==> arguments["server"] == "yes")
    {
      Flag("server")
    }

    function IsPrintIteratorTree(): (b: bool)
      reads this
      ensures "print-iterator-tree" !in arguments ==> !b
      ensures "print-iterator-tree" in arguments ==> (b <==> arguments["print-iterator-tree"] == "yes")
    {
      Flag("print-iterator-tree")
    }

    /**
     * getExternalVariableValue: the loop over the keys for the one that is
     * "variable:" followed by the variable name's text.
     */
    method GetExternalVariableValue(nameText: string) returns (r: Option<string>)
      ensures r == GetConfigurationArgument("variable:" + nameText)
    {
      var wanted := "variable:" + nameText;
      var keys := arguments.Keys;
      while keys != {}
        invariant keys <= arguments.Keys
        invariant wanted in arguments ==> wanted in keys
        decreases keys
      {
        var s :| s in keys;
        if s == wanted {
          return Some(arguments[s]);
        }
        keys := keys - {s};
      }
      return None;
    }
  }

  /** Without arguments every getter gives its default. */
  lemma EmptyConfigurationDefaults(c: RumbleRuntimeConfiguration)
    requires c.arguments == ParseArguments([]).value
    ensures c.GetPort() == Ok(8001) && c.GetResultSizeCap() == Ok(200)
    ensures c.GetOutputPath().None? && c.GetLogPath().None? && c.GetQueryPath().None?
    ensures !c.GetOverwrite() && !c.GetShowErrorInfo() && !c.IsShell() && !c.IsServer() && !c.IsPrintIteratorTree()
    ensures forall key :: c.GetConfigurationArgument(key).None?
  {
  }

  /** A port given on the command line is read back. */
  lemma PortFromCommandLine(args: seq<string>, port: string)
    requires |args| % 2 == 0 && ParseArguments(args).Ok? && !StartsWith(port, ArgumentPrefix)
    ensures var p := ParseArguments(args + ["--port", port]);
            p.Ok? && "port" in p.value && p.value["port"] == port
  {
    assert StartsWith("--port", ArgumentPrefix) by {
      assert "--port"[..2] == ArgumentPrefix;
    }
    LastValueWins(args, "--port", port);
    PortArgumentName();
  }
}
