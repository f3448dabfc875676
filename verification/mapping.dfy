/** Start-up configuration: the `--model FROM=TO` mapping table and the
    checks `Handle` makes before it builds the proxy. */
module ModelMapping {
  import opened Results
  import opened Strings

  /** One `--model FROM=TO` argument, split. */
  datatype Mapping = Mapping(from: string, to: string)

  /** The error `Handle` returns for an argument without `=`. */
  function InvalidMapping(arg: string): string {
    "invalid model mapping: " + arg
  }

  /** Splits one argument at its first `=`; everything after it, further `=`
      included, is the target name. */
  function ParseMapping(arg: string): (r: Result<Mapping, string>)
    ensures r.Ok? <==> '=' in arg
    ensures r.Ok? ==> arg == r.value.from + "=" + r.value.to && '=' !in r.value.from
    ensures r.Err? ==> r.error == InvalidMapping(arg)
  {
    var parts := SplitFirst(arg, '=');
    if |parts| != 2 then Err(InvalidMapping(arg))
    else Ok(Mapping(parts[0], parts[1]))
  }

  /** `ParseMapping` inverts writing a mapping as `FROM=TO` when `FROM` has no `=`. */
  lemma ParseMappingRoundTrip(m: Mapping)
    requires '=' !in m.from
    ensures ParseMapping(m.from + "=" + m.to) == Ok(m)
  {
    SplitFirstOfJoin(m.from, '=', m.to);
  }

  /** The source name of an argument that contains `=`. */
  function From(arg: string): string
    requires '=' in arg
  {
    ParseMapping(arg).value.from
  }

  /** The target name of an argument that contains `=`. */
  function To(arg: string): string
    requires '=' in arg
  {
    ParseMapping(arg).value.to
  }

  /** Every argument carries an `=`. */
  predicate AllWellFormed(args: seq<string>) {
    forall i :: 0 <= i < |args| ==> '=' in args[i]
  }

  /** The mapping table the loop of `Handle` builds: arguments are applied in
      order, so a later `FROM` overrides an earlier one, and the first
      argument without `=` aborts with its error. */
  function ParseMappings(args: seq<string>): (r: Result<map<string, string>, string>)
    ensures r.Ok? <==> AllWellFormed(args)
    decreases |args|
  {
    if |args| == 0 then Ok(map[])
    else
      var init := args[..|args| - 1];
      var last := args[|args| - 1];
      assert forall i :: 0 <= i < |init| ==> init[i] == args[i];
      match ParseMappings(init)
      case Err(e) => Err(e)
      case Ok(m) =>
        match ParseMapping(last)
        case Err(e) => Err(e)
        case Ok(p) => Ok(m[p.from := p.to])
  }

  /** A non-empty argument list that parses is its prefix's table with the
      last argument applied on top. */
  lemma ParseMappingsStep(args: seq<string>)
    requires |args| > 0
    requires ParseMappings(args).Ok?
    ensures ParseMappings(args[..|args| - 1]).Ok?
    ensures '=' in args[|args| - 1]
    ensures ParseMappings(args).value
         == ParseMappings(args[..|args| - 1]).value[From(args[|args| - 1]) := To(args[|args| - 1])]
  {
  }

  /** Every argument's source name is a key of the table. */
  lemma {:induction false} SourcesAreKeys(args: seq<string>)
    requires ParseMappings(args).Ok?
    ensures forall i :: 0 <= i < |args| ==> From(args[i]) in ParseMappings(args).value
  {
    if |args| > 0 {
      var init := args[..|args| - 1];
      ParseMappingsStep(args);
      SourcesAreKeys(init);
      forall i | 0 <= i < |init|
        ensures From(args[i]) in ParseMappings(args).value
      {
        assert args[i] == init[i];
      }
    }
  }

  /** Every key of the table is the source name of some argument. */
  lemma {:induction false} KeysAreSources(args: seq<string>, k: string)
    requires ParseMappings(args).Ok?
    requires k in ParseMappings(args).value
    ensures exists i :: 0 <= i < |args| && From(args[i]) == k
  {
    var init := args[..|args| - 1];
    ParseMappingsStep(args);
    if k != From(args[|args| - 1]) {
      KeysAreSources(init, k);
      var i :| 0 <= i < |init| && From(init[i]) == k;
      assert args[i] == init[i];
    }
  }

  /** A source name maps to the target of its LAST occurrence: an argument no
      later argument overrides has its target in the table. */
  lemma {:induction false} LastOccurrenceWins(args: seq<string>, i: int)
    requires ParseMappings(args).Ok?
    requires 0 <= i < |args|
    requires forall j :: i < j < |args| ==> From(args[j]) != From(args[i])
    ensures From(args[i]) in ParseMappings(args).value
    ensures ParseMappings(args).value[From(args[i])] == To(args[i])
  {
    if i < |args| - 1 {
      var init := args[..|args| - 1];
      assert forall j :: 0 <= j < |init| ==> init[j] == args[j];
      LastOccurrenceWins(init, i);
    }
  }

  /** The first argument without `=` is the one reported, whatever follows it. */
  lemma {:induction false} FirstInvalidReported(args: seq<string>, i: int)
    requires 0 <= i < |args|
    requires '=' !in args[i]
    requires AllWellFormed(args[..i])
    ensures ParseMappings(args) == Err(InvalidMapping(args[i]))
  {
    var init := args[..|args| - 1];
    if i == |args| - 1 {
      assert init == args[..i];
    } else {
      assert init[..i] == args[..i];
      FirstInvalidReported(init, i);
    }
  }

  /** The loop of `Handle` over the `--model` arguments. */
  method BuildModelMap(args: seq<string>) returns (r: Result<map<string, string>, string>)
    ensures r == ParseMappings(args)
    ensures r.Ok? <==> AllWellFormed(args)
  {
    var m: map<string, string> := map[];
    for i := 0 to |args|
      invariant ParseMappings(args[..i]) == Ok(m)
    {
      var parts := SplitFirst(args[i], '=');
      if |parts| != 2 {
        FirstInvalidReported(args, i);
        return Err(InvalidMapping(args[i]));
      }
      assert args[..i + 1][..i] == args[..i];
      m := m[parts[0] := parts[1]];
    }
    assert args[..|args|] == args;
    return Ok(m);
  }

  /** The settings `Handle` starts the proxy with. */
  datatype Config = Config(baseUrl: string, modelMap: map<string, string>, port: string)

  /** The port used when `--port` is not given. */
  const DefaultPort := "8080"

  /** The checks of `Handle` after flag parsing: the base URL is required and
      checked first, the port defaults to 8080, then the mapping table is
      built. */
  function Configure(baseUrl: string, mappings: seq<string>, port: string): (r: Result<Config, string>)
    ensures baseUrl == "" ==> r == Err("missing --base-url")
    ensures baseUrl != "" ==> (r.Ok? <==> AllWellFormed(mappings))
    ensures r.Ok? ==> r.value.baseUrl == baseUrl && ParseMappings(mappings) == Ok(r.value.modelMap)
    ensures r.Ok? ==> r.value.port == (if port == "" then DefaultPort else port)
    ensures baseUrl != "" && r.Err? ==> ParseMappings(mappings) == Err(r.error)
  {
    if baseUrl == "" then Err("missing --base-url")
    else
      var p := if port == "" then DefaultPort else port;
      match ParseMappings(mappings)
      case Err(e) => Err(e)
      case Ok(m) => Ok(Config(baseUrl, m, p))
  }

  /** With a base URL given, start-up fails on the first argument without `=`
      and reports that argument, whatever follows it. */
  lemma ConfigureReportsMappings(baseUrl: string, mappings: seq<string>, port: string, i: int)
    requires baseUrl != ""
    requires 0 <= i < |mappings| && '=' !in mappings[i] && AllWellFormed(mappings[..i])
    ensures Configure(baseUrl, mappings, port) == Err(InvalidMapping(mappings[i]))
  {
    FirstInvalidReported(mappings, i);
  }
}
