/** The argument builder of the detekt Maven plugin: it turns the plugin's configured
    parameters into the ordered command-line tokens handed to the detekt CLI, resolving
    plugin entries to jar paths in the local Maven repository on the way. */
module DetektMojo {
  import opened Wrappers
  import opened Strings

  // Flag names of the detekt CLI. They are top-level declarations of the package in another
  // file, which is not part of this model; the spellings here are chosen, and the properties
  // below rely only on their being pairwise distinct (FlagsDistinct).
  const HELP: string := "--help"
  const CREATE_BASELINE: string := "--create-baseline"
  const DEBUG: string := "--debug"
  const DISABLE_DEFAULT_RULE_SET: string := "--disable-default-rulesets"
  const GENERATE_CONFIG: string := "--generate-config"
  const PARALLEL: string := "--parallel"
  const BASELINE: string := "--baseline"
  const CONFIG: string := "--config"
  const CONFIG_RESOURCE: string := "--config-resource"
  const FILTERS: string := "--filters"
  const INPUT: string := "--input"
  const OUTPUT: string := "--output"
  const OUTPUT_NAME: string := "--output-name"
  const PLUGINS: string := "--plugins"

  /** Separator of the filter list and of the plugin path list. */
  const Semicolon: char := ';'

  /** A dependency declared on the detekt Maven plugin in the project's build. */
  datatype Dependency = Dependency(groupId: string, artifactId: string, version: string)

  /** The mojo's parameters as Maven injects them. `pluginDependencies` stands for
      `mavenProject?.getPlugin("com.github.ozsie:detekt-maven-plugin")?.dependencies`:
      None when there is no project or the plugin is not declared in it. */
  datatype Parameters = Parameters(
    baseline: string,
    config: string,
    configResource: string,
    createBaseline: bool,
    debug: bool,
    disableDefaultRuleSets: bool,
    filters: seq<string>,
    generateConfig: bool,
    help: bool,
    input: string,
    output: string,
    outputName: string,
    parallel: bool,
    plugins: seq<string>,
    pluginDependencies: Option<seq<Dependency>>,
    localRepoLocation: string)

  /** The parameters as Maven sets them when nothing is configured, with `${basedir}` and
      `${settings.localRepository}` already interpolated to `basedir` and `localRepo`. */
  function Defaults(basedir: string, localRepo: string, deps: Option<seq<Dependency>>): Parameters
  {
    Parameters("", "", "", false, false, false, [], false, false,
               basedir + "/src", basedir + "/detekt", "", false, [], deps, localRepo)
  }

  // ---------------------------------------------------------------------------------------
  // Plugin path resolution (buildPluginPaths)
  // ---------------------------------------------------------------------------------------

  /** The `groupId:artifactId` string a plugin entry is compared with. */
  function Coordinate(d: Dependency): string
  {
    d.groupId + ":" + d.artifactId
  }

  /** Where Maven keeps the jar of `d` inside the local repository `repo`. */
  function JarPath(repo: string, d: Dependency): string
  {
    repo + "/" + ReplaceChar(d.groupId, '.', '/') + "/" + d.artifactId + "/" + d.version
      + "/" + d.artifactId + "-" + d.version + ".jar"
  }

  /** `deps.filter { plugin == "${it.groupId}:${it.artifactId}" }`. */
  function Matching(plugin: string, deps: seq<Dependency>): (r: seq<Dependency>)
    ensures |r| <= |deps|
  {
    if deps == [] then []
    else (if Coordinate(deps[0]) == plugin then [deps[0]] else []) + Matching(plugin, deps[1..])
  }

  /** The filter keeps exactly the dependencies whose coordinate is `plugin`, each as often as
      it is declared. */
  lemma {:induction false} MatchingSelects(plugin: string, deps: seq<Dependency>)
    ensures forall d :: d in Matching(plugin, deps) <==> d in deps && Coordinate(d) == plugin
    ensures forall d :: multiset(Matching(plugin, deps))[d]
                     == if Coordinate(d) == plugin then multiset(deps)[d] else 0
  {
    if deps != [] {
      MatchingSelects(plugin, deps[1..]);
      assert deps == [deps[0]] + deps[1..];
    }
  }

  /** The jar paths of `ds`, in order. */
  function JarPaths(repo: string, ds: seq<Dependency>): (r: seq<string>)
    ensures |r| == |ds|
    ensures forall i :: 0 <= i < |ds| ==> r[i] == JarPath(repo, ds[i])
  {
    if ds == [] then [] else [JarPath(repo, ds[0])] + JarPaths(repo, ds[1..])
  }

  /** What one plugin entry contributes: itself when it exists on disk, otherwise the
      jar path of every declared plugin dependency it names, and nothing when there is no
      declaration to look in. */
  function Resolved(p: Parameters, fileExists: string -> bool, plugin: string): seq<string>
  {
    if fileExists(plugin) then [plugin]
    else match p.pluginDependencies
      case None => []
      case Some(deps) => JarPaths(p.localRepoLocation, Matching(plugin, deps))
  }

  /** The contributions of `entries`, entry after entry. */
  function ResolvedAll(p: Parameters, fileExists: string -> bool, entries: seq<string>): seq<string>
  {
    if entries == [] then [] else Resolved(p, fileExists, entries[0]) + ResolvedAll(p, fileExists, entries[1..])
  }

  /** The value of the `--plugins` option: each contributed path followed by ';', one trailing
      ';' removed. */
  function PluginPathsValue(p: Parameters, fileExists: string -> bool): string
  {
    RemoveSuffix(Terminated(ResolvedAll(p, fileExists, p.plugins), Semicolon), [Semicolon])
  }

  /** buildPluginPaths: a StringBuilder receives, for every plugin entry in turn, the entry
      itself or the jar path of each matching dependency, each followed by ';'; the final
      string has its trailing ';' removed. */
  method BuildPluginPaths(p: Parameters, fileExists: string -> bool) returns (value: string)
    ensures value == PluginPathsValue(p, fileExists)
    ensures value == JoinWith(ResolvedAll(p, fileExists, p.plugins), Semicolon)
  {
    var mvnPlugin := p.pluginDependencies;
    var sb := "";
    var i := 0;
    while i < |p.plugins|
      invariant 0 <= i <= |p.plugins|
      invariant sb == Terminated(ResolvedAll(p, fileExists, p.plugins[..i]), Semicolon)
    {
      var plugin := p.plugins[i];
      ghost var before := ResolvedAll(p, fileExists, p.plugins[..i]);
      if fileExists(plugin) {
        sb := sb + plugin + [Semicolon];
        TerminatedConcat(before, [plugin], Semicolon);
      } else if mvnPlugin.Some? {
        var matches := Matching(plugin, mvnPlugin.value);
        var j := 0;
        assert before + JarPaths(p.localRepoLocation, matches[..0]) == before;
        while j < |matches|
          invariant 0 <= j <= |matches|
          invariant sb == Terminated(before + JarPaths(p.localRepoLocation, matches[..j]), Semicolon)
        {
          var path := JarPath(p.localRepoLocation, matches[j]);
          sb := sb + path + [Semicolon];
          AppendPath(before, p.localRepoLocation, matches, j);
          j := j + 1;
        }
        assert matches[..j] == matches;
      } else {
        assert before + Resolved(p, fileExists, plugin) == before;
      }
      ResolvedAllSnoc(p, fileExists, p.plugins, i);
      i := i + 1;
    }
    assert p.plugins[..i] == p.plugins;
    value := RemoveSuffix(sb, [Semicolon]);
    StripTerminator(ResolvedAll(p, fileExists, p.plugins), Semicolon);
  }

  /** One more jar path in the string builder. */
  lemma AppendPath(before: seq<string>, repo: string, ds: seq<Dependency>, j: nat)
    requires j < |ds|
    ensures Terminated(before + JarPaths(repo, ds[..j + 1]), Semicolon)
         == Terminated(before + JarPaths(repo, ds[..j]), Semicolon) + JarPath(repo, ds[j]) + [Semicolon]
  {
    var path := JarPath(repo, ds[j]);
    assert JarPaths(repo, ds[..j + 1]) == JarPaths(repo, ds[..j]) + [path];
    assert before + JarPaths(repo, ds[..j + 1]) == (before + JarPaths(repo, ds[..j])) + [path];
    TerminatedConcat(before + JarPaths(repo, ds[..j]), [path], Semicolon);
    assert Terminated([path], Semicolon) == path + [Semicolon] by {
      assert [path][1..] == [];
    }
  }

  /** Resolving one more entry appends its contribution. */
  lemma ResolvedAllSnoc(p: Parameters, fileExists: string -> bool, entries: seq<string>, i: nat)
    requires i < |entries|
    ensures ResolvedAll(p, fileExists, entries[..i + 1])
         == ResolvedAll(p, fileExists, entries[..i]) + Resolved(p, fileExists, entries[i])
  {
    assert entries[..i + 1] == entries[..i] + [entries[i]];
    ResolvedAllConcat(p, fileExists, entries[..i], [entries[i]]);
    assert ResolvedAll(p, fileExists, [entries[i]]) == Resolved(p, fileExists, entries[i]) + ResolvedAll(p, fileExists, []);
  }

  /** Plugin entries contribute in entry order: resolving a concatenation concatenates. */
  lemma {:induction false} ResolvedAllConcat(p: Parameters, fileExists: string -> bool,
                                            a: seq<string>, b: seq<string>)
    ensures ResolvedAll(p, fileExists, a + b)
         == ResolvedAll(p, fileExists, a) + ResolvedAll(p, fileExists, b)
  {
    if a == [] {
      assert a + b == b;
    } else {
      assert (a + b)[0] == a[0] && (a + b)[1..] == a[1..] + b;
      ResolvedAllConcat(p, fileExists, a[1..], b);
    }
  }

  /** The filter keeps dependency order: filtering a concatenation concatenates. */
  lemma {:induction false} MatchingConcat(plugin: string, a: seq<Dependency>, b: seq<Dependency>)
    ensures Matching(plugin, a + b) == Matching(plugin, a) + Matching(plugin, b)
  {
    if a == [] {
      assert a + b == b;
    } else {
      var keep := if Coordinate(a[0]) == plugin then [a[0]] else [];
      assert (a + b)[0] == a[0] && (a + b)[1..] == a[1..] + b;
      assert Matching(plugin, a + b) == keep + Matching(plugin, a[1..] + b);
      MatchingConcat(plugin, a[1..], b);
      assert Matching(plugin, a) == keep + Matching(plugin, a[1..]);
    }
  }

  /** An entry that exists on disk (a file or a directory) is kept verbatim and nothing is looked
      up for it. */
  lemma ExistingFileKeptVerbatim(p: Parameters, fileExists: string -> bool, plugin: string)
    requires fileExists(plugin)
    ensures Resolved(p, fileExists, plugin) == [plugin]
  {
  }

  /** When every entry exists on disk, the resolved paths are the entries themselves, in order. */
  lemma {:induction false} AllFilesKeptVerbatim(p: Parameters, fileExists: string -> bool, entries: seq<string>)
    requires forall i :: 0 <= i < |entries| ==> fileExists(entries[i])
    ensures ResolvedAll(p, fileExists, entries) == entries
  {
    if entries != [] {
      AllFilesKeptVerbatim(p, fileExists, entries[1..]);
      assert [entries[0]] + entries[1..] == entries;
    }
  }

  /** A non-file entry contributes nothing, without error, when no declared dependency has
      its coordinate or when the plugin declaration is absent; otherwise it contributes one
      jar path per matching dependency, in dependency order. */
  lemma NonFileEntry(p: Parameters, fileExists: string -> bool, plugin: string)
    requires !fileExists(plugin)
    ensures p.pluginDependencies.None? ==> Resolved(p, fileExists, plugin) == []
    ensures p.pluginDependencies.Some? && (forall d :: d in p.pluginDependencies.value ==> Coordinate(d) != plugin)
            ==> Resolved(p, fileExists, plugin) == []
    ensures p.pluginDependencies.Some? ==>
              var ms := Matching(plugin, p.pluginDependencies.value);
              |Resolved(p, fileExists, plugin)| == |ms| &&
              forall i :: 0 <= i < |ms| ==> Resolved(p, fileExists, plugin)[i] == JarPath(p.localRepoLocation, ms[i])
  {
    if p.pluginDependencies.Some? {
      MatchingSelects(plugin, p.pluginDependencies.value);
    }
  }

  /** Every resolved path is either an entry that is an existing file, or the jar path of a
      declared dependency whose coordinate is a (non-file) entry. */
  lemma {:induction false} ResolvedPathOrigin(p: Parameters, fileExists: string -> bool, entries: seq<string>, q: string)
    requires q in ResolvedAll(p, fileExists, entries)
    ensures (q in entries && fileExists(q)) ||
            (p.pluginDependencies.Some? &&
             exists d :: d in p.pluginDependencies.value && Coordinate(d) in entries &&
                         !fileExists(Coordinate(d)) && q == JarPath(p.localRepoLocation, d))
  {
    var e := entries[0];
    if q in Resolved(p, fileExists, e) {
      if !fileExists(e) {
        var ms := Matching(e, p.pluginDependencies.value);
        MatchingSelects(e, p.pluginDependencies.value);
        var i :| 0 <= i < |ms| && q == JarPaths(p.localRepoLocation, ms)[i];
        assert ms[i] in ms;
      }
    } else {
      ResolvedPathOrigin(p, fileExists, entries[1..], q);
    }
  }

  /** Two contributed paths give the value "P1;P2", with no trailing separator. */
  lemma TwoPathsJoined(p: Parameters, fileExists: string -> bool, p1: string, p2: string)
    requires ResolvedAll(p, fileExists, p.plugins) == [p1, p2]
    ensures PluginPathsValue(p, fileExists) == p1 + [Semicolon] + p2
  {
    StripTerminator([p1, p2], Semicolon);
    assert [p1, p2][1..] == [p2];
  }

  /** The jar path of g.h:a:1 under the repository r: the group's '.' becomes a directory
      separator. */
  lemma JarPathExample()
    ensures JarPath("r", Dependency("g.h", "a", "1")) == "r/g/h/a/1/a-1.jar"
  {
    assert ReplaceChar("g.h", '.', '/') == "g/h" by {
      assert "g.h"[1..] == ".h" && ".h"[1..] == "h" && "h"[1..] == "";
    }
  }

  // ---------------------------------------------------------------------------------------
  // Token assembly (buildCLIString, useIf)
  // ---------------------------------------------------------------------------------------

  /** One option of the command line: a switch that is a lone flag, or a flag followed by its
      value; `on` says whether the option is emitted. */
  datatype Arg = Switch(flag: string, on: bool) | Valued(flag: string, on: bool, value: string)

  /** The tokens an option contributes. */
  function Tokens(a: Arg): seq<string>
  {
    if !a.on then []
    else match a
      case Switch(f, _) => [f]
      case Valued(f, _, v) => [f, v]
  }

  /** The flags in the order buildCLIString considers them. */
  const Flags: seq<string> := [HELP, CREATE_BASELINE, DEBUG, DISABLE_DEFAULT_RULE_SET,
    GENERATE_CONFIG, PARALLEL, BASELINE, CONFIG, CONFIG_RESOURCE, FILTERS, INPUT, OUTPUT,
    OUTPUT_NAME, PLUGINS]

  /** Number of options buildCLIString considers. */
  const OptionCount: nat := 14

  /** Position of the filters option. */
  const FiltersIndex: nat := 9

  /** Option k of buildCLIString, in the order it appends them, with the condition under which
      it is emitted; `pluginPaths` is the value buildPluginPaths computes. */
  function Entry(p: Parameters, pluginPaths: string, k: nat): Arg
    requires k < OptionCount
  {
    match k
    case 0 => Switch(HELP, p.help)
    case 1 => Switch(CREATE_BASELINE, p.createBaseline)
    case 2 => Switch(DEBUG, p.debug)
    case 3 => Switch(DISABLE_DEFAULT_RULE_SET, p.disableDefaultRuleSets)
    case 4 => Switch(GENERATE_CONFIG, p.generateConfig)
    case 5 => Switch(PARALLEL, p.parallel)
    case 6 => Valued(BASELINE, p.baseline != "", p.baseline)
    case 7 => Valued(CONFIG, p.config != "", p.config)
    case 8 => Valued(CONFIG_RESOURCE, p.configResource != "", p.configResource)
    case 9 => Valued(FILTERS, p.filters != [], JoinWith(p.filters, Semicolon))
    case 10 => Valued(INPUT, p.input != "", p.input)
    case 11 => Valued(OUTPUT, p.output != "", p.output)
    case 12 => Valued(OUTPUT_NAME, p.outputName != "", p.outputName)
    case _ => Valued(PLUGINS, p.plugins != [], pluginPaths)
  }

  /** All fourteen options, in order. */
  function Table(p: Parameters, pluginPaths: string): (t: seq<Arg>)
    ensures |t| == OptionCount
    ensures t[0] == Switch(HELP, p.help) && t[1] == Switch(CREATE_BASELINE, p.createBaseline)
    ensures t[2] == Switch(DEBUG, p.debug) && t[3] == Switch(DISABLE_DEFAULT_RULE_SET, p.disableDefaultRuleSets)
    ensures t[4] == Switch(GENERATE_CONFIG, p.generateConfig) && t[5] == Switch(PARALLEL, p.parallel)
    ensures t[6] == Valued(BASELINE, p.baseline != "", p.baseline)
    ensures t[7] == Valued(CONFIG, p.config != "", p.config)
    ensures t[8] == Valued(CONFIG_RESOURCE, p.configResource != "", p.configResource)
    ensures t[9] == Valued(FILTERS, p.filters != [], JoinWith(p.filters, Semicolon))
    ensures t[10] == Valued(INPUT, p.input != "", p.input)
    ensures t[11] == Valued(OUTPUT, p.output != "", p.output)
    ensures t[12] == Valued(OUTPUT_NAME, p.outputName != "", p.outputName)
    ensures t[13] == Valued(PLUGINS, p.plugins != [], pluginPaths)
  {
    seq(OptionCount, k requires 0 <= k < OptionCount => Entry(p, pluginPaths, k))
  }

  /** Option k carries the k-th flag. */
  lemma TableFlags(p: Parameters, pluginPaths: string)
    ensures |Flags| == OptionCount
    ensures forall k :: 0 <= k < OptionCount ==> Table(p, pluginPaths)[k].flag == Flags[k]
  {
    FlagsListed();
  }

  /** The flags list, entry by entry. */
  lemma FlagsListed()
    ensures |Flags| == OptionCount
    ensures Flags[0] == HELP && Flags[1] == CREATE_BASELINE && Flags[2] == DEBUG
    ensures Flags[3] == DISABLE_DEFAULT_RULE_SET && Flags[4] == GENERATE_CONFIG && Flags[5] == PARALLEL
    ensures Flags[6] == BASELINE && Flags[7] == CONFIG && Flags[8] == CONFIG_RESOURCE
    ensures Flags[9] == FILTERS && Flags[10] == INPUT && Flags[11] == OUTPUT
    ensures Flags[12] == OUTPUT_NAME && Flags[13] == PLUGINS
  {
  }

  /** The tokens of the first n options, option after option. */
  function Emitted(t: seq<Arg>, n: nat): seq<string>
    requires n <= |t|
  {
    if n == 0 then [] else Emitted(t, n - 1) + Tokens(t[n - 1])
  }

  /** Where the tokens of option k start. */
  function Offset(t: seq<Arg>, k: nat): nat
    requires k <= |t|
  {
    |Emitted(t, k)|
  }

  /** The command line for parameters `p`, given the value of the plugins option. */
  function Args(p: Parameters, pluginPaths: string): seq<string>
  {
    Emitted(Table(p, pluginPaths), OptionCount)
  }

  /** The command line buildCLIString hands to detekt. */
  function CliArgs(p: Parameters, fileExists: string -> bool): seq<string>
  {
    Args(p, PluginPathsValue(p, fileExists))
  }

  /** The ArrayList that buildCLIString fills. */
  class ArgList {
    var tokens: seq<string>

    constructor ()
      ensures tokens == []
    {
      tokens := [];
    }

    /** useIf: appends all of `values`, in order, when `w` holds, leaves the list alone
        otherwise, and returns the list itself so that calls chain. */
    method UseIf(w: bool, values: seq<string>) returns (self: ArgList)
      modifies this
      ensures self == this
      ensures tokens == old(tokens) + if w then values else []
    {
      if w {
        tokens := tokens + values;
      }
      self := this;
    }
  }

  /** buildCLIString: a fresh list receives, in a fixed order, one flag per true switch and a
      flag with its value per non-empty string or list option. */
  method BuildCLIString(p: Parameters, fileExists: string -> bool) returns (args: seq<string>)
    ensures args == CliArgs(p, fileExists)
  {
    var list := new ArgList();
    var l := list.UseIf(p.help, [HELP]);
    assert list.tokens == (if p.help then [HELP] else []);
    l := l.UseIf(p.createBaseline, [CREATE_BASELINE]);
    l := l.UseIf(p.debug, [DEBUG]);
    l := l.UseIf(p.disableDefaultRuleSets, [DISABLE_DEFAULT_RULE_SET]);
    l := l.UseIf(p.generateConfig, [GENERATE_CONFIG]);
    l := l.UseIf(p.parallel, [PARALLEL]);
    l := l.UseIf(p.baseline != "", [BASELINE, p.baseline]);
    l := l.UseIf(p.config != "", [CONFIG, p.config]);
    l := l.UseIf(p.configResource != "", [CONFIG_RESOURCE, p.configResource]);
    l := l.UseIf(p.filters != [], [FILTERS, JoinWith(p.filters, Semicolon)]);
    l := l.UseIf(p.input != "", [INPUT, p.input]);
    l := l.UseIf(p.output != "", [OUTPUT, p.output]);
    l := l.UseIf(p.outputName != "", [OUTPUT_NAME, p.outputName]);
    var pluginPaths := BuildPluginPaths(p, fileExists);
    l := l.UseIf(p.plugins != [], [PLUGINS, pluginPaths]);
    args := list.tokens;
    TableSpelledOut(p, pluginPaths);
  }

  /** The table's tokens in the shape the useIf chain produces them. */
  lemma TableSpelledOut(p: Parameters, pluginPaths: string)
    ensures Args(p, pluginPaths)
         == (if p.help then [HELP] else [])
               + (if p.createBaseline then [CREATE_BASELINE] else [])
               + (if p.debug then [DEBUG] else [])
               + (if p.disableDefaultRuleSets then [DISABLE_DEFAULT_RULE_SET] else [])
               + (if p.generateConfig then [GENERATE_CONFIG] else [])
               + (if p.parallel then [PARALLEL] else [])
               + (if p.baseline != "" then [BASELINE, p.baseline] else [])
               + (if p.config != "" then [CONFIG, p.config] else [])
               + (if p.configResource != "" then [CONFIG_RESOURCE, p.configResource] else [])
               + (if p.filters != [] then [FILTERS, JoinWith(p.filters, Semicolon)] else [])
               + (if p.input != "" then [INPUT, p.input] else [])
               + (if p.output != "" then [OUTPUT, p.output] else [])
               + (if p.outputName != "" then [OUTPUT_NAME, p.outputName] else [])
               + (if p.plugins != [] then [PLUGINS, pluginPaths] else [])
  {
    EmittedSpelledOut(Table(p, pluginPaths));
  }

  /** The tokens of all options of a table, spelled out. */
  lemma EmittedSpelledOut(t: seq<Arg>)
    requires |t| == OptionCount
    ensures Emitted(t, OptionCount) == Tokens(t[0]) + Tokens(t[1]) + Tokens(t[2]) + Tokens(t[3])
                                 + Tokens(t[4]) + Tokens(t[5]) + Tokens(t[6]) + Tokens(t[7])
                                 + Tokens(t[8]) + Tokens(t[9]) + Tokens(t[10]) + Tokens(t[11])
                                 + Tokens(t[12]) + Tokens(t[13])
  {
    assert Emitted(t, 1) == Tokens(t[0]);
    assert Emitted(t, 2) == Emitted(t, 1) + Tokens(t[1]);
    assert Emitted(t, 3) == Emitted(t, 2) + Tokens(t[2]);
    assert Emitted(t, 4) == Emitted(t, 3) + Tokens(t[3]);
    assert Emitted(t, 5) == Emitted(t, 4) + Tokens(t[4]);
    assert Emitted(t, 6) == Emitted(t, 5) + Tokens(t[5]);
    assert Emitted(t, 7) == Emitted(t, 6) + Tokens(t[6]);
    assert Emitted(t, 8) == Emitted(t, 7) + Tokens(t[7]);
    assert Emitted(t, 9) == Emitted(t, 8) + Tokens(t[8]);
    assert Emitted(t, 10) == Emitted(t, 9) + Tokens(t[9]);
    assert Emitted(t, 11) == Emitted(t, 10) + Tokens(t[10]);
    assert Emitted(t, 12) == Emitted(t, 11) + Tokens(t[11]);
    assert Emitted(t, 13) == Emitted(t, 12) + Tokens(t[12]);
  }

  // ---------------------------------------------------------------------------------------
  // Position, order and number of the tokens
  // ---------------------------------------------------------------------------------------

  /** The tokens of the first n options are a prefix of those of the first m >= n. */
  lemma {:induction false} EmittedPrefix(t: seq<Arg>, n: nat, m: nat)
    requires n <= m <= |t|
    ensures |Emitted(t, n)| <= |Emitted(t, m)|
    ensures Emitted(t, m)[..|Emitted(t, n)|] == Emitted(t, n)
  {
    if n < m {
      EmittedPrefix(t, n, m - 1);
      assert Emitted(t, m) == Emitted(t, m - 1) + Tokens(t[m - 1]);
    }
  }

  /** The tokens of option k sit at Offset(t, k), directly followed by those of option k + 1:
      every option's tokens appear at its own position and nowhere else in its stretch. */
  lemma TokensAtOffset(t: seq<Arg>, k: nat)
    requires k < |t|
    ensures Offset(t, k + 1) == Offset(t, k) + |Tokens(t[k])| <= |Emitted(t, |t|)|
    ensures Emitted(t, |t|)[Offset(t, k)..Offset(t, k + 1)] == Tokens(t[k])
  {
    EmittedPrefix(t, k + 1, |t|);
    var whole := Emitted(t, |t|);
    assert whole[..Offset(t, k + 1)] == Emitted(t, k) + Tokens(t[k]);
    assert whole[Offset(t, k)..Offset(t, k + 1)] == whole[..Offset(t, k + 1)][Offset(t, k)..];
  }

  /** Options come out in table order: an earlier option's tokens all precede a later one's. */
  lemma OptionsInOrder(t: seq<Arg>, i: nat, j: nat)
    requires i < j <= |t|
    ensures Offset(t, i) + |Tokens(t[i])| <= Offset(t, j)
  {
    EmittedPrefix(t, i + 1, j);
  }

  /** No two options share a flag. */
  ghost predicate NoSharedFlag(t: seq<Arg>)
  {
    forall i, j :: 0 <= i < j < |t| ==> t[i].flag != t[j].flag
  }

  /** No emitted value equals any option's flag. */
  ghost predicate TableValuesAvoidFlags(t: seq<Arg>)
  {
    forall i, j :: 0 <= i < |t| && 0 <= j < |t| && t[i].Valued? && t[i].on ==> t[i].value != t[j].flag
  }

  function Bit(b: bool): nat
  {
    if b then 1 else 0
  }

  /** How often f occurs among one option's tokens: once as its flag, once as its value. */
  function Hits(a: Arg, f: string): nat
  {
    Bit(a.on && a.flag == f) + Bit(a.on && a.Valued? && a.value == f)
  }

  /** How often f occurs among the tokens of the first n options, counted option by option. */
  function Count(t: seq<Arg>, n: nat, f: string): nat
    requires n <= |t|
  {
    if n == 0 then 0 else Count(t, n - 1, f) + Hits(t[n - 1], f)
  }

  /** Hits counts the occurrences of f in an option's tokens. */
  lemma TokenCount(a: Arg, f: string)
    ensures Occurrences(Tokens(a), f) == Hits(a, f)
  {
    if a.on {
      match a
      case Switch(flag, _) =>
        assert Tokens(a) == [flag] && [flag][1..] == [];
      case Valued(flag, _, value) =>
        assert Tokens(a) == [flag, value] && [flag, value][1..] == [value] && [value][1..] == [];
        assert Occurrences([value], f) == Bit(value == f);
    }
  }

  /** Count counts the occurrences of f in the tokens of the first n options. */
  lemma {:induction false} CountIsOccurrences(t: seq<Arg>, n: nat, f: string)
    requires n <= |t|
    ensures Occurrences(Emitted(t, n), f) == Count(t, n, f)
  {
    if n > 0 {
      OccurrencesConcat(Emitted(t, n - 1), Tokens(t[n - 1]), f);
      TokenCount(t[n - 1], f);
      CountIsOccurrences(t, n - 1, f);
    }
  }

  /** A string that is no flag and no emitted value of the first n options does not occur in
      their tokens. */
  lemma {:induction false} NotATokenOf(t: seq<Arg>, n: nat, f: string)
    requires n <= |t|
    requires forall i :: 0 <= i < n ==> t[i].flag != f && (t[i].Valued? && t[i].on ==> t[i].value != f)
    ensures Count(t, n, f) == 0
  {
    if n > 0 {
      var last := t[n - 1];
      assert last.flag != f && (last.Valued? && last.on ==> last.value != f);
      NotATokenOf(t, n - 1, f);
    }
  }

  /** When flags and values are kept apart, option k's flag occurs once among the tokens of the
      first n options if option k is on and not at all if it is off. */
  lemma {:induction false} FlagOccurrences(t: seq<Arg>, k: nat, n: nat)
    requires k < n <= |t|
    requires NoSharedFlag(t) && TableValuesAvoidFlags(t)
    ensures Count(t, n, t[k].flag) == Bit(t[k].on)
  {
    var f := t[k].flag;
    var last := t[n - 1];
    assert last.Valued? && last.on ==> last.value != f;
    if k == n - 1 {
      forall i | 0 <= i < k
        ensures t[i].flag != f && (t[i].Valued? && t[i].on ==> t[i].value != f)
      {
        assert t[i].flag != t[k].flag;
      }
      NotATokenOf(t, k, f);
    } else {
      assert t[k].flag != last.flag;
      FlagOccurrences(t, k, n - 1);
    }
  }

  // ---------------------------------------------------------------------------------------
  // Properties of the assembled command line
  // ---------------------------------------------------------------------------------------

  /** The fourteen flag names are pairwise different. */
  lemma FlagsDistinct()
    ensures forall i, j :: 0 <= i < j < |Flags| ==> Flags[i] != Flags[j]
  {
  }

  /** No configured value reads as a flag name. Nothing in the plugin prevents, say, a baseline
      path "--debug"; the occurrence counts below hold when this is so. */
  predicate ConfiguredValuesAvoidFlags(p: Parameters, pluginPaths: string)
  {
    p.baseline !in Flags && p.config !in Flags && p.configResource !in Flags &&
    JoinWith(p.filters, Semicolon) !in Flags && p.input !in Flags &&
    p.output !in Flags && p.outputName !in Flags && pluginPaths !in Flags
  }

  /** The options of the table carry pairwise different flags. */
  lemma TableFlagsDistinct(p: Parameters, pluginPaths: string)
    ensures NoSharedFlag(Table(p, pluginPaths))
  {
    FlagsDistinct();
    TableFlags(p, pluginPaths);
  }

  /** Under ConfiguredValuesAvoidFlags, no emitted value of the table is a flag of the table. */
  lemma TableKeepsValuesApart(p: Parameters, pluginPaths: string)
    requires ConfiguredValuesAvoidFlags(p, pluginPaths)
    ensures TableValuesAvoidFlags(Table(p, pluginPaths))
  {
    TableFlags(p, pluginPaths);
  }

  /** Option k's tokens follow those of the options before it. */
  lemma OffsetStep(t: seq<Arg>, k: nat)
    requires k < |t|
    ensures Offset(t, k + 1) == Offset(t, k) + |Tokens(t[k])|
  {
    assert Emitted(t, k + 1) == Emitted(t, k) + Tokens(t[k]);
  }

  /** The first three switches contribute one token each when true. */
  lemma FirstSwitchTokens(p: Parameters, pluginPaths: string)
    ensures Offset(Table(p, pluginPaths), 3) == Bit(p.help) + Bit(p.createBaseline) + Bit(p.debug)
  {
    var t := Table(p, pluginPaths);
    assert Offset(t, 0) == 0;
    OffsetStep(t, 0);
    OffsetStep(t, 1);
    OffsetStep(t, 2);
  }

  /** The last three switches contribute one token each when true. */
  lemma LastSwitchTokens(p: Parameters, pluginPaths: string)
    ensures Offset(Table(p, pluginPaths), 6)
         == Offset(Table(p, pluginPaths), 3) + Bit(p.disableDefaultRuleSets) + Bit(p.generateConfig) + Bit(p.parallel)
  {
    var t := Table(p, pluginPaths);
    OffsetStep(t, 3);
    OffsetStep(t, 4);
    OffsetStep(t, 5);
  }

  /** The first four valued options contribute two tokens each when set. */
  lemma FirstValuedTokens(p: Parameters, pluginPaths: string)
    ensures Offset(Table(p, pluginPaths), 10)
         == Offset(Table(p, pluginPaths), 6) + 2 * (Bit(p.baseline != "") + Bit(p.config != "")
                                                 + Bit(p.configResource != "") + Bit(p.filters != []))
  {
    var t := Table(p, pluginPaths);
    OffsetStep(t, 6);
    OffsetStep(t, 7);
    OffsetStep(t, 8);
    OffsetStep(t, 9);
  }

  /** The last four valued options contribute two tokens each when set. */
  lemma LastValuedTokens(p: Parameters, pluginPaths: string)
    ensures Offset(Table(p, pluginPaths), 14)
         == Offset(Table(p, pluginPaths), 10) + 2 * (Bit(p.input != "") + Bit(p.output != "")
                                                  + Bit(p.outputName != "") + Bit(p.plugins != []))
  {
    var t := Table(p, pluginPaths);
    OffsetStep(t, 10);
    OffsetStep(t, 11);
    OffsetStep(t, 12);
    OffsetStep(t, 13);
  }

  /** The command line holds one token per true switch and two per set string or list option. */
  lemma ArgCount(p: Parameters, pluginPaths: string)
    ensures |Args(p, pluginPaths)|
         == Bit(p.help) + Bit(p.createBaseline) + Bit(p.debug) + Bit(p.disableDefaultRuleSets)
          + Bit(p.generateConfig) + Bit(p.parallel)
          + 2 * (Bit(p.baseline != "") + Bit(p.config != "") + Bit(p.configResource != "")
               + Bit(p.filters != []) + Bit(p.input != "") + Bit(p.output != "")
               + Bit(p.outputName != "") + Bit(p.plugins != []))
  {
    FirstSwitchTokens(p, pluginPaths);
    LastSwitchTokens(p, pluginPaths);
    FirstValuedTokens(p, pluginPaths);
    LastValuedTokens(p, pluginPaths);
  }

  /** Each option's flag occurs in the command line once when the option is emitted and not at
      all otherwise. */
  lemma FlagCounts(p: Parameters, pluginPaths: string)
    requires ConfiguredValuesAvoidFlags(p, pluginPaths)
    ensures forall k :: 0 <= k < |Flags| ==>
      Occurrences(Args(p, pluginPaths), Flags[k]) == Bit(Table(p, pluginPaths)[k].on)
  {
    TableFlagsDistinct(p, pluginPaths);
    TableKeepsValuesApart(p, pluginPaths);
    TableFlags(p, pluginPaths);
    forall k | 0 <= k < |Flags|
      ensures Occurrences(Args(p, pluginPaths), Flags[k]) == Bit(Table(p, pluginPaths)[k].on)
    {
      FlagOccurrences(Table(p, pluginPaths), k, OptionCount);
      CountIsOccurrences(Table(p, pluginPaths), OptionCount, Flags[k]);
    }
  }

  /** A non-empty filter list becomes `--filters` followed by the filters joined with ';', and
      splitting that value at ';' gives the filters back when none of them contains ';'. */
  lemma FiltersToken(p: Parameters, pluginPaths: string)
    requires p.filters != []
    ensures var a := Args(p, pluginPaths); var o := Offset(Table(p, pluginPaths), FiltersIndex);
      o + 1 < |a| && a[o] == FILTERS && a[o + 1] == JoinWith(p.filters, Semicolon)
    ensures (forall i :: 0 <= i < |p.filters| ==> Semicolon !in p.filters[i]) ==>
      Split(Args(p, pluginPaths)[Offset(Table(p, pluginPaths), FiltersIndex) + 1], Semicolon) == p.filters
  {
    var t := Table(p, pluginPaths);
    TokensAtOffset(t, FiltersIndex);
    var a := Args(p, pluginPaths);
    var o := Offset(t, FiltersIndex);
    assert a[o..o + 2] == [FILTERS, JoinWith(p.filters, Semicolon)];
    assert a[o] == a[o..o + 2][0] && a[o + 1] == a[o..o + 2][1];
    if forall i :: 0 <= i < |p.filters| ==> Semicolon !in p.filters[i] {
      SplitJoin(p.filters, Semicolon);
    }
  }

  /** With plugin entries configured, the command line ends with `--plugins` and the resolved
      paths joined with ';'. */
  lemma PluginsToken(p: Parameters, fileExists: string -> bool)
    requires p.plugins != []
    ensures var a := CliArgs(p, fileExists);
      |a| >= 2 && a[|a| - 2..] == [PLUGINS, JoinWith(ResolvedAll(p, fileExists, p.plugins), Semicolon)]
  {
    var t := Table(p, PluginPathsValue(p, fileExists));
    TokensAtOffset(t, 13);
    StripTerminator(ResolvedAll(p, fileExists, p.plugins), Semicolon);
  }

  /** Entries that are no existing files resolve to nothing when no plugin dependencies are
      declared. */
  lemma {:induction false} NothingResolves(p: Parameters, fileExists: string -> bool, entries: seq<string>)
    requires p.pluginDependencies.None?
    requires forall i :: 0 <= i < |entries| ==> !fileExists(entries[i])
    ensures ResolvedAll(p, fileExists, entries) == []
  {
    if entries != [] {
      NothingResolves(p, fileExists, entries[1..]);
    }
  }

  /** With a plugin descriptor declared, entries that are no existing files and that no declared
      dependency matches resolve to nothing: a mistyped coordinate is dropped silently. */
  lemma {:induction false} NoneMatches(p: Parameters, fileExists: string -> bool, entries: seq<string>)
    requires p.pluginDependencies.Some?
    requires forall i :: 0 <= i < |entries| ==> !fileExists(entries[i])
    requires forall i, d :: 0 <= i < |entries| && d in p.pluginDependencies.value ==> Coordinate(d) != entries[i]
    ensures ResolvedAll(p, fileExists, entries) == []
  {
    if entries != [] {
      NonFileEntry(p, fileExists, entries[0]);
      NoneMatches(p, fileExists, entries[1..]);
    }
  }

  /** Plugin entries that resolve to nothing still produce `--plugins` with an empty value. */
  lemma EmptyPluginsValue(p: Parameters, fileExists: string -> bool)
    requires p.plugins != []
    requires ResolvedAll(p, fileExists, p.plugins) == []
    ensures var a := CliArgs(p, fileExists); |a| >= 2 && a[|a| - 2..] == [PLUGINS, ""]
  {
    PluginsToken(p, fileExists);
  }

  /** With nothing configured, detekt is asked to analyse `<basedir>/src` and report to
      `<basedir>/detekt`, and nothing else. */
  lemma DefaultArgs(basedir: string, localRepo: string, deps: Option<seq<Dependency>>, fileExists: string -> bool)
    ensures CliArgs(Defaults(basedir, localRepo, deps), fileExists)
         == [INPUT, basedir + "/src", OUTPUT, basedir + "/detekt"]
  {
    var p := Defaults(basedir, localRepo, deps);
    assert |p.input| > 0 && |p.output| > 0;
    TableSpelledOut(p, PluginPathsValue(p, fileExists));
  }
}
