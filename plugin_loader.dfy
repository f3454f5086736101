/**
 * Finding plugins on disk. A component's plugins live in
 * `<plugins>/<component>/<version>/<flag file>`; a loader turns the flag
 * files it finds into plugin descriptors and picks the best one for a
 * requested version, and the manager keeps one loader per plugin kind and
 * component.
 */
module PluginLoaders {
  import opened Text
  import opened Wrappers
  import opened Versions

  datatype PluginType = Start | Param | Install | SnapConfig | PyScript

  /** A registered plugin type, or a script plugin known only by its name. */
  datatype PluginKind = Typed(t: PluginType) | Script(name: string)

  /** The name of the class each registered type is loaded with. */
  function ClassName(t: PluginType): string {
    match t
    case Start => "StartPlugin"
    case Param => "ParamPlugin"
    case Install => "InstallPlugin"
    case SnapConfig => "SnapConfigPlugin"
    case PyScript => "PyScriptPlugin"
  }

  /** The file that marks a version directory as holding a plugin of this
      kind; None when no loadable class backs the kind (no class exists for
      start plugins, and the script base class has no flag file). */
  function FlagFile(kind: PluginKind): Option<string> {
    match kind
    case Typed(Start) => None
    case Typed(Param) => Some("parameter.yaml")
    case Typed(Install) => Some("file_map.yaml")
    case Typed(SnapConfig) => Some("snap_config.yaml")
    case Typed(PyScript) => None
    case Script(name) => Some(name + ".py")
  }

  datatype LoadError = NotImplemented | ImportError(className: string)

  // ---------------------------------------------------------------- paths

  /** The index just after the last '/' among the first `n` characters, 0 when there is none. */
  function SlashEnd(p: string, n: nat): (i: nat)
    requires n <= |p|
    ensures i <= n
  {
    if n == 0 then 0
    else if p[n - 1] == '/' then n
    else SlashEnd(p, n - 1)
  }

  /** How many of the first `n` characters remain once trailing '/' are dropped. */
  function TrimSlashes(p: string, n: nat): (j: nat)
    requires n <= |p|
    ensures j <= n
  {
    if n > 0 && p[n - 1] == '/' then TrimSlashes(p, n - 1) else n
  }

  /** POSIX `os.path.split`: everything before the last '/' (trailing
      slashes dropped unless the head is only slashes) and the rest. */
  function PathSplit(p: string): (string, string) {
    var i := SlashEnd(p, |p|);
    var j := TrimSlashes(p, i);
    (if j > 0 then p[..j] else p[..i], p[i..])
  }

  /** POSIX `os.path.join` of two parts. */
  function PathJoin(a: string, b: string): string {
    if |b| > 0 && b[0] == '/' then b
    else if a == "" || a[|a| - 1] == '/' then a + b
    else a + "/" + b
  }

  lemma {:induction false} SlashEndAfter(p: string, m: nat, n: nat)
    requires 0 < m <= n <= |p| && p[m - 1] == '/'
    requires forall k :: m <= k < n ==> p[k] != '/'
    ensures SlashEnd(p, n) == m
    decreases n
  {
    if n > m {
      SlashEndAfter(p, m, n - 1);
    }
  }

  /** Splitting `x/y` gives back `x` and `y` when `y` has no '/' and `x`
      is a non-empty path without a trailing '/'. */
  lemma SplitOfJoin(x: string, y: string)
    requires |x| > 0 && x[|x| - 1] != '/'
    requires forall k :: 0 <= k < |y| ==> y[k] != '/'
    ensures PathJoin(x, y) == x + "/" + y
    ensures PathSplit(x + "/" + y) == (x, y)
  {
    var p := x + "/" + y;
    forall k | |x| + 1 <= k < |p| ensures p[k] != '/' {
      assert p[k] == y[k - |x| - 1];
    }
    SlashEndAfter(p, |x| + 1, |p|);
    assert TrimSlashes(p, |x| + 1) == |x| by {
      assert p[|x|] == '/' && p[|x| - 1] == x[|x| - 1];
    }
    assert p[..|x|] == x;
    assert p[|x| + 1..] == y;
    if |y| > 0 {
      assert y[0] != '/';
    }
  }

  // ---------------------------------------------------------------- descriptors

  /** A plugin found on disk: its component, kind, directory and version. */
  datatype PluginDescriptor = PluginDescriptor(
    componentName: string, kind: PluginKind, path: string, version: Version, devMode: bool)

  /** The first plugin whose version is exactly `v`. */
  function FirstWithVersion(ps: seq<PluginDescriptor>, v: Version): Option<PluginDescriptor> {
    if |ps| == 0 then None
    else if ps[0].version == v then Some(ps[0])
    else FirstWithVersion(ps[1..], v)
  }

  /** The exact match is the earliest plugin of that version, and there is
      none exactly when no plugin has that version. */
  lemma {:induction false} FirstWithVersionSpec(ps: seq<PluginDescriptor>, v: Version)
    ensures var r := FirstWithVersion(ps, v);
      && (r.Some? ==> exists k :: 0 <= k < |ps| && ps[k] == r.value && r.value.version == v &&
                                  forall j :: 0 <= j < k ==> ps[j].version != v)
      && (r.None? <==> forall k :: 0 <= k < |ps| ==> ps[k].version != v)
  {
    if |ps| > 0 && ps[0].version != v {
      FirstWithVersionSpec(ps[1..], v);
      var r := FirstWithVersion(ps, v);
      if r.Some? {
        var k :| 0 <= k < |ps[1..]| && ps[1..][k] == r.value && r.value.version == v &&
                 forall j :: 0 <= j < k ==> ps[1..][j].version != v;
        assert ps[k + 1] == r.value;
        assert forall j :: 0 < j < k + 1 ==> ps[j] == ps[1..][j - 1];
      } else {
        assert forall k :: 0 < k < |ps| ==> ps[k] == ps[1..][k - 1];
      }
    } else if |ps| > 0 {
      assert ps[0] == FirstWithVersion(ps, v).value;
    }
  }

  /** The plugins strictly older than `v`, in their order. */
  function Older(ps: seq<PluginDescriptor>, v: Version): seq<PluginDescriptor> {
    if |ps| == 0 then []
    else
      var last := ps[|ps| - 1];
      Older(ps[..|ps| - 1], v) + (if Less(last.version, v) then [last] else [])
  }

  /** A plugin is among the older ones exactly when it is older than `v`. */
  lemma {:induction false} OlderMembers(ps: seq<PluginDescriptor>, v: Version, p: PluginDescriptor)
    ensures p in Older(ps, v) <==> p in ps && Less(p.version, v)
  {
    if |ps| > 0 {
      var init := ps[..|ps| - 1];
      OlderMembers(init, v, p);
      assert ps == init + [ps[|ps| - 1]];
    }
  }

  /** Where the newest plugin sits: the first position of the newest
      version (a later plugin replaces the candidate only when strictly newer). */
  function NewestIndex(ps: seq<PluginDescriptor>): (k: nat)
    requires |ps| > 0
    ensures k < |ps|
  {
    if |ps| == 1 then 0
    else
      var m := NewestIndex(ps[..|ps| - 1]);
      if Less(ps[m].version, ps[|ps| - 1].version) then |ps| - 1 else m
  }

  function Newest(ps: seq<PluginDescriptor>): PluginDescriptor
    requires |ps| > 0
  {
    ps[NewestIndex(ps)]
  }

  /** No plugin is newer than the newest one. */
  lemma {:induction false} NewestIsGreatest(ps: seq<PluginDescriptor>, j: nat)
    requires j < |ps|
    ensures LessEq(ps[j].version, Newest(ps).version)
    decreases |ps|
  {
    if |ps| > 1 {
      var init := ps[..|ps| - 1];
      var m := NewestIndex(init);
      var last := ps[|ps| - 1];
      assert init[m] == ps[m];
      Trichotomy(ps[m].version, last.version);
      if j < |ps| - 1 {
        NewestIsGreatest(init, j);
        assert init[j] == ps[j];
        if Less(ps[m].version, last.version) {
          LessEqTransitive(ps[j].version, ps[m].version, last.version);
        }
      } else if !Less(ps[m].version, last.version) {
        assert LessEq(last.version, ps[m].version);
      }
    }
  }

  /** Every plugin before the newest one is strictly older. */
  lemma {:induction false} NewestIsFirst(ps: seq<PluginDescriptor>, j: nat)
    requires |ps| > 0 && j < NewestIndex(ps)
    ensures Less(ps[j].version, Newest(ps).version)
    decreases |ps|
  {
    assert |ps| > 1;
    var init := ps[..|ps| - 1];
    var m := NewestIndex(init);
    var last := ps[|ps| - 1];
    assert init[m] == ps[m] && init[j] == ps[j];
    if NewestIndex(ps) == m {
      NewestIsFirst(init, j);
    } else {
      NewestIsGreatest(init, j);
      if Less(ps[j].version, ps[m].version) {
        LessTransitive(ps[j].version, ps[m].version, last.version);
      }
    }
  }

  /** Which plugin serves a request for version `v`: an exact match if there
      is one, else the newest strictly older plugin, else none. */
  function BestPlugin(ps: seq<PluginDescriptor>, v: Version): Option<PluginDescriptor> {
    var exact := FirstWithVersion(ps, v);
    if exact.Some? then exact
    else
      var older := Older(ps, v);
      if |older| > 0 then Some(Newest(older)) else None
  }

  /** What the chosen plugin is, case by case. */
  lemma BestPluginSpec(ps: seq<PluginDescriptor>, v: Version)
    ensures var best := BestPlugin(ps, v);
      && (best.Some? ==> best.value in ps && LessEq(best.value.version, v))
      && ((exists p :: p in ps && p.version == v) ==> best.Some? && best.value.version == v)
      && (best.None? <==> forall p :: p in ps ==> !LessEq(p.version, v))
      && (best.Some? && best.value.version != v ==>
            forall p :: p in ps && Less(p.version, v) ==> LessEq(p.version, best.value.version))
  {
    FirstWithVersionSpec(ps, v);
    var older := Older(ps, v);
    var best := BestPlugin(ps, v);
    if FirstWithVersion(ps, v).None? {
      assert forall p :: p in ps ==> p.version != v;
      forall p | p in ps && Less(p.version, v) ensures p in older {
        OlderMembers(ps, v, p);
      }
      if |older| > 0 {
        OlderMembers(ps, v, Newest(older));
        forall p | p in ps && Less(p.version, v) ensures LessEq(p.version, Newest(older).version) {
          var j :| 0 <= j < |older| && older[j] == p;
          NewestIsGreatest(older, j);
        }
      } else {
        forall p | p in ps ensures !LessEq(p.version, v) {
          OlderMembers(ps, v, p);
        }
      }
    }
  }

  /** A request between two versions, with neither present, is served by the
      older neighbour. */
  lemma BestPluginBetween(a: PluginDescriptor, b: PluginDescriptor, c: PluginDescriptor)
    requires a.version == [1, 0] && b.version == [2, 0] && c.version == [3, 0]
    ensures BestPlugin([a, b, c], [2, 5]) == Some(b)
    ensures BestPlugin([a, b, c], [2, 0]) == Some(b)
    ensures BestPlugin([a, b, c], [0, 9]) == None
  {
    var ps := [a, b, c];
    var v1: Version := [1, 0];
    var v2: Version := [2, 0];
    var v3: Version := [3, 0];
    var mid: Version := [2, 5];
    var low: Version := [0, 9];
    assert v2[1..] == [0] && mid[1..] == [5];
    assert Less(v1, mid) && Less(v2, mid) && !Less(v3, mid);
    assert Less(v1, v2) && !Less(v2, v1) && !Less(v3, v2);
    assert !Less(v1, low) && !Less(v2, low) && !Less(v3, low);
    assert v1 != mid && v2 != mid && v3 != mid && v1 != v2 && v3 != v2;
    assert v1 != low && v2 != low && v3 != low;
    BestPluginSpec(ps, mid);
    assert b in ps;
    BestPluginSpec(ps, v2);
    BestPluginSpec(ps, low);
  }

  // ---------------------------------------------------------------- script class names

  function Capitalize(s: string): string {
    if |s| == 0 then "" else [ToUpper(s[0])] + Lower(s[1..])
  }

  function ConcatCapitalized(words: seq<string>): string {
    if |words| == 0 then "" else Capitalize(words[0]) + ConcatCapitalized(words[1..])
  }

  /** The name of the class synthesised for a script plugin: the script
      name split at '_', each word capitalised, joined without separator. */
  function ScriptClassName(name: string): string {
    "PyScript" + ConcatCapitalized(Split(name, "_")) + "Plugin"
  }

  /** Synthesised classes live in one registry keyed by class name; the
      value is the script name the class was made for. A name whose class
      already exists reuses it. */
  function RegisterScriptClass(registry: map<string, string>, name: string): map<string, string> {
    var cls := ScriptClassName(name);
    if cls in registry then registry else registry[cls := name]
  }

  /** The flag file a script loader globs for, as the class registry decides it. */
  function ScriptFlagFileAsWritten(registry: map<string, string>, name: string): string {
    var cls := ScriptClassName(name);
    (if cls in registry then registry[cls] else name) + ".py"
  }

  /** The words of the two colliding script names. */
  lemma WordsOfUp2()
    ensures Split("up_2", "_") == ["up", "2"]
    ensures Split("up2", "_") == ["up2"]
  {
    assert "up_2" == "up" + ['_'] + "2";
    SplitAtFirstSeparator("up", "2", '_');
    SplitWithoutSeparator("2", '_');
    SplitWithoutSeparator("up2", '_');
  }

  /** Two script names that differ only in an underscore before a digit get
      one class, so the second loader looks for the first one's files. */
  lemma ScriptClassCollision()
    ensures ScriptClassName("up_2") == ScriptClassName("up2")
    ensures ScriptFlagFileAsWritten(RegisterScriptClass(map[], "up_2"), "up2") == "up_2.py"
  {
    WordsOfUp2();
    assert Capitalize("up") + Capitalize("2") == Capitalize("up2");
    assert ConcatCapitalized(["up", "2"]) == Capitalize("up") + Capitalize("2");
  }

  /** Keyed by the script name itself, every script has its own flag file. */
  lemma ScriptFlagFilesDistinct(a: string, b: string)
    requires a != b
    ensures FlagFile(Script(a)) != FlagFile(Script(b))
  {
    assert (a + ".py")[..|a|] == a;
    assert (b + ".py")[..|b|] == b;
  }

  /** The plugin a flag file stands for: its directory, and the version
      named by that directory. */
  function DescribePlugin(componentName: string, kind: PluginKind, devMode: bool,
                          versionOf: string -> Version, flagPath: string): PluginDescriptor {
    var dir := PathSplit(flagPath).0;
    PluginDescriptor(componentName, kind, dir, versionOf(PathSplit(dir).1), devMode)
  }

  /** A flag file `<home>/<dir>/<flag>` is the plugin in `<home>/<dir>` of version `dir`. */
  lemma DescribeFlagPath(componentName: string, kind: PluginKind, devMode: bool,
                         versionOf: string -> Version, home: string, dir: string, flag: string)
    requires |home| > 0 && home[|home| - 1] != '/'
    requires |dir| > 0 && forall k :: 0 <= k < |dir| ==> dir[k] != '/'
    requires forall k :: 0 <= k < |flag| ==> flag[k] != '/'
    ensures DescribePlugin(componentName, kind, devMode, versionOf, home + "/" + dir + "/" + flag) ==
              PluginDescriptor(componentName, kind, home + "/" + dir, versionOf(dir), devMode)
  {
    var d := home + "/" + dir;
    assert d[|d| - 1] == dir[|dir| - 1];
    SplitOfJoin(d, flag);
    SplitOfJoin(home, dir);
  }

  // ---------------------------------------------------------------- loaders

  /** Finds the plugins of one kind for one component directory and caches
      their descriptors by flag file path. */
  class ComponentPluginLoader {
    const path: string
    const componentName: string
    const kind: PluginKind
    const flagFile: string
    const devMode: bool
    /** How a version directory's name is read as a version. */
    const versionOf: string -> Version
    /** How a found flag file is read as a plugin. */
    const describe: string -> PluginDescriptor
    var plugins: map<string, PluginDescriptor>

    ghost predicate Valid()
      reads this
    {
      forall fp :: fp in plugins ==> plugins[fp] == describe(fp)
    }

    /** The loader reads flag files by their path. */
    ghost predicate ReadsPaths() {
      forall fp :: describe(fp) == DescribePlugin(componentName, kind, devMode, versionOf, fp)
    }

    constructor (path: string, kind: PluginKind, devMode: bool, versionOf: string -> Version)
      requires FlagFile(kind).Some?
      ensures this.path == path && this.kind == kind && this.devMode == devMode
      ensures this.versionOf == versionOf
      ensures componentName == PathSplit(path).1 && flagFile == FlagFile(kind).value
      ensures plugins == map[] && Valid() && ReadsPaths()
    {
      this.path := path;
      this.kind := kind;
      this.devMode := devMode;
      this.versionOf := versionOf;
      var name := PathSplit(path).1;
      componentName := name;
      flagFile := FlagFile(kind).value;
      describe := fp => DescribePlugin(name, kind, devMode, versionOf, fp);
      plugins := map[];
    }

    function Candidates(found: seq<string>): seq<PluginDescriptor> {
      seq(|found|, i requires 0 <= i < |found| => describe(found[i]))
    }

    /** The plugins for the flag files the glob found, in that order; known
        files come from the cache, new ones are added to it. */
    method GetPlugins(found: seq<string>) returns (ps: seq<PluginDescriptor>)
      requires Valid()
      modifies this`plugins
      ensures Valid()
      ensures ps == Candidates(found)
      ensures old(plugins).Keys <= plugins.Keys
      ensures forall k :: k in plugins ==> k in old(plugins) || k in found
      ensures forall k :: k in found ==> k in plugins
    {
      ps := [];
      var i := 0;
      while i < |found|
        invariant 0 <= i <= |found|
        invariant Valid()
        invariant |ps| == i && forall j :: 0 <= j < i ==> ps[j] == describe(found[j])
        invariant old(plugins).Keys <= plugins.Keys
        invariant forall k :: k in plugins ==> k in old(plugins) || k in found[..i]
        invariant forall k :: k in found[..i] ==> k in plugins
      {
        var fp := found[i];
        if fp in plugins {
          ps := ps + [plugins[fp]];
        } else {
          var p := describe(fp);
          plugins := plugins[fp := p];
          ps := ps + [p];
        }
        assert found[..i + 1] == found[..i] + [fp];
        i := i + 1;
      }
      assert found[..i] == found;
    }

    /** The plugin that serves a request for `version`. */
    method GetBestPlugin(version: Version, found: seq<string>) returns (best: Option<PluginDescriptor>)
      requires Valid()
      modifies this`plugins
      ensures Valid()
      ensures old(plugins).Keys <= plugins.Keys
      ensures forall k :: k in plugins ==> k in old(plugins) || k in found
      ensures best == BestPlugin(Candidates(found), version)
    {
      var ps := GetPlugins(found);
      var exact, older := ScanPlugins(ps, version);
      if exact.Some? {
        best := exact;
      } else if |older| > 0 {
        var newest := NewestOf(older);
        best := Some(newest);
      } else {
        best := None;
      }
    }
  }

  /** The first loop of `get_best_plugin`: stops at the first exact match,
      otherwise collects the strictly older plugins in order. */
  method ScanPlugins(ps: seq<PluginDescriptor>, version: Version)
    returns (exact: Option<PluginDescriptor>, older: seq<PluginDescriptor>)
    ensures exact == FirstWithVersion(ps, version)
    ensures exact.None? ==> older == Older(ps, version)
  {
    older := [];
    var i := 0;
    while i < |ps|
      invariant 0 <= i <= |ps|
      invariant older == Older(ps[..i], version)
      invariant FirstWithVersion(ps, version) == FirstWithVersion(ps[i..], version)
    {
      if ps[i].version == version {
        return Some(ps[i]), older;
      }
      if Less(ps[i].version, version) {
        older := older + [ps[i]];
      }
      assert ps[..i + 1][..i] == ps[..i];
      assert ps[i..][1..] == ps[i + 1..];
      i := i + 1;
    }
    assert ps[..i] == ps;
    exact := None;
  }

  /** Python's `max` with a key: the first plugin of the greatest version. */
  method NewestOf(ps: seq<PluginDescriptor>) returns (newest: PluginDescriptor)
    requires |ps| > 0
    ensures newest == Newest(ps)
  {
    newest := ps[0];
    var j := 1;
    while j < |ps|
      invariant 1 <= j <= |ps|
      invariant newest == Newest(ps[..j])
    {
      if Less(newest.version, ps[j].version) {
        newest := ps[j];
      }
      assert ps[..j + 1][..j] == ps[..j];
      j := j + 1;
    }
    assert ps[..j] == ps;
  }

  /** One loader per registered type and component, and one per script name
      and component, created on first use. */
  class PluginManager {
    /** The manager's plugin directory. */
    const pluginsPath: string
    const devMode: bool
    const versionOf: string -> Version
    var typedLoaders: map<PluginType, map<string, ComponentPluginLoader>>
    var scriptLoaders: map<string, map<string, ComponentPluginLoader>>
    ghost var Repr: set<ComponentPluginLoader>

    ghost predicate Serves(l: ComponentPluginLoader, kind: PluginKind, component: string)
      reads this, Repr
    {
      l in Repr && l.kind == kind && l.path == PathJoin(pluginsPath, component) &&
      l.devMode == devMode && l.Valid()
    }

    /** Every loader of a table serves its kind for its own component. */
    ghost predicate TableServes(table: map<string, ComponentPluginLoader>, kind: PluginKind)
      reads this, Repr
    {
      forall c :: c in table ==> Serves(table[c], kind, c)
    }

    ghost predicate Valid()
      reads this, Repr
    {
      && typedLoaders.Keys == {Start, Param, Install, SnapConfig}
      && typedLoaders[Start] == map[]
      && (forall t :: t in typedLoaders ==> TableServes(typedLoaders[t], Typed(t)))
      && (forall s :: s in scriptLoaders ==> TableServes(scriptLoaders[s], Script(s)))
    }

    /** Every registered type but the script base type gets a loader table. */
    constructor (pluginsPath: string, devMode: bool, versionOf: string -> Version)
      ensures Valid()
      ensures this.pluginsPath == pluginsPath && this.devMode == devMode && this.versionOf == versionOf
      ensures typedLoaders == map[Start := map[], Param := map[], Install := map[], SnapConfig := map[]]
      ensures scriptLoaders == map[]
    {
      this.pluginsPath := pluginsPath;
      this.devMode := devMode;
      this.versionOf := versionOf;
      typedLoaders := map[Start := map[], Param := map[], Install := map[], SnapConfig := map[]];
      scriptLoaders := map[];
      Repr := {};
    }

    /** The loader of a registered type for a component, created on first use. */
    method TypedLoader(t: PluginType, component: string) returns (r: Result<ComponentPluginLoader, LoadError>)
      requires Valid() && t in typedLoaders
      modifies this
      ensures Valid() && old(Repr) <= Repr && fresh(Repr - old(Repr))
      ensures scriptLoaders == old(scriptLoaders)
      ensures t == Start ==> r == Err(ImportError("StartPlugin")) && typedLoaders == old(typedLoaders)
      ensures t != Start ==>
                && r.Ok? && r.value in Repr && r.value.Valid()
                && typedLoaders == old(typedLoaders)[t := old(typedLoaders)[t][component := r.value]]
                && (component in old(typedLoaders)[t] ==> r.value == old(typedLoaders)[t][component])
                && (component !in old(typedLoaders)[t] ==> fresh(r.value) && r.value.ReadsPaths())
    {
      var loaders := typedLoaders[t];
      assert TableServes(loaders, Typed(t));
      if component in loaders {
        assert Serves(loaders[component], Typed(t), component);
        assert loaders[component := loaders[component]] == loaders;
        assert typedLoaders[t := loaders] == typedLoaders;
        return Ok(loaders[component]);
      }
      if FlagFile(Typed(t)).None? {
        return Err(ImportError(ClassName(t)));
      }
      var l := AddTypedLoader(t, component);
      r := Ok(l);
    }

    /** A new loader for a registered type and component, recorded in the type's table. */
    method AddTypedLoader(t: PluginType, component: string) returns (l: ComponentPluginLoader)
      requires Valid() && t in typedLoaders && t != Start && FlagFile(Typed(t)).Some?
      modifies this`typedLoaders, this`Repr
      ensures Valid() && Repr == old(Repr) + {l}
      ensures fresh(l) && l.Valid() && l.ReadsPaths()
      ensures typedLoaders == old(typedLoaders)[t := old(typedLoaders)[t][component := l]]
    {
      l := new ComponentPluginLoader(PathJoin(pluginsPath, component), Typed(t), devMode, versionOf);
      Repr := Repr + {l};
      typedLoaders := typedLoaders[t := typedLoaders[t][component := l]];
    }

    /** The best plugin of a registered type for a component and version.
        `found` is what the loader's glob finds. */
    method GetBestPlugin(t: PluginType, component: string, version: Version, found: seq<string>)
      returns (r: Result<Option<PluginDescriptor>, LoadError>)
      requires Valid()
      modifies this, Repr
      ensures Valid() && old(Repr) <= Repr && fresh(Repr - old(Repr))
      ensures scriptLoaders == old(scriptLoaders)
      ensures t == PyScript ==> r == Ok(None) && typedLoaders == old(typedLoaders)
      ensures t == Start ==> r == Err(ImportError("StartPlugin")) && typedLoaders == old(typedLoaders)
      ensures t == Param || t == Install || t == SnapConfig ==>
                && component in typedLoaders[t]
                && var l := typedLoaders[t][component];
                && typedLoaders == old(typedLoaders)[t := old(typedLoaders)[t][component := l]]
                && (component in old(typedLoaders)[t] ==> l == old(typedLoaders)[t][component])
                && (component !in old(typedLoaders)[t] ==> fresh(l) && l.ReadsPaths())
                && r == Ok(BestPlugin(l.Candidates(found), version))
    {
      if t !in typedLoaders {
        return Ok(None);
      }
      var loader := TypedLoader(t, component);
      if loader.Err? {
        return Err(loader.error);
      }
      var best := loader.value.GetBestPlugin(version, found);
      r := Ok(best);
    }

    /** The loader table of a script, made empty on first use. */
    method ScriptTable(script: string) returns (table: map<string, ComponentPluginLoader>)
      requires Valid()
      modifies this`scriptLoaders
      ensures Valid()
      ensures table == if script in old(scriptLoaders) then old(scriptLoaders)[script] else map[]
      ensures scriptLoaders == old(scriptLoaders)[script := table]
    {
      if script !in scriptLoaders {
        scriptLoaders := scriptLoaders[script := map[]];
      }
      table := scriptLoaders[script];
      assert scriptLoaders[script := table] == scriptLoaders;
    }

    /** A new loader for a script and component, recorded in the script's table. */
    method AddScriptLoader(script: string, component: string) returns (l: ComponentPluginLoader)
      requires Valid() && script in scriptLoaders && script != ""
      modifies this`scriptLoaders, this`Repr
      ensures Valid() && Repr == old(Repr) + {l}
      ensures fresh(l) && l.Valid() && l.ReadsPaths()
      ensures scriptLoaders == old(scriptLoaders)[script := old(scriptLoaders)[script][component := l]]
    {
      l := new ComponentPluginLoader(PathJoin(pluginsPath, component), Script(script), devMode, versionOf);
      Repr := Repr + {l};
      scriptLoaders := scriptLoaders[script := scriptLoaders[script][component := l]];
    }

    /** The loader of a script for a component, created on first use. The
        script's table is made before the name is checked, so an empty name
        still leaves an (empty) table behind. */
    method ScriptLoader(script: string, component: string) returns (r: Result<ComponentPluginLoader, LoadError>)
      requires Valid()
      modifies this
      ensures Valid() && old(Repr) <= Repr && fresh(Repr - old(Repr))
      ensures typedLoaders == old(typedLoaders)
      ensures var table: map<string, ComponentPluginLoader> := if script in old(scriptLoaders) then old(scriptLoaders)[script] else map[];
        && (component in table ==> r == Ok(table[component]) && scriptLoaders == old(scriptLoaders)[script := table])
        && (component !in table && script == "" ==>
              r == Err(NotImplemented) && scriptLoaders == old(scriptLoaders)[script := table])
        && (component !in table && script != "" ==>
              r.Ok? && fresh(r.value) && r.value.ReadsPaths() &&
              scriptLoaders == old(scriptLoaders)[script := table[component := r.value]])
      ensures r.Ok? ==> r.value in Repr && r.value.Valid()
    {
      var loaders := ScriptTable(script);
      assert TableServes(loaders, Script(script));
      if component in loaders {
        assert Serves(loaders[component], Script(script), component);
        return Ok(loaders[component]);
      }
      if script == "" {
        return Err(NotImplemented);
      }
      var l := AddScriptLoader(script, component);
      r := Ok(l);
    }

    /** The best script plugin of a given name for a component and version. */
    method GetBestScriptPlugin(script: string, component: string, version: Version, found: seq<string>)
      returns (r: Result<Option<PluginDescriptor>, LoadError>)
      requires Valid()
      modifies this, Repr
      ensures Valid() && old(Repr) <= Repr && fresh(Repr - old(Repr))
      ensures typedLoaders == old(typedLoaders)
      ensures var table: map<string, ComponentPluginLoader> := if script in old(scriptLoaders) then old(scriptLoaders)[script] else map[];
        && (component !in table && script == "" ==>
              r == Err(NotImplemented) && scriptLoaders == old(scriptLoaders)[script := table])
        && (component in table || script != "" ==>
              && script in scriptLoaders && component in scriptLoaders[script]
              && var l := scriptLoaders[script][component];
              && scriptLoaders == old(scriptLoaders)[script := table[component := l]]
              && (component in table ==> l == table[component])
              && (component !in table ==> fresh(l) && l.ReadsPaths())
              && r == Ok(BestPlugin(l.Candidates(found), version)))
    {
      ghost var table: map<string, ComponentPluginLoader> := if script in scriptLoaders then scriptLoaders[script] else map[];
      var loader := ScriptLoader(script, component);
      if loader.Err? {
        return Err(loader.error);
      }
      assert component in table ==> table[component := loader.value] == table;
      var best := loader.value.GetBestPlugin(version, found);
      r := Ok(best);
    }
  }
}
