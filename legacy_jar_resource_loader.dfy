/**
 * `com.kraken.JarResourceLoader`: the older loader that scans JAR files on
 * disk. The constructor selects the `.jar` files found under the resources
 * directory; `loadPluginClasses` loads every candidate class of every JAR
 * through a `URLClassLoader` and keeps the ones that pass
 * `isAssignableFrom(Plugin.class)`.
 *
 * The file walk, the JAR directory and class loading are inputs: a walk
 * result, a function from JAR path to its entry names, and a function saying
 * which class names a JAR's loader can load. Reflection's subtype test is a
 * relation on class names, one per JAR's loader.
 */
module LegacyJarScanning {
  import opened Wrappers
  import opened JavaStrings
  import opened Host
  import opened JarLoading

  const JAR_SUFFIX: string := ".jar"

  /** A path met by `Files.walk`, and whether it is a regular file. */
  datatype PathInfo = PathInfo(path: string, isRegularFile: bool)

  /** Opening a JAR file gives its entry names in directory order, or throws `IOException`. */
  datatype JarDirectory = Entries(names: seq<string>) | Unreadable

  /** A class as loaded by the loader of one JAR. */
  datatype ScannedClass = ScannedClass(jarPath: string, name: string)

  datatype ScanEnvironment = ScanEnvironment(
    openJar: string -> JarDirectory,
    /** Whether `loadClass(name)` succeeds on the loader of the JAR at the given path. */
    loadable: (string, string) -> bool,
    /** `isSubtype(jarPath, sub, sup)`: in the loader of that JAR, class `sub` is `sup` or one of its subtypes. */
    isSubtype: (string, string, string) -> bool)

  /**
   * The keep test `potentialPluginClass.isAssignableFrom(Plugin.class)`: the
   * host's `Plugin` is the class itself or one of its subtypes, so the class
   * is `Plugin` or a supertype of it.
   */
  predicate AssignableFromPlugin(env: ScanEnvironment, c: ScannedClass) {
    env.isSubtype(c.jarPath, PLUGIN_BASE_CLASS_NAME, c.name)
  }

  /** Subtyping within one loader is antisymmetric, as class hierarchies are. */
  ghost predicate Antisymmetric(env: ScanEnvironment) {
    forall j, a, b :: env.isSubtype(j, a, b) && env.isSubtype(j, b, a) ==> a == b
  }

  // ---------------------------------------------------------------- constructor

  /** Kept by the constructor: a regular file whose path ends in ".jar". */
  predicate IsJarFile(p: PathInfo) {
    p.isRegularFile && EndsWith(p.path, JAR_SUFFIX)
  }

  /** The paths of the selected files, in walk order. */
  function SelectJars(walk: seq<PathInfo>): seq<string> {
    if walk == [] then []
    else SelectJars(walk[..|walk| - 1]) + (if IsJarFile(walk[|walk| - 1]) then [walk[|walk| - 1].path] else [])
  }

  /** A path is selected exactly when the walk met it as a regular `.jar` file. */
  lemma {:induction false} SelectJarsMembers(walk: seq<PathInfo>, path: string)
    ensures path in SelectJars(walk) <==> exists i :: 0 <= i < |walk| && IsJarFile(walk[i]) && walk[i].path == path
  {
    if walk != [] {
      var init := walk[..|walk| - 1];
      SelectJarsMembers(init, path);
      forall i | 0 <= i < |init| ensures init[i] == walk[i] { }
    }
  }

  // ---------------------------------------------------------------- scanning

  /** `listClasses`' filter: class files that are not inner classes. */
  predicate IsListedEntry(name: string) {
    EndsWith(name, CLASS_SUFFIX) && '$' !in name
  }

  /** `loadPluginClasses`' filter: the same, and under the package path. */
  predicate IsCandidate(name: string, packageName: string) {
    IsListedEntry(name) && StartsWith(name, packageName)
  }

  /**
   * The classes kept from one JAR's entries: a candidate whose class cannot
   * be loaded throws `ClassNotFoundException`, whose handler lies outside the
   * entry loop, so the rest of the JAR is abandoned.
   */
  function ScanEntries(jarPath: string, names: seq<string>, packageName: string, env: ScanEnvironment): seq<ScannedClass> {
    if names == [] then []
    else if !IsCandidate(names[0], packageName) then ScanEntries(jarPath, names[1..], packageName, env)
    else
      var c := ScannedClass(jarPath, ClassName(names[0]));
      if !env.loadable(jarPath, c.name) then []
      else (if AssignableFromPlugin(env, c) then [c] else []) + ScanEntries(jarPath, names[1..], packageName, env)
  }

  /** The classes kept from one JAR; an unreadable JAR contributes none. */
  function ScanJar(jarPath: string, packageName: string, env: ScanEnvironment): seq<ScannedClass> {
    match env.openJar(jarPath)
    case Unreadable => []
    case Entries(names) => ScanEntries(jarPath, names, packageName, env)
  }

  /** All JARs in path order. */
  function ScanJars(jarPaths: seq<string>, packageName: string, env: ScanEnvironment): seq<ScannedClass> {
    if jarPaths == [] then []
    else ScanJars(jarPaths[..|jarPaths| - 1], packageName, env) + ScanJar(jarPaths[|jarPaths| - 1], packageName, env)
  }

  /** The names `listClasses` hands to the filter. */
  function Listed(names: seq<string>): seq<string> {
    if names == [] then []
    else Listed(names[..|names| - 1]) + (if IsListedEntry(names[|names| - 1]) then [names[|names| - 1]] else [])
  }

  /** Those the filter accepts, which get logged. */
  function Accepted(names: seq<string>, filter: string -> bool): seq<string> {
    if names == [] then []
    else
      var name := names[|names| - 1];
      Accepted(names[..|names| - 1], filter) + (if IsListedEntry(name) && filter(name) then [name] else [])
  }

  class JarResourceLoader {
    var jarPaths: seq<string>

    /** `walk` is what `Files.walk("src/main/resources")` yields; `None` when it throws `IOException`. */
    constructor (walk: Option<seq<PathInfo>>)
      ensures walk.None? ==> jarPaths == []
      ensures walk.Some? ==> jarPaths == SelectJars(walk.value)
    {
      var selected: seq<string> := [];
      if walk.Some? {
        var paths := walk.value;
        var i := 0;
        while i < |paths|
          invariant 0 <= i <= |paths|
          invariant selected == SelectJars(paths[..i])
        {
          assert paths[..i + 1][..i] == paths[..i];
          if paths[i].isRegularFile && EndsWith(paths[i].path, JAR_SUFFIX) {
            selected := selected + [paths[i].path];
          }
          i := i + 1;
        }
        assert paths[..i] == paths;
      } else {
        // "Error reading jar file paths"
      }
      jarPaths := selected;
    }

    /**
     * `listClasses`: `offered` are the entries passed to the filter and
     * `logged` those it accepted. An unreadable JAR offers nothing.
     */
    method ListClasses(jarPath: string, filter: string -> bool, openJar: string -> JarDirectory)
      returns (offered: seq<string>, logged: seq<string>)
      ensures openJar(jarPath).Unreadable? ==> offered == [] && logged == []
      ensures openJar(jarPath).Entries? ==>
        offered == Listed(openJar(jarPath).names) && logged == Accepted(openJar(jarPath).names, filter)
    {
      offered, logged := [], [];
      match openJar(jarPath) {
        case Unreadable =>
        case Entries(names) =>
          var i := 0;
          while i < |names|
            invariant 0 <= i <= |names|
            invariant offered == Listed(names[..i]) && logged == Accepted(names[..i], filter)
          {
            assert names[..i + 1][..i] == names[..i];
            var name := names[i];
            if EndsWith(name, CLASS_SUFFIX) && '$' !in name {
              offered := offered + [name];
              if filter(name) {
                logged := logged + [name];
              }
            }
            i := i + 1;
          }
          assert names[..i] == names;
      }
    }

    /** `loadPluginClasses`: the kept classes of every JAR, in path order then entry order. */
    method LoadPluginClasses(packageName: string, env: ScanEnvironment) returns (classes: seq<ScannedClass>)
      ensures classes == ScanJars(jarPaths, packageName, env)
    {
      classes := [];
      var i := 0;
      while i < |jarPaths|
        invariant 0 <= i <= |jarPaths|
        invariant classes == ScanJars(jarPaths[..i], packageName, env)
      {
        assert jarPaths[..i + 1][..i] == jarPaths[..i];
        var jarPath := jarPaths[i];
        match env.openJar(jarPath) {
          case Unreadable =>
            // "Failed to load jar classes"
          case Entries(names) =>
            var kept := ScanOpenedJar(jarPath, names, packageName, env);
            classes := classes + kept;
        }
        i := i + 1;
      }
      assert jarPaths[..i] == jarPaths;
    }
  }

  /** The entry loop of `loadPluginClasses` over one opened JAR; returning early stands for the escaping `ClassNotFoundException`. */
  method ScanOpenedJar(jarPath: string, names: seq<string>, packageName: string, env: ScanEnvironment)
    returns (kept: seq<ScannedClass>)
    ensures kept == ScanEntries(jarPath, names, packageName, env)
  {
    kept := [];
    var j := 0;
    while j < |names|
      invariant 0 <= j <= |names|
      invariant kept + ScanEntries(jarPath, names[j..], packageName, env) == ScanEntries(jarPath, names, packageName, env)
    {
      var name := names[j];
      assert names[j..][1..] == names[j + 1..];
      if EndsWith(name, CLASS_SUFFIX) && '$' !in name && StartsWith(name, packageName) {
        var className := ClassName(name);
        if !env.loadable(jarPath, className) {
          // "No class found": the handler is outside this loop.
          assert kept == ScanEntries(jarPath, names, packageName, env);
          return;
        }
        var potentialPluginClass := ScannedClass(jarPath, className);
        if env.isSubtype(jarPath, PLUGIN_BASE_CLASS_NAME, className) {
          kept := kept + [potentialPluginClass];
        }
      }
      j := j + 1;
    }
    assert names[j..] == [];
  }

  // ---------------------------------------------------------------- properties

  /** A kept class comes from a candidate entry of its JAR, converted to its binary name, and passed the reversed test. */
  lemma {:induction false} ScanEntriesSound(jarPath: string, names: seq<string>, packageName: string, env: ScanEnvironment, c: ScannedClass)
    requires c in ScanEntries(jarPath, names, packageName, env)
    ensures c.jarPath == jarPath && AssignableFromPlugin(env, c) && env.loadable(jarPath, c.name)
    ensures exists i :: 0 <= i < |names| && IsCandidate(names[i], packageName) && ClassName(names[i]) == c.name
  {
    if names != [] && c in ScanEntries(jarPath, names[1..], packageName, env) {
      ScanEntriesSound(jarPath, names[1..], packageName, env, c);
      var i :| 0 <= i < |names[1..]| && IsCandidate(names[1..][i], packageName) && ClassName(names[1..][i]) == c.name;
      assert names[i + 1] == names[1..][i];
    }
  }

  /** No kept class is an inner class: the '$' filter leaves none. */
  lemma NoInnerClassKept(jarPath: string, names: seq<string>, packageName: string, env: ScanEnvironment, c: ScannedClass)
    requires c in ScanEntries(jarPath, names, packageName, env)
    ensures '$' !in c.name
  {
    ScanEntriesSound(jarPath, names, packageName, env, c);
    var i :| 0 <= i < |names| && IsCandidate(names[i], packageName) && ClassName(names[i]) == c.name;
    forall k | 0 <= k < |c.name| ensures c.name[k] != '$' {
      assert names[i][k] != '$';
    }
  }

  /** A candidate that cannot be loaded ends the JAR: entries after it do not matter. */
  lemma {:induction false} FailureAbandonsRest(jarPath: string, names: seq<string>, packageName: string, env: ScanEnvironment, i: nat)
    requires i < |names| && IsCandidate(names[i], packageName) && !env.loadable(jarPath, ClassName(names[i]))
    ensures ScanEntries(jarPath, names, packageName, env) == ScanEntries(jarPath, names[..i], packageName, env)
  {
    if i > 0 {
      assert names[1..][..i - 1] == names[..i][1..];
      FailureAbandonsRest(jarPath, names[1..], packageName, env, i - 1);
    }
  }

  /** JARs are scanned independently: a failure in one leaves the others' results as they are. */
  lemma {:induction false} ScanJarsAppend(a: seq<string>, b: seq<string>, packageName: string, env: ScanEnvironment)
    ensures ScanJars(a + b, packageName, env) == ScanJars(a, packageName, env) + ScanJars(b, packageName, env)
  {
    if b != [] {
      assert (a + b)[..|a + b| - 1] == a + b[..|b| - 1];
      ScanJarsAppend(a, b[..|b| - 1], packageName, env);
    } else {
      assert a + b == a;
    }
  }

  /**
   * A candidate that loads and passes the keep test is kept, provided no
   * earlier candidate of the JAR failed to load.
   */
  lemma {:induction false} ScanEntriesComplete(jarPath: string, names: seq<string>, packageName: string, env: ScanEnvironment, i: nat)
    requires i < |names| && IsCandidate(names[i], packageName) && env.loadable(jarPath, ClassName(names[i]))
    requires AssignableFromPlugin(env, ScannedClass(jarPath, ClassName(names[i])))
    requires forall k :: 0 <= k < i && IsCandidate(names[k], packageName) ==> env.loadable(jarPath, ClassName(names[k]))
    ensures ScannedClass(jarPath, ClassName(names[i])) in ScanEntries(jarPath, names, packageName, env)
  {
    if i > 0 {
      forall k | 0 <= k < i - 1 && IsCandidate(names[1..][k], packageName)
        ensures env.loadable(jarPath, ClassName(names[1..][k]))
      {
        assert names[1..][k] == names[k + 1];
      }
      ScanEntriesComplete(jarPath, names[1..], packageName, env, i - 1);
    }
  }

  /** Every class kept from a list of JARs comes from one of them and passed the keep test there. */
  lemma {:induction false} ScanJarsSound(jarPaths: seq<string>, packageName: string, env: ScanEnvironment, c: ScannedClass)
    requires c in ScanJars(jarPaths, packageName, env)
    ensures c.jarPath in jarPaths && AssignableFromPlugin(env, c) && env.loadable(c.jarPath, c.name)
  {
    var init := jarPaths[..|jarPaths| - 1];
    var last := jarPaths[|jarPaths| - 1];
    if c in ScanJars(init, packageName, env) {
      ScanJarsSound(init, packageName, env, c);
      assert c.jarPath in jarPaths by {
        var k :| 0 <= k < |init| && init[k] == c.jarPath;
        assert jarPaths[k] == c.jarPath;
      }
    } else {
      assert c in ScanJar(last, packageName, env);
      match env.openJar(last) {
        case Entries(names) =>
          ScanEntriesSound(last, names, packageName, env, c);
      }
    }
  }

  /**
   * The keep test is reversed: a proper subclass of `Plugin`, which is what
   * a plugin entry point is, is never kept from any JAR.
   */
  lemma SubclassOfPluginDropped(jarPaths: seq<string>, packageName: string, env: ScanEnvironment, c: ScannedClass)
    requires Antisymmetric(env)
    requires env.isSubtype(c.jarPath, c.name, PLUGIN_BASE_CLASS_NAME) && c.name != PLUGIN_BASE_CLASS_NAME
    ensures c !in ScanJars(jarPaths, packageName, env)
  {
    if c in ScanJars(jarPaths, packageName, env) {
      ScanJarsSound(jarPaths, packageName, env, c);
      assert false;
    }
  }

  /** `listClasses` only ever offers class files without '$'. */
  lemma {:induction false} ListedAreClassFiles(names: seq<string>)
    ensures forall k :: 0 <= k < |Listed(names)| ==> IsListedEntry(Listed(names)[k])
  {
    if names != [] {
      var init := names[..|names| - 1];
      ListedAreClassFiles(init);
      var last := if IsListedEntry(names[|names| - 1]) then [names[|names| - 1]] else [];
      forall k | 0 <= k < |Listed(names)| ensures IsListedEntry(Listed(names)[k]) {
        if k < |Listed(init)| {
          assert Listed(names)[k] == Listed(init)[k];
        } else {
          assert Listed(names)[k] == last[k - |Listed(init)|];
        }
      }
    }
  }
}
