/**
 * `com.kraken.KrakenPluginManager`: collects plugin entry classes from the
 * downloaded JARs, then has the host instantiate them, checks each plugin's
 * licence and starts the licensed ones.
 *
 * Reflection is replaced by a tag: a class obtained from a loader carries the
 * name of its declared superclass, computed from its bytes by `superOf`. The
 * host's plugin manager, config manager and the hardware id are the fields
 * of an `Environment`; the calls made into the host are appended to
 * `hostCalls`.
 */
module PluginManagement {
  import opened Wrappers
  import opened Host
  import opened ClassLoading
  import opened JarLoading
  import opened KrakenApi

  const PACKAGE_NAME: string := "com/krakenplugins"

  /** A class obtained from a loader, with the name of its direct superclass (`None`: it has none). */
  datatype LoadedClass = LoadedClass(name: string, superName: Option<string>)

  /** The host and backend as the orchestration pass sees them. */
  datatype Environment = Environment(
    /** `pluginManager.loadPlugins(classes, null)`; `None` when it throws. */
    loadPlugins: seq<LoadedClass> -> Option<seq<Plugin>>,
    /** The config group of the plugin's config descriptor; `None` when the config proxy or descriptor is null. */
    configGroup: Plugin -> Option<string>,
    /** `configManager.getConfiguration(group, key)`. */
    configuration: (string, string) -> Option<string>,
    /** `HardwareUtils.getHardwareId()`. */
    hardwareId: string,
    encodeLicense: ValidateLicenseRequest -> Option<string>,
    send: HttpRequest -> SendOutcome,
    decodeMap: string -> MapDecode,
    /** Whether `pluginManager.startPlugin(plugin)` throws. */
    startThrows: Plugin -> bool)

  /** How `loadPlugin` ends: normally, or with an escaping `NullPointerException`. */
  datatype LoadOutcome = Completed | NullLoaderEscaped

  predicate Distinct<T(==)>(s: seq<T>) {
    forall i, j :: 0 <= i < j < |s| ==> s[i] != s[j]
  }

  // ---------------------------------------------------------------- classification

  /** Kept: the direct superclass exists and is named exactly like the host's base class. */
  predicate ExtendsPluginDirectly(c: LoadedClass) {
    c.superName == Some(PLUGIN_BASE_CLASS_NAME)
  }

  /** The entry classes found, visiting `order`; a name the map lacks is not found and skipped. */
  function Classify(classData: map<string, Bytes>, order: seq<string>, superOf: Bytes -> Option<string>): seq<LoadedClass> {
    if order == [] then []
    else
      var name := order[|order| - 1];
      var found :=
        if name in classData && ExtendsPluginDirectly(LoadedClass(name, superOf(classData[name])))
        then [LoadedClass(name, superOf(classData[name]))] else [];
      Classify(classData, order[..|order| - 1], superOf) + found
  }

  /** A `HashMap` key set in one of its iteration orders. */
  method EnumerateKeys(keys: set<string>) returns (order: seq<string>)
    ensures forall k :: k in order <==> k in keys
    ensures Distinct(order)
  {
    order := [];
    var rest := keys;
    while rest != {}
      invariant rest <= keys
      invariant forall k :: k in order <==> k in keys && k !in rest
      invariant Distinct(order)
      decreases rest
    {
      var k :| k in rest;
      order := order + [k];
      rest := rest - {k};
    }
  }

  /** What one pass of `startKrakenPlugins` has changed so far. */
  datatype PassState = PassState(pluginMap: map<string, Plugin>, verified: map<string, bool>, hostCalls: seq<HostCall>)

  /** The pass goes on, or an exception has ended it (the handler only logs). */
  datatype StepResult = Continue(state: PassState) | Abort(state: PassState)

  /** The licence request built for a plugin whose config group is known. */
  function LicenseRequestFor(p: Plugin, group: string, user: CognitoUser, env: Environment): ValidateLicenseRequest {
    ValidateLicenseRequest(user.credentials, env.configuration(group, "licenseKey"), env.hardwareId)
  }

  /** The licence verdict a plugin gets, when it reaches the check. */
  function VerdictFor(p: Plugin, user: CognitoUser, env: Environment): Verdict
    requires env.configGroup(p).Some?
  {
    LicenseVerdict(LicenseRequestFor(p, env.configGroup(p).value, user, env), env.encodeLicense, env.send, env.decodeMap)
  }

  /** Record the plugin in the map and enable it with the host. */
  function Register(s: PassState, p: Plugin): PassState {
    s.(pluginMap := s.pluginMap[p.name := p], hostCalls := s.hostCalls + [SetPluginEnabled(p, true)])
  }

  /** One iteration of the loop over the instantiated plugins. */
  function Step(s: PassState, p: Plugin, user: CognitoUser, env: Environment): StepResult {
    if env.configGroup(p).None? then Continue(s)
    else match VerdictFor(p, user, env)
      case Threw => Abort(s)
      case Returned(valid) =>
        if valid then
          var s1 := s.(verified := s.verified[p.name := true], hostCalls := s.hostCalls + [StartPlugin(p)]);
          if env.startThrows(p) then Abort(s1) else Continue(Register(s1, p))
        else
          Continue(Register(s.(verified := s.verified[p.name := false]), p))
  }

  /** The loop over `plugins`, stopping at the first exception. */
  function Pass(s: PassState, plugins: seq<Plugin>, user: CognitoUser, env: Environment): StepResult {
    if plugins == [] then Continue(s)
    else match Pass(s, plugins[..|plugins| - 1], user, env)
      case Abort(t) => Abort(t)
      case Continue(t) => Step(t, plugins[|plugins| - 1], user, env)
  }

  lemma {:induction false} AbortIsFinal(s: PassState, plugins: seq<Plugin>, i: nat, user: CognitoUser, env: Environment)
    requires i <= |plugins| && Pass(s, plugins[..i], user, env).Abort?
    ensures Pass(s, plugins, user, env) == Pass(s, plugins[..i], user, env)
  {
    if i < |plugins| {
      assert plugins[..|plugins| - 1][..i] == plugins[..i];
      AbortIsFinal(s, plugins[..|plugins| - 1], i, user, env);
    } else {
      assert plugins[..i] == plugins;
    }
  }

  // ---------------------------------------------------------------- the manager

  class KrakenPluginManager {
    var pluginMap: map<string, Plugin>
    var pluginClasses: seq<LoadedClass>
    var verifiedPlugins: map<string, bool>
    var user: Option<CognitoUser>
    /** Calls made into the host's plugin manager, oldest first. */
    var hostCalls: seq<HostCall>

    constructor ()
      ensures pluginMap == map[] && pluginClasses == [] && verifiedPlugins == map[]
      ensures user == None && hostCalls == []
    {
      pluginMap := map[];
      pluginClasses := [];
      verifiedPlugins := map[];
      user := None;
      hostCalls := [];
    }

    /**
     * `loadPlugin`: every class the loader holds is loaded, in the key set's
     * iteration order `order`, and the direct subclasses of the host's base
     * class are appended to `pluginClasses`. When the JAR cannot be opened the
     * loader is null and dereferencing it throws `NullPointerException`, which
     * the `IOException` handler does not catch.
     */
    method LoadPlugin(connection: Connection, superOf: Bytes -> Option<string>)
      returns (outcome: LoadOutcome, order: seq<string>)
      modifies this`pluginClasses
      ensures connection.OpenFailed? ==> outcome == NullLoaderEscaped && pluginClasses == old(pluginClasses)
      ensures connection.Opened? ==>
        var classData := ClassMap(PACKAGE_NAME, connection.stream.entries);
        && outcome == Completed
        && (forall k :: k in order <==> k in classData)
        && Distinct(order)
        && pluginClasses == old(pluginClasses) + Classify(classData, order, superOf)
    {
      var loader := LoadJarFromSignedUrl(PACKAGE_NAME, connection);
      if loader == null {
        return NullLoaderEscaped, [];
      }
      order := EnumerateKeys(loader.classData.Keys);
      var i := 0;
      while i < |order|
        invariant 0 <= i <= |order|
        invariant pluginClasses == old(pluginClasses) + Classify(loader.classData, order[..i], superOf)
      {
        var className := order[i];
        assert order[..i + 1][..i] == order[..i];
        match loader.FindClass(className) {
          case ClassNotFound(_) =>
            // "Class: {} could not be found": logged and skipped.
          case Defined(_, bytes, _, _) =>
            var clazz := LoadedClass(className, superOf(bytes));
            if clazz.superName.Some? && clazz.superName.value == PLUGIN_BASE_CLASS_NAME {
              pluginClasses := pluginClasses + [clazz];
            }
        }
        i := i + 1;
      }
      assert order[..i] == order;
      outcome := Completed;
    }

    /**
     * `startKrakenPlugins`: nothing happens without a user. Otherwise the host
     * instantiates `pluginClasses` and each plugin goes through `Step`; the
     * first exception ends the pass, keeping what earlier plugins recorded.
     */
    method StartKrakenPlugins(env: Environment)
      modifies this`pluginMap, this`verifiedPlugins, this`hostCalls
      ensures user.None? || env.loadPlugins(pluginClasses).None? ==>
        pluginMap == old(pluginMap) && verifiedPlugins == old(verifiedPlugins) && hostCalls == old(hostCalls)
      ensures user.Some? && env.loadPlugins(pluginClasses).Some? ==>
        PassState(pluginMap, verifiedPlugins, hostCalls) ==
          Pass(PassState(old(pluginMap), old(verifiedPlugins), old(hostCalls)),
               env.loadPlugins(pluginClasses).value, user.value, env).state
    {
      if user.None? {
        // "User is null. Cannot validate plugins with null user."
        return;
      }
      var loaded := env.loadPlugins(pluginClasses);
      if loaded.None? {
        return;
      }
      var plugins := loaded.value;
      var u := user.value;
      ghost var s0 := PassState(pluginMap, verifiedPlugins, hostCalls);
      var i := 0;
      while i < |plugins|
        invariant 0 <= i <= |plugins|
        invariant Pass(s0, plugins[..i], u, env) == Continue(PassState(pluginMap, verifiedPlugins, hostCalls))
      {
        var plugin := plugins[i];
        assert plugins[..i + 1][..i] == plugins[..i];
        var group := env.configGroup(plugin);
        if group.None? {
          // "Failed to get license key from plugin config"
          i := i + 1;
          continue;
        }
        var licenseKey := env.configuration(group.value, "licenseKey");
        var req := ValidateLicenseRequest(u.credentials, licenseKey, env.hardwareId);
        var verdict := ValidateLicense(req, env.encodeLicense, env.send, env.decodeMap);
        if verdict.Threw? {
          AbortIsFinal(s0, plugins, i + 1, u, env);
          return;
        }
        if verdict.valid {
          verifiedPlugins := verifiedPlugins[plugin.name := true];
          hostCalls := hostCalls + [StartPlugin(plugin)];
          if env.startThrows(plugin) {
            AbortIsFinal(s0, plugins, i + 1, u, env);
            return;
          }
        } else {
          verifiedPlugins := verifiedPlugins[plugin.name := false];
        }
        pluginMap := pluginMap[plugin.name := plugin];
        hostCalls := hostCalls + [SetPluginEnabled(plugin, true)];
        i := i + 1;
      }
      assert plugins[..i] == plugins;
    }
  }

  // ---------------------------------------------------------------- properties of loadPlugin

  /** A class is kept exactly when its name was visited, the loader holds it, and it directly extends the base class. */
  lemma {:induction false} ClassifyMembers(classData: map<string, Bytes>, order: seq<string>,
                                           superOf: Bytes -> Option<string>, c: LoadedClass)
    ensures c in Classify(classData, order, superOf) <==>
      c.name in order && c.name in classData && c.superName == superOf(classData[c.name]) && ExtendsPluginDirectly(c)
  {
    if order != [] {
      var init := order[..|order| - 1];
      ClassifyMembers(classData, init, superOf, c);
      assert order == init + [order[|order| - 1]];
    }
  }

  /** Only the direct superclass counts: a class whose parent is itself a plugin class is not kept. */
  lemma GrandchildExcluded(classData: map<string, Bytes>, order: seq<string>, superOf: Bytes -> Option<string>,
                           name: string, parentName: string)
    requires name in classData && superOf(classData[name]) == Some(parentName)
    requires parentName != PLUGIN_BASE_CLASS_NAME
    ensures forall c :: c in Classify(classData, order, superOf) ==> c.name != name
  {
    forall c | c in Classify(classData, order, superOf) ensures c.name != name {
      ClassifyMembers(classData, order, superOf, c);
    }
  }

  /** Visiting each key once keeps each class at most once. */
  lemma {:induction false} ClassifyDistinct(classData: map<string, Bytes>, order: seq<string>, superOf: Bytes -> Option<string>)
    requires Distinct(order)
    ensures Distinct(Classify(classData, order, superOf))
  {
    if order != [] {
      var init := order[..|order| - 1];
      var name := order[|order| - 1];
      ClassifyDistinct(classData, init, superOf);
      var prev := Classify(classData, init, superOf);
      forall c | c in prev ensures c.name != name {
        ClassifyMembers(classData, init, superOf, c);
      }
    }
  }

  // ---------------------------------------------------------------- properties of startKrakenPlugins

  /** The pass only appends to the host-call trace. */
  lemma {:induction false} PassExtendsTrace(s: PassState, plugins: seq<Plugin>, user: CognitoUser, env: Environment)
    ensures var r := Pass(s, plugins, user, env).state;
      |s.hostCalls| <= |r.hostCalls| && r.hostCalls[..|s.hostCalls|] == s.hostCalls
  {
    if plugins != [] {
      PassExtendsTrace(s, plugins[..|plugins| - 1], user, env);
    }
  }

  /** Every plugin started in the trace had a licence verdict of `true`. */
  ghost predicate StartsAreLicensed(calls: seq<HostCall>, user: CognitoUser, env: Environment) {
    forall k :: 0 <= k < |calls| && calls[k].StartPlugin? ==>
      env.configGroup(calls[k].plugin).Some? && VerdictFor(calls[k].plugin, user, env) == Returned(true)
  }

  /** The pass never starts a plugin whose licence check did not return `true`. */
  lemma {:induction false} PassStartsOnlyLicensed(s: PassState, plugins: seq<Plugin>, user: CognitoUser, env: Environment)
    requires StartsAreLicensed(s.hostCalls, user, env)
    ensures StartsAreLicensed(Pass(s, plugins, user, env).state.hostCalls, user, env)
  {
    if plugins != [] {
      PassStartsOnlyLicensed(s, plugins[..|plugins| - 1], user, env);
    }
  }

  /** Every started plugin's name is recorded as verified. */
  ghost predicate StartedAreVerified(s: PassState) {
    forall k :: 0 <= k < |s.hostCalls| && s.hostCalls[k].StartPlugin? ==>
      s.hostCalls[k].plugin.name in s.verified && s.verified[s.hostCalls[k].plugin.name]
  }

  /** Names of the plugins started in `calls`. */
  ghost predicate StartedName(calls: seq<HostCall>, name: string) {
    exists k :: 0 <= k < |calls| && calls[k].StartPlugin? && calls[k].plugin.name == name
  }

  /**
   * Started implies verified, as long as no two plugins of the pass share a
   * name and none shares a name with a plugin started before the pass.
   */
  lemma PassKeepsStartedVerified(s: PassState, plugins: seq<Plugin>, user: CognitoUser, env: Environment)
    requires StartedAreVerified(s)
    requires forall i, j :: 0 <= i < j < |plugins| ==> plugins[i].name != plugins[j].name
    requires forall i :: 0 <= i < |plugins| ==> !StartedName(s.hostCalls, plugins[i].name)
    ensures StartedAreVerified(Pass(s, plugins, user, env).state)
  {
    StartedVerifiedUpTo(s, plugins, |plugins|, user, env);
    assert plugins[..|plugins|] == plugins;
  }

  lemma {:induction false} StartedVerifiedUpTo(s: PassState, plugins: seq<Plugin>, n: nat, user: CognitoUser, env: Environment)
    requires n <= |plugins|
    requires StartedAreVerified(s)
    requires forall i, j :: 0 <= i < j < |plugins| ==> plugins[i].name != plugins[j].name
    requires forall i :: 0 <= i < |plugins| ==> !StartedName(s.hostCalls, plugins[i].name)
    ensures var t := Pass(s, plugins[..n], user, env).state;
      && StartedAreVerified(t)
      && forall i :: n <= i < |plugins| ==> !StartedName(t.hostCalls, plugins[i].name)
  {
    if n > 0 {
      StartedVerifiedUpTo(s, plugins, n - 1, user, env);
      assert plugins[..n][..n - 1] == plugins[..n - 1];
      var p := plugins[n - 1];
      assert plugins[..n][n - 1] == p;
      var t := Pass(s, plugins[..n - 1], user, env).state;
      var r := Pass(s, plugins[..n], user, env).state;
      if Pass(s, plugins[..n - 1], user, env).Continue? {
        assert r == Step(t, p, user, env).state;
        forall i | n <= i < |plugins| ensures !StartedName(r.hostCalls, plugins[i].name) {
          assert plugins[i].name != p.name;
          forall k | 0 <= k < |r.hostCalls| && r.hostCalls[k].StartPlugin?
            ensures r.hostCalls[k].plugin.name != plugins[i].name
          {
            if k < |t.hostCalls| {
              assert r.hostCalls[k] == t.hostCalls[k];
            }
          }
        }
        forall k | 0 <= k < |r.hostCalls| && r.hostCalls[k].StartPlugin?
          ensures r.hostCalls[k].plugin.name in r.verified && r.verified[r.hostCalls[k].plugin.name]
        {
          if k < |t.hostCalls| {
            assert r.hostCalls[k] == t.hostCalls[k];
            assert t.hostCalls[k].plugin.name != p.name;
          }
        }
      }
    }
  }

  /** With two plugins of one name, the second can turn the first's `true` into `false` after it was started. */
  lemma SharedNameOverwritesVerdict(s: PassState, a: Plugin, b: Plugin, user: CognitoUser, env: Environment)
    requires a.name == b.name
    requires env.configGroup(a).Some? && VerdictFor(a, user, env) == Returned(true) && !env.startThrows(a)
    requires env.configGroup(b).Some? && VerdictFor(b, user, env) == Returned(false)
    ensures var r := Pass(s, [a, b], user, env);
      && r.Continue?
      && StartPlugin(a) in r.state.hostCalls
      && r.state.verified[a.name] == false
  {
    assert [a, b][..1] == [a];
    assert [a][..0] == [];
    assert Pass(s, [a], user, env) == Step(s, a, user, env);
    var t := Step(s, a, user, env).state;
    assert StartPlugin(a) in t.hostCalls;
    assert Pass(s, [a, b], user, env) == Step(t, b, user, env);
  }

  /** A plugin whose licence check returns `false` is still put in the map and enabled, but not started. */
  lemma UnlicensedStillEnabled(s: PassState, p: Plugin, user: CognitoUser, env: Environment)
    requires env.configGroup(p).Some? && VerdictFor(p, user, env) == Returned(false)
    ensures var r := Step(s, p, user, env);
      && r == Continue(r.state)
      && r.state.pluginMap == s.pluginMap[p.name := p]
      && r.state.verified == s.verified[p.name := false]
      && r.state.hostCalls == s.hostCalls + [SetPluginEnabled(p, true)]
  {
  }

  /** A licensed plugin whose start throws ends the pass: verified, started, but neither mapped nor enabled. */
  lemma StartFailureEndsPass(s: PassState, p: Plugin, user: CognitoUser, env: Environment)
    requires env.configGroup(p).Some? && VerdictFor(p, user, env) == Returned(true) && env.startThrows(p)
    ensures Step(s, p, user, env) ==
      Abort(s.(verified := s.verified[p.name := true], hostCalls := s.hostCalls + [StartPlugin(p)]))
  {
  }

  /** A step only appends calls about its own plugin. */
  lemma StepAppendsOwnCalls(s: PassState, p: Plugin, user: CognitoUser, env: Environment)
    ensures var calls := Step(s, p, user, env).state.hostCalls;
      && |s.hostCalls| <= |calls| && calls[..|s.hostCalls|] == s.hostCalls
      && forall k :: |s.hostCalls| <= k < |calls| ==> calls[k].plugin == p
  {
    if env.configGroup(p).Some? && VerdictFor(p, user, env).Returned? {
      if VerdictFor(p, user, env).valid {
        var s1 := s.(verified := s.verified[p.name := true], hostCalls := s.hostCalls + [StartPlugin(p)]);
        assert Register(s1, p).hostCalls == s.hostCalls + [StartPlugin(p), SetPluginEnabled(p, true)];
      }
    }
  }

  /** No call in the trace is about `p`. */
  predicate NoCallAbout(calls: seq<HostCall>, p: Plugin) {
    forall k :: 0 <= k < |calls| ==> calls[k].plugin != p
  }

  /** A plugin without a config descriptor leaves no trace at all. */
  lemma {:induction false} UnconfiguredPluginUntouched(s: PassState, plugins: seq<Plugin>, user: CognitoUser, env: Environment, p: Plugin)
    requires env.configGroup(p).None?
    requires NoCallAbout(s.hostCalls, p)
    ensures NoCallAbout(Pass(s, plugins, user, env).state.hostCalls, p)
  {
    if plugins != [] {
      var init := plugins[..|plugins| - 1];
      UnconfiguredPluginUntouched(s, init, user, env, p);
      var q := plugins[|plugins| - 1];
      var prev := Pass(s, init, user, env);
      if prev.Continue? {
        var t := prev.state;
        assert Pass(s, plugins, user, env) == Step(t, q, user, env);
        if q == p {
          assert Step(t, q, user, env) == Continue(t);
        } else {
          StepAppendsOwnCalls(t, q, user, env);
          var calls := Step(t, q, user, env).state.hostCalls;
          forall k | 0 <= k < |calls| ensures calls[k].plugin != p {
            if k < |t.hostCalls| {
              assert calls[..|t.hostCalls|][k] == calls[k];
              assert t.hostCalls[k].plugin != p;
            }
          }
        }
      }
    }
  }
}
