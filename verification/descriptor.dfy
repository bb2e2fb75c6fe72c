/** The descriptor builder of the boot verticle: one entry of
    `vertx-boot.verticles` becomes a verticle name and a set of Vert.x
    deployment options. Every optional key is looked up; a present key is read
    with the getter of its type, an absent (or null) one takes a fixed default. */
module Descriptor {
  import opened Wrappers
  import opened ConfigTree

  const NAME_KEY := "name"
  const CONF_KEY := "configuration"
  const INSTANCES_KEY := "instances"
  const EXTRA_CLASSPATH_KEY := "extra-classpath"
  const HA_KEY := "high-availability"
  const ISOLATED_CLASSES_KEY := "isolated-classes"
  const ISOLATION_GROUP_KEY := "isolation-group"
  const MAXWORKER_EXECTIME_KEY := "max-worker-execution-time"
  const WORKER_KEY := "worker"
  const WORKER_POOLNAME_KEY := "worker-pool-name"
  const WORKER_POOLSIZE_KEY := "worker-pool-size"

  /** Vert.x `DeploymentOptions` as the verticle fills it in; `None` is a Java `null`. */
  datatype Options = Options(
    instances: Int32,
    config: Settings,
    extraClasspath: Option<seq<string>>,
    ha: bool,
    isolatedClasses: Option<seq<string>>,
    isolationGroup: Option<string>,
    maxWorkerExecuteTime: Int64,
    worker: bool,
    workerPoolName: Option<string>,
    workerPoolSize: Int32)

  /** What `deployVerticle` hands to Vert.x: the verticle name and its options. */
  datatype Deployment = Deployment(name: string, options: Options)

  /** The options of an entry that sets nothing but its name. */
  const DEFAULT_OPTIONS: Options :=
    Options(1, map[], None, false, None, None, LONG_MAX, false, None, 1)

  // ---------------------------------------------------------------------------
  // The declarative reading: which options an entry's settings stand for
  // ---------------------------------------------------------------------------

  predicate IntSetting(s: Settings, key: string, default: int, v: int) {
    if HasPath(s, key) then s[key] == VInt(v) else v == default
  }

  predicate BoolSetting(s: Settings, key: string, v: bool) {
    if HasPath(s, key) then s[key] == VBool(v) else v == false
  }

  predicate OptStringSetting(s: Settings, key: string, v: Option<string>) {
    if HasPath(s, key) then v.Some? && s[key] == VStr(v.value) else v == None
  }

  predicate OptStringListSetting(s: Settings, key: string, v: Option<seq<string>>) {
    if HasPath(s, key) then v.Some? && s[key] == VList(Strs(v.value)) else v == None
  }

  predicate ObjectSetting(s: Settings, key: string, v: Settings) {
    if HasPath(s, key) then s[key] == VObj(v) else v == map[]
  }

  /** `d` is the deployment the settings `s` describe: the name is given, every
      present key carries its field's value, every absent key its default. */
  predicate Describes(s: Settings, d: Deployment) {
    && HasPath(s, NAME_KEY) && s[NAME_KEY] == VStr(d.name)
    && IntSetting(s, INSTANCES_KEY, 1, d.options.instances)
    && ObjectSetting(s, CONF_KEY, d.options.config)
    && OptStringListSetting(s, EXTRA_CLASSPATH_KEY, d.options.extraClasspath)
    && BoolSetting(s, HA_KEY, d.options.ha)
    && OptStringListSetting(s, ISOLATED_CLASSES_KEY, d.options.isolatedClasses)
    && OptStringSetting(s, ISOLATION_GROUP_KEY, d.options.isolationGroup)
    && IntSetting(s, MAXWORKER_EXECTIME_KEY, LONG_MAX, d.options.maxWorkerExecuteTime)
    && BoolSetting(s, WORKER_KEY, d.options.worker)
    && OptStringSetting(s, WORKER_POOLNAME_KEY, d.options.workerPoolName)
    && IntSetting(s, WORKER_POOLSIZE_KEY, 1, d.options.workerPoolSize)
  }

  /** The kind of value each getter accepts. */
  datatype Kind = KString | KInt | KLong | KBool | KStringList | KObject

  predicate Conforms(v: Value, k: Kind) {
    match k
    case KString => v.VStr?
    case KInt => v.VInt? && INT_MIN <= v.num <= INT_MAX
    case KLong => v.VInt? && LONG_MIN <= v.num <= LONG_MAX
    case KBool => v.VBool?
    case KStringList => v.VList? && forall i :: 0 <= i < |v.items| ==> v.items[i].VStr?
    case KObject => v.VObj?
  }

  /** The kind of value the verticle reads each key with; `None` for keys it ignores. */
  function KindOf(key: string): Option<Kind> {
    if key == NAME_KEY then Some(KString)
    else if key == INSTANCES_KEY then Some(KInt)
    else if key == CONF_KEY then Some(KObject)
    else if key == EXTRA_CLASSPATH_KEY then Some(KStringList)
    else if key == HA_KEY then Some(KBool)
    else if key == ISOLATED_CLASSES_KEY then Some(KStringList)
    else if key == ISOLATION_GROUP_KEY then Some(KString)
    else if key == MAXWORKER_EXECTIME_KEY then Some(KLong)
    else if key == WORKER_KEY then Some(KBool)
    else if key == WORKER_POOLNAME_KEY then Some(KString)
    else if key == WORKER_POOLSIZE_KEY then Some(KInt)
    else None
  }

  /** A key is acceptable when it is absent, null, or holds a value of its kind. */
  predicate Acceptable(s: Settings, key: string, k: Kind) {
    !HasPath(s, key) || Conforms(s[key], k)
  }

  /** The entry has a name and no key the verticle reads holds a value of the wrong kind. */
  predicate WellFormed(s: Settings) {
    && HasPath(s, NAME_KEY)
    && Acceptable(s, NAME_KEY, KString)
    && Acceptable(s, INSTANCES_KEY, KInt)
    && Acceptable(s, CONF_KEY, KObject)
    && Acceptable(s, EXTRA_CLASSPATH_KEY, KStringList)
    && Acceptable(s, HA_KEY, KBool)
    && Acceptable(s, ISOLATED_CLASSES_KEY, KStringList)
    && Acceptable(s, ISOLATION_GROUP_KEY, KString)
    && Acceptable(s, MAXWORKER_EXECTIME_KEY, KLong)
    && Acceptable(s, WORKER_KEY, KBool)
    && Acceptable(s, WORKER_POOLNAME_KEY, KString)
    && Acceptable(s, WORKER_POOLSIZE_KEY, KInt)
  }

  /** `e` is an error the settings `s` justify: the name is missing, or a key
      the verticle reads holds a value of the wrong kind. */
  predicate Offending(s: Settings, e: ConfigError) {
    || (e == ConfigError(NAME_KEY, Missing) && !HasPath(s, NAME_KEY))
    || (&& KindOf(e.path).Some?
        && HasPath(s, e.path)
        && !Conforms(s[e.path], KindOf(e.path).value)
        && e.problem == (if KindOf(e.path).value == KObject then NotAnObject else WrongType))
  }

  /** `WellFormed` lists the same key/kind table as `KindOf`: an entry is well
      formed exactly when it has a name and every key the verticle reads is
      acceptable for its kind. */
  lemma WellFormedByKinds(s: Settings)
    ensures WellFormed(s) <==>
      HasPath(s, NAME_KEY) && forall key :: KindOf(key).Some? ==> Acceptable(s, key, KindOf(key).value)
  {
    assert KindOf(NAME_KEY) == Some(KString);
    assert KindOf(INSTANCES_KEY) == Some(KInt);
    assert KindOf(CONF_KEY) == Some(KObject);
    assert KindOf(EXTRA_CLASSPATH_KEY) == Some(KStringList);
    assert KindOf(HA_KEY) == Some(KBool);
    assert KindOf(ISOLATED_CLASSES_KEY) == Some(KStringList);
    assert KindOf(ISOLATION_GROUP_KEY) == Some(KString);
    assert KindOf(MAXWORKER_EXECTIME_KEY) == Some(KLong);
    assert KindOf(WORKER_KEY) == Some(KBool);
    assert KindOf(WORKER_POOLNAME_KEY) == Some(KString);
    assert KindOf(WORKER_POOLSIZE_KEY) == Some(KInt);
  }

  // ---------------------------------------------------------------------------
  // The ten getters of the verticle
  // ---------------------------------------------------------------------------

  function GetInstances(s: Settings): (r: Result<Int32, ConfigError>)
    ensures r.Success? <==> Acceptable(s, INSTANCES_KEY, KInt)
    ensures r.Success? ==> IntSetting(s, INSTANCES_KEY, 1, r.value)
    ensures r.Failure? ==> r.error == ConfigError(INSTANCES_KEY, WrongType)
  {
    if HasPath(s, INSTANCES_KEY) then GetInt(s, INSTANCES_KEY) else Success(1)
  }

  function GetConfig(s: Settings): (r: Result<Settings, ConfigError>)
    ensures r.Success? <==> Acceptable(s, CONF_KEY, KObject)
    ensures r.Success? ==> ObjectSetting(s, CONF_KEY, r.value)
    ensures r.Failure? ==> r.error == ConfigError(CONF_KEY, NotAnObject)
  {
    if HasPath(s, CONF_KEY) then GetObject(s, CONF_KEY) else Success(map[])
  }

  function GetExtraClasspath(s: Settings): (r: Result<Option<seq<string>>, ConfigError>)
    ensures r.Success? <==> Acceptable(s, EXTRA_CLASSPATH_KEY, KStringList)
    ensures r.Success? ==> OptStringListSetting(s, EXTRA_CLASSPATH_KEY, r.value)
    ensures r.Failure? ==> r.error == ConfigError(EXTRA_CLASSPATH_KEY, WrongType)
  {
    if HasPath(s, EXTRA_CLASSPATH_KEY) then
      var xs :- GetStringList(s, EXTRA_CLASSPATH_KEY); Success(Some(xs))
    else Success(None)
  }

  function GetHa(s: Settings): (r: Result<bool, ConfigError>)
    ensures r.Success? <==> Acceptable(s, HA_KEY, KBool)
    ensures r.Success? ==> BoolSetting(s, HA_KEY, r.value)
    ensures r.Failure? ==> r.error == ConfigError(HA_KEY, WrongType)
  {
    if HasPath(s, HA_KEY) then GetBoolean(s, HA_KEY) else Success(false)
  }

  function GetIsolatedClasses(s: Settings): (r: Result<Option<seq<string>>, ConfigError>)
    ensures r.Success? <==> Acceptable(s, ISOLATED_CLASSES_KEY, KStringList)
    ensures r.Success? ==> OptStringListSetting(s, ISOLATED_CLASSES_KEY, r.value)
    ensures r.Failure? ==> r.error == ConfigError(ISOLATED_CLASSES_KEY, WrongType)
  {
    if HasPath(s, ISOLATED_CLASSES_KEY) then
      var xs :- GetStringList(s, ISOLATED_CLASSES_KEY); Success(Some(xs))
    else Success(None)
  }

  function GetIsolationGroup(s: Settings): (r: Result<Option<string>, ConfigError>)
    ensures r.Success? <==> Acceptable(s, ISOLATION_GROUP_KEY, KString)
    ensures r.Success? ==> OptStringSetting(s, ISOLATION_GROUP_KEY, r.value)
    ensures r.Failure? ==> r.error == ConfigError(ISOLATION_GROUP_KEY, WrongType)
  {
    if HasPath(s, ISOLATION_GROUP_KEY) then
      var x :- GetString(s, ISOLATION_GROUP_KEY); Success(Some(x))
    else Success(None)
  }

  function GetMaxWorkerExecuteTime(s: Settings): (r: Result<Int64, ConfigError>)
    ensures r.Success? <==> Acceptable(s, MAXWORKER_EXECTIME_KEY, KLong)
    ensures r.Success? ==> IntSetting(s, MAXWORKER_EXECTIME_KEY, LONG_MAX, r.value)
    ensures r.Failure? ==> r.error == ConfigError(MAXWORKER_EXECTIME_KEY, WrongType)
  {
    if HasPath(s, MAXWORKER_EXECTIME_KEY) then GetLong(s, MAXWORKER_EXECTIME_KEY)
    else Success(LONG_MAX)
  }

  function GetWorker(s: Settings): (r: Result<bool, ConfigError>)
    ensures r.Success? <==> Acceptable(s, WORKER_KEY, KBool)
    ensures r.Success? ==> BoolSetting(s, WORKER_KEY, r.value)
    ensures r.Failure? ==> r.error == ConfigError(WORKER_KEY, WrongType)
  {
    if HasPath(s, WORKER_KEY) then GetBoolean(s, WORKER_KEY) else Success(false)
  }

  function GetWorkerPoolName(s: Settings): (r: Result<Option<string>, ConfigError>)
    ensures r.Success? <==> Acceptable(s, WORKER_POOLNAME_KEY, KString)
    ensures r.Success? ==> OptStringSetting(s, WORKER_POOLNAME_KEY, r.value)
    ensures r.Failure? ==> r.error == ConfigError(WORKER_POOLNAME_KEY, WrongType)
  {
    if HasPath(s, WORKER_POOLNAME_KEY) then
      var x :- GetString(s, WORKER_POOLNAME_KEY); Success(Some(x))
    else Success(None)
  }

  function GetWorkerPoolSize(s: Settings): (r: Result<Int32, ConfigError>)
    ensures r.Success? <==> Acceptable(s, WORKER_POOLSIZE_KEY, KInt)
    ensures r.Success? ==> IntSetting(s, WORKER_POOLSIZE_KEY, 1, r.value)
    ensures r.Failure? ==> r.error == ConfigError(WORKER_POOLSIZE_KEY, WrongType)
  {
    if HasPath(s, WORKER_POOLSIZE_KEY) then GetInt(s, WORKER_POOLSIZE_KEY) else Success(1)
  }

  // ---------------------------------------------------------------------------
  // Building the deployment of one entry
  // ---------------------------------------------------------------------------

  /** The name and options `deployVerticle` computes before it deploys; the
      first getter that throws, in the order the verticle calls them, decides
      the error. */
  function Build(s: Settings): (r: Result<Deployment, ConfigError>)
    ensures r.Success? <==> WellFormed(s)
    ensures r.Success? ==> Describes(s, r.value)
    ensures r.Failure? ==> Offending(s, r.error)
    ensures !HasPath(s, NAME_KEY) ==> r == Failure(ConfigError(NAME_KEY, Missing))
  {
    var name :- GetString(s, NAME_KEY);
    var instances :- GetInstances(s);
    var config :- GetConfig(s);
    var extraClasspath :- GetExtraClasspath(s);
    var ha :- GetHa(s);
    var isolatedClasses :- GetIsolatedClasses(s);
    var isolationGroup :- GetIsolationGroup(s);
    var maxWorkerExecuteTime :- GetMaxWorkerExecuteTime(s);
    var worker :- GetWorker(s);
    var workerPoolName :- GetWorkerPoolName(s);
    var workerPoolSize :- GetWorkerPoolSize(s);
    Success(Deployment(name, Options(instances, config, extraClasspath, ha, isolatedClasses,
      isolationGroup, maxWorkerExecuteTime, worker, workerPoolName, workerPoolSize)))
  }

  // ---------------------------------------------------------------------------
  // Properties of the builder
  // ---------------------------------------------------------------------------

  /** Settings describe at most one deployment. */
  lemma DescribesIsFunctional(s: Settings, d1: Deployment, d2: Deployment)
    requires Describes(s, d1) && Describes(s, d2)
    ensures d1 == d2
  {
    if HasPath(s, EXTRA_CLASSPATH_KEY) {
      StrsInjective(d1.options.extraClasspath.value, d2.options.extraClasspath.value);
    }
    if HasPath(s, ISOLATED_CLASSES_KEY) {
      StrsInjective(d1.options.isolatedClasses.value, d2.options.isolatedClasses.value);
    }
  }

  /** Settings that describe a deployment are well formed. */
  lemma DescribedIsWellFormed(s: Settings, d: Deployment)
    requires Describes(s, d)
    ensures WellFormed(s)
  {
    if HasPath(s, EXTRA_CLASSPATH_KEY) {
      var xs := d.options.extraClasspath.value;
      assert forall i :: 0 <= i < |Strs(xs)| ==> Strs(xs)[i] == VStr(xs[i]);
    }
    if HasPath(s, ISOLATED_CLASSES_KEY) {
      var xs := d.options.isolatedClasses.value;
      assert forall i :: 0 <= i < |Strs(xs)| ==> Strs(xs)[i] == VStr(xs[i]);
    }
  }

  /** The builder computes exactly the deployment the settings describe. */
  lemma BuildMatchesReading(s: Settings, d: Deployment)
    ensures Build(s) == Success(d) <==> Describes(s, d)
  {
    if Describes(s, d) {
      DescribedIsWellFormed(s, d);
      DescribesIsFunctional(s, d, Build(s).value);
    }
  }

  /** An entry that sets only its name is deployed with the default options. */
  lemma NameOnlyGivesDefaults(name: string)
    ensures Build(map[NAME_KEY := VStr(name)]) == Success(Deployment(name, DEFAULT_OPTIONS))
  {
    var s := map[NAME_KEY := VStr(name)];
    var d := Deployment(name, DEFAULT_OPTIONS);
    assert Describes(s, d);
    BuildMatchesReading(s, d);
  }

  /** The deployment `d` with the field read from `key` set to the value `v`. */
  function Assign(d: Deployment, key: string, v: Value): Deployment
    requires KindOf(key).Some? && Conforms(v, KindOf(key).value)
  {
    var o := d.options;
    if key == NAME_KEY then d.(name := v.str)
    else if key == INSTANCES_KEY then d.(options := o.(instances := v.num))
    else if key == CONF_KEY then d.(options := o.(config := v.fields))
    else if key == EXTRA_CLASSPATH_KEY then d.(options := o.(extraClasspath := StringsOf(v.items)))
    else if key == HA_KEY then d.(options := o.(ha := v.flag))
    else if key == ISOLATED_CLASSES_KEY then d.(options := o.(isolatedClasses := StringsOf(v.items)))
    else if key == ISOLATION_GROUP_KEY then d.(options := o.(isolationGroup := Some(v.str)))
    else if key == MAXWORKER_EXECTIME_KEY then d.(options := o.(maxWorkerExecuteTime := v.num))
    else if key == WORKER_KEY then d.(options := o.(worker := v.flag))
    else if key == WORKER_POOLNAME_KEY then d.(options := o.(workerPoolName := Some(v.str)))
    else d.(options := o.(workerPoolSize := v.num))
  }

  /** Setting one key the verticle reads to a value of the right kind changes
      that key's field to the value and leaves every other field as it was. */
  lemma SettingOneKeyChangesOneField(s: Settings, key: string, v: Value)
    requires Build(s).Success?
    requires KindOf(key).Some? && Conforms(v, KindOf(key).value)
    ensures Build(s[key := v]) == Success(Assign(Build(s).value, key, v))
  {
    DescribesAfterSet(s, Build(s).value, key, v);
    BuildMatchesReading(s[key := v], Assign(Build(s).value, key, v));
  }

  /** The reading of a single key changes with that key and no other; split by
      the kind of the key to keep each proof small. */
  lemma DescribesAfterSet(s: Settings, d: Deployment, key: string, v: Value)
    requires Describes(s, d)
    requires KindOf(key).Some? && Conforms(v, KindOf(key).value)
    ensures Describes(s[key := v], Assign(d, key, v))
  {
    if key == INSTANCES_KEY || key == WORKER_POOLSIZE_KEY {
      DescribesAfterSetInt(s, d, key, v);
    } else if key == MAXWORKER_EXECTIME_KEY {
      DescribesAfterSetLong(s, d, key, v);
    } else if key == HA_KEY || key == WORKER_KEY {
      DescribesAfterSetBool(s, d, key, v);
    } else if key == NAME_KEY {
      DescribesAfterSetName(s, d, key, v);
    } else if key == ISOLATION_GROUP_KEY || key == WORKER_POOLNAME_KEY {
      DescribesAfterSetString(s, d, key, v);
    } else if key == EXTRA_CLASSPATH_KEY || key == ISOLATED_CLASSES_KEY {
      DescribesAfterSetStringList(s, d, key, v);
    } else if key == CONF_KEY {
      DescribesAfterSetObject(s, d, key, v);
    } else {
      assert false;
    }
  }

  lemma DescribesAfterSetInt(s: Settings, d: Deployment, key: string, v: Value)
    requires Describes(s, d)
    requires key == INSTANCES_KEY || key == WORKER_POOLSIZE_KEY
    requires Conforms(v, KInt)
    ensures Describes(s[key := v], Assign(d, key, v))
  {
  }

  lemma DescribesAfterSetLong(s: Settings, d: Deployment, key: string, v: Value)
    requires Describes(s, d)
    requires key == MAXWORKER_EXECTIME_KEY
    requires Conforms(v, KLong)
    ensures Describes(s[key := v], Assign(d, key, v))
  {
  }

  lemma DescribesAfterSetBool(s: Settings, d: Deployment, key: string, v: Value)
    requires Describes(s, d)
    requires key == HA_KEY || key == WORKER_KEY
    requires Conforms(v, KBool)
    ensures Describes(s[key := v], Assign(d, key, v))
  {
  }

  lemma DescribesAfterSetName(s: Settings, d: Deployment, key: string, v: Value)
    requires Describes(s, d)
    requires key == NAME_KEY
    requires Conforms(v, KString)
    ensures Describes(s[key := v], Assign(d, key, v))
  {
  }

  lemma DescribesAfterSetString(s: Settings, d: Deployment, key: string, v: Value)
    requires Describes(s, d)
    requires key == ISOLATION_GROUP_KEY || key == WORKER_POOLNAME_KEY
    requires Conforms(v, KString)
    ensures Describes(s[key := v], Assign(d, key, v))
  {
  }

  lemma DescribesAfterSetStringList(s: Settings, d: Deployment, key: string, v: Value)
    requires Describes(s, d)
    requires key == EXTRA_CLASSPATH_KEY || key == ISOLATED_CLASSES_KEY
    requires Conforms(v, KStringList)
    ensures Describes(s[key := v], Assign(d, key, v))
  {
    assert StringsOf(v.items).Some?;
  }

  lemma DescribesAfterSetObject(s: Settings, d: Deployment, key: string, v: Value)
    requires Describes(s, d)
    requires key == CONF_KEY
    requires Conforms(v, KObject)
    ensures Describes(s[key := v], Assign(d, key, v))
  {
  }

  /** Keys the verticle does not read have no effect on the deployment. */
  lemma UnknownKeysIgnored(s: Settings, key: string, v: Value)
    requires KindOf(key).None?
    ensures Build(s[key := v]) == Build(s)
  {
    var s' := s[key := v];
    assert key != NAME_KEY && key != INSTANCES_KEY && key != CONF_KEY;
    assert key != EXTRA_CLASSPATH_KEY && key != HA_KEY && key != ISOLATED_CLASSES_KEY;
    assert key != ISOLATION_GROUP_KEY && key != MAXWORKER_EXECTIME_KEY && key != WORKER_KEY;
    assert key != WORKER_POOLNAME_KEY && key != WORKER_POOLSIZE_KEY;
    assert WellFormed(s') <==> WellFormed(s);
    if WellFormed(s) {
      assert Describes(s', Build(s).value);
      BuildMatchesReading(s', Build(s).value);
    } else {
      assert Build(s') == Build(s);
    }
  }

  /** A key explicitly set to null reads as absent. */
  lemma NullIsAbsent(s: Settings, key: string)
    ensures Build(s[key := VNull]) == Build(s - {key})
  {
    var s1 := s[key := VNull];
    var s2 := s - {key};
    assert forall k :: HasPath(s1, k) <==> HasPath(s2, k);
    assert forall k :: HasPath(s1, k) ==> s1[k] == s2[k];
    assert WellFormed(s1) <==> WellFormed(s2);
    if WellFormed(s2) {
      assert Describes(s1, Build(s2).value);
      BuildMatchesReading(s1, Build(s2).value);
    } else {
      // Both fail; the first failing getter reads the same values in both.
      assert Build(s1).Failure? && Build(s2).Failure?;
    }
  }
}
