# vertx-boot: the boot verticle, modelled in Dafny

`BootVerticle` is a Vert.x verticle that deploys other verticles. Its HOCON
configuration lists them under `vertx-boot.verticles`, one entry per verticle. On
`start` it reads the keys of that object and fetches every entry. It gives each
entry its own pending future. For each entry it then builds a name and a set of
`DeploymentOptions` and calls `vertx.deployVerticle`. Finally it joins all the
futures with `CompositeFuture.all`. The start succeeds only when every entry
deploys. A failure while building one entry's options fails only that entry's
future, and the other entries are still deployed.

The model has five modules:

- `Wrappers` (wrappers.dfy) has `Option`, which stands for a Java `null`, and
  `Result`, which stands for a call that returns or throws.
- `ConfigTree` (config.dfy) models a resolved configuration tree. `Value` covers
  null, strings, integers, booleans, lists and objects. It also models the
  Typesafe Config calls the verticle makes: `hasPath`, the typed getters
  (which throw on a missing or wrongly typed value), and `getConfig(path)`
  with its dotted path expressions. These are `HasPath`, `GetString`,
  `GetInt`, `GetLong`, `GetBoolean`, `GetStringList`, `GetObject` and
  `GetConfigAt`.
- `Descriptor` (descriptor.dfy) is the descriptor builder.
  - There is one function for each of the ten getters of the verticle.
  - `Build` models the part of `deployVerticle` that computes the name and
    options.
  - `Describes` is a declarative reading of the same rules and serves as the
    builder's reference definition. For every key it says: if the key is
    present, the value is carried through; if it is absent or null, the field
    takes its fixed default.
- `Boot` (boot.dfy) models enumeration, `deployVerticle` (`Deploy`), the launches
  issued (`Calls`), one outcome per entry (`Outcomes`), the
  `CompositeFuture.all` join (`Join`) and `start` (`Start`).
  - `vertx.deployVerticle` itself is the `Launcher` function parameter.
  - The iteration order of the namespace's key set is the `order` parameter.
    It must list every key exactly once.
- `BootScenarios` (scenarios.dfy) states what `Start` gives on concrete
  configurations:
  - an empty namespace;
  - a missing namespace;
  - two well-formed entries;
  - one entry whose `instances` is a string.

Defaults follow the code. `instances` and `worker-pool-size` default to 1, and
`worker` and `high-availability` to false. `max-worker-execution-time` defaults
to `Long.MAX_VALUE` (9223372036854775807). `configuration` defaults to an empty
object. `extra-classpath`, `isolated-classes`, `isolation-group` and
`worker-pool-name` default to `null` (`None`), never to an empty list or string.

Some facts about the code that the model keeps:
- The code does not check that `instances` or `worker-pool-size` are positive.
  Any Java `int` is passed through.
- An absent `extra-classpath` gives `null`, not an empty list.
- The keys the code reads are hyphenated, such as `worker-pool-size`.
- A missing `vertx-boot.verticles` namespace fails the start through the
  library's `Missing` exception.

`Start` reads every entry directly from the namespace object. The code fetches
each entry again by the path expression `"vertx-boot.verticles." + key`, so a
key that contains a dot is resolved as a nested path (see "## Findings"). That
lookup fails with `Missing` or `WrongType`, or it silently returns an object
nested inside a sibling entry. An empty key is a `BadPath`. `StartAsWritten`
models the code as written. The two are proved equal whenever no key is empty
or contains a dot, for the model's path parser. The library's parser also
rejects keys with characters HOCON reserves in unquoted paths, which the model
does not.

## Model

| member | source | states |
|---|---|---|
| ConfigTree.GetString | src/main/java/io/github/jponge/vertx/boot/BootVerticle.java:88 | `getString` succeeds exactly when the key is present, not null, and holds a string, and then returns that string. Otherwise it fails with `Missing` (absent or null) or `WrongType`, naming the key. |
| ConfigTree.GetInt | src/main/java/io/github/jponge/vertx/boot/BootVerticle.java:114 | `getInt` succeeds exactly when the key holds a number in Java `int` range. An out-of-range number is a type error. |
| ConfigTree.GetLong | src/main/java/io/github/jponge/vertx/boot/BootVerticle.java:135 | `getLong` succeeds exactly when the key holds a number in Java `long` range. A wider number, which the library's parser never produces, is a type error in the model. |
| ConfigTree.GetBoolean | src/main/java/io/github/jponge/vertx/boot/BootVerticle.java:128 | `getBoolean` succeeds exactly when the key holds a boolean, and returns it. |
| ConfigTree.GetStringList | src/main/java/io/github/jponge/vertx/boot/BootVerticle.java:163 | `getStringList` succeeds exactly when the key holds a list whose every element is a string. The result re-embeds to exactly that list. |
| ConfigTree.StringsOf | src/main/java/io/github/jponge/vertx/boot/BootVerticle.java:149 | A list of values converts to strings exactly when every element is a string, and the strings map back to the same list. |
| ConfigTree.GetObject | src/main/java/io/github/jponge/vertx/boot/BootVerticle.java:170 | Rendering the `configuration` value and parsing it as a `JsonObject` succeeds exactly for an object, which is carried through unchanged. Any other value is a decoding error. |
| ConfigTree.SplitPath | src/main/java/io/github/jponge/vertx/boot/BootVerticle.java:67 | A path expression splits into at least one element, and no element contains a dot. |
| ConfigTree.SplitAppend | src/main/java/io/github/jponge/vertx/boot/BootVerticle.java:67 | Appending `"." + key` to a path, for a dot-free key, adds exactly one element. |
| ConfigTree.SplitJoin | src/main/java/io/github/jponge/vertx/boot/BootVerticle.java:67 | Splitting the joined form of dot-free elements gives the elements back. |
| ConfigTree.JoinSplit | src/main/java/io/github/jponge/vertx/boot/BootVerticle.java:67 | Joining the elements of a split path gives the path back. |
| ConfigTree.Child | src/main/java/io/github/jponge/vertx/boot/BootVerticle.java:66 | One step of `getConfig` succeeds exactly on a present, non-null object. Otherwise it fails with `Missing` or `WrongType`. |
| ConfigTree.WalkAppend | src/main/java/io/github/jponge/vertx/boot/BootVerticle.java:66-67 | Resolving one more path element is one more child step after the shorter walk. |
| ConfigTree.GetConfigAt | src/main/java/io/github/jponge/vertx/boot/BootVerticle.java:66-67 | `getConfig(path)` fails with `BadPath` when the path has an empty element, and all of its errors name the requested path. |
| ConfigTree.GetConfigAtJoin | src/main/java/io/github/jponge/vertx/boot/BootVerticle.java:66-67 | A path joined from non-empty, dot-free elements resolves by walking exactly those elements, one child object at a time. |
| ConfigTree.GetConfigAtKey | src/main/java/io/github/jponge/vertx/boot/BootVerticle.java:66 | `getConfig(key)` for a single element returns the object under the key. It fails with `Missing` when the key is absent or null, and with `WrongType` when the value is not an object. |
| Descriptor.GetInstances | src/main/java/io/github/jponge/vertx/boot/BootVerticle.java:175-180 | Absent or null gives 1. An in-range number is carried through. Anything else is a type error on `instances`. |
| Descriptor.GetConfig | src/main/java/io/github/jponge/vertx/boot/BootVerticle.java:168-173 | Absent or null gives the empty object. A present object is carried through unchanged. Any other value fails to decode. |
| Descriptor.GetExtraClasspath | src/main/java/io/github/jponge/vertx/boot/BootVerticle.java:161-166 | Absent or null gives `None`, not an empty list. A present string list is carried through. |
| Descriptor.GetHa | src/main/java/io/github/jponge/vertx/boot/BootVerticle.java:154-159 | Absent or null gives false. A present boolean is carried through. |
| Descriptor.GetIsolatedClasses | src/main/java/io/github/jponge/vertx/boot/BootVerticle.java:147-152 | Absent or null gives `None`. A present string list is carried through. |
| Descriptor.GetIsolationGroup | src/main/java/io/github/jponge/vertx/boot/BootVerticle.java:140-145 | Absent or null gives `None`. A present string is carried through. |
| Descriptor.GetMaxWorkerExecuteTime | src/main/java/io/github/jponge/vertx/boot/BootVerticle.java:133-138 | Absent or null gives `Long.MAX_VALUE`. A number in `long` range is carried through. |
| Descriptor.GetWorker | src/main/java/io/github/jponge/vertx/boot/BootVerticle.java:126-131 | Absent or null gives false. A present boolean is carried through. |
| Descriptor.GetWorkerPoolName | src/main/java/io/github/jponge/vertx/boot/BootVerticle.java:119-124 | Absent or null gives `None`. A present string is carried through. |
| Descriptor.GetWorkerPoolSize | src/main/java/io/github/jponge/vertx/boot/BootVerticle.java:112-117 | Absent or null gives 1. An in-range number is carried through. |
| Descriptor.Build | src/main/java/io/github/jponge/vertx/boot/BootVerticle.java:87-99 | Building succeeds exactly when the entry has a name and no key holds a value of the wrong kind. A success is the deployment the settings describe. A failure names a key that justifies it. A missing name always gives `Missing` on `name`. |
| Descriptor.WellFormedByKinds | src/main/java/io/github/jponge/vertx/boot/BootVerticle.java:88-99 | An entry is well formed exactly when it has a name and every key the verticle reads holds a value of the kind its getter accepts, or is absent or null. |
| Descriptor.DescribesIsFunctional | src/main/java/io/github/jponge/vertx/boot/BootVerticle.java:89-99 | The settings of an entry determine at most one deployment. |
| Descriptor.BuildMatchesReading | src/main/java/io/github/jponge/vertx/boot/BootVerticle.java:88-99 | The builder returns `d` if and only if the settings describe `d` (both directions). |
| Descriptor.NameOnlyGivesDefaults | src/main/java/io/github/jponge/vertx/boot/BootVerticle.java:112-180 | An entry with only a name deploys with every option at its default. |
| Descriptor.SettingOneKeyChangesOneField | src/main/java/io/github/jponge/vertx/boot/BootVerticle.java:89-99 | Giving one key a value of its kind sets that key's field to the value. No other field changes. |
| Descriptor.UnknownKeysIgnored | src/main/java/io/github/jponge/vertx/boot/BootVerticle.java:88-99 | Keys the verticle does not read do not affect the result. |
| Descriptor.NullIsAbsent | src/main/java/io/github/jponge/vertx/boot/BootVerticle.java:175-177 | A key set to null builds exactly as if it were absent. |
| Boot.Namespace | src/main/java/io/github/jponge/vertx/boot/BootVerticle.java:66 | `getConfig("vertx-boot.verticles")` succeeds exactly when both levels are objects, and then returns the inner one. |
| Boot.NamespaceIsGetConfig | src/main/java/io/github/jponge/vertx/boot/BootVerticle.java:66 | The namespace lookup agrees with the library's own path resolution of the constant path. |
| Boot.Entries | src/main/java/io/github/jponge/vertx/boot/BootVerticle.java:66-67 | Enumeration succeeds exactly when every listed entry is an object. The result has one settings object per key, in order. A failure names an offending entry. |
| Boot.Enumerate | src/main/java/io/github/jponge/vertx/boot/BootVerticle.java:64-67 | A missing namespace is the start's error. Otherwise enumeration succeeds exactly when every entry of the namespace is an object. |
| Boot.EnumerateAsWritten | src/main/java/io/github/jponge/vertx/boot/BootVerticle.java:66-67 | The enumeration as the code writes it: a missing namespace fails it the same way. |
| Boot.AsWrittenAgreesOnPlainKeys | src/main/java/io/github/jponge/vertx/boot/BootVerticle.java:66-67 | When no key is empty or contains a dot, the as-written enumeration and the direct one are equal. Keys count as plain for the model's path parser, which does not reject HOCON's reserved characters. |
| Boot.DottedKeyBreaksAsWritten | src/main/java/io/github/jponge/vertx/boot/BootVerticle.java:67 | The counterexample: the quoted key "a.b" makes the as-written enumeration fail with `Missing`. |
| Boot.DottedKeyReadsNestedObject | src/main/java/io/github/jponge/vertx/boot/BootVerticle.java:67 | When an entry "a" holds an object under "b", the path built for the quoted key "a.b" resolves to that nested object, and nothing fails. |
| Boot.DottedKeyShadowed | src/main/java/io/github/jponge/vertx/boot/BootVerticle.java:66-67 | In that namespace, the as-written enumeration succeeds but puts the object nested in "a" where the "a.b" entry belongs. |
| Boot.ShadowedKeyEnumerated | src/main/java/io/github/jponge/vertx/boot/BootVerticle.java:66-67 | In the same namespace, the direct enumeration reads the "a.b" entry itself. |
| Boot.DottedKeyEnumerated | src/main/java/io/github/jponge/vertx/boot/BootVerticle.java:66-67 | The direct enumeration finds the same "a.b" entry. |
| Boot.Request | src/main/java/io/github/jponge/vertx/boot/BootVerticle.java:87-100 | A launch is requested for an entry exactly when it is well formed. The request carries the deployment the entry describes. |
| Boot.Deploy | src/main/java/io/github/jponge/vertx/boot/BootVerticle.java:86-110 | An ill-formed entry's outcome is a configuration failure with a justified error, and nothing is launched. A well-formed entry's outcome is the launch of the deployment it describes. |
| Boot.Calls | src/main/java/io/github/jponge/vertx/boot/BootVerticle.java:71-73 | At most one launch per entry. Every entry is launched exactly when all are well formed. Every launch is the described deployment of some entry. |
| Boot.WellFormedEntryIsLaunched | src/main/java/io/github/jponge/vertx/boot/BootVerticle.java:71-73 | Every well-formed entry is launched, whatever the other entries hold. |
| Boot.RejectedEntryIssuesNoCall | src/main/java/io/github/jponge/vertx/boot/BootVerticle.java:107-108 | An entry that fails to build adds no launch: the launches are exactly those of the entries before and after it. |
| Boot.Outcomes | src/main/java/io/github/jponge/vertx/boot/BootVerticle.java:69-73 | There is exactly one outcome per entry, and each is that entry's own deployment. |
| Boot.FailureIsConfined | src/main/java/io/github/jponge/vertx/boot/BootVerticle.java:71-73 | Changing one entry, for example to one that fails to build, changes no other entry's outcome. This rests on the launcher model described under "## Left out". |
| Boot.Join | src/main/java/io/github/jponge/vertx/boot/BootVerticle.java:74-80 | The join succeeds if and only if every outcome succeeded. A failed join carries the failure of one of the outcomes. |
| Boot.JoinPermutation | src/main/java/io/github/jponge/vertx/boot/BootVerticle.java:74-80 | Any order of completion gives the same verdict, and the reported cause is always one of the outcomes. |
| Boot.Start | src/main/java/io/github/jponge/vertx/boot/BootVerticle.java:63-84 | The start with the corrected enumeration, which reads each entry directly from the namespace. An enumeration error fails the start with no launches and no outcomes. Otherwise there is one outcome per key, and the launches are those of the well-formed entries. The start succeeds if and only if enumeration succeeded and every outcome succeeded. A failure's cause is the enumeration error or a failed entry's. |
| Boot.StartAsWritten | src/main/java/io/github/jponge/vertx/boot/BootVerticle.java:63-84 | The start as the code writes it. A missing namespace, or an entry whose path lookup fails, fails the start with no launches. Otherwise the start succeeds if and only if every outcome succeeded. |
| Boot.StartAsWrittenAgreesOnPlainKeys | src/main/java/io/github/jponge/vertx/boot/BootVerticle.java:63-84 | When no key is empty or contains a dot, the code's start and the corrected one give the same launches, outcomes and verdict. Keys count as plain for the model's path parser, which does not reject HOCON's reserved characters. |
| Boot.DottedKeyFailsStart | src/main/java/io/github/jponge/vertx/boot/BootVerticle.java:67-82 | With the quoted key "a.b", the code's start fails with `Missing` and launches nothing. The corrected start launches that entry with default options. |
| Boot.EnumeratedOutcomes | src/main/java/io/github/jponge/vertx/boot/BootVerticle.java:69-73 | After enumeration, the outcome at position `i` is the deployment of the entry under the `i`-th key. |
| Boot.StartVerdict | src/main/java/io/github/jponge/vertx/boot/BootVerticle.java:63-84 | For the corrected start (and for the code's, when no key is empty or dotted), the start succeeds if and only if the namespace exists and every entry in it is an object that deploys successfully. |
| Boot.StartOrderIrrelevant | src/main/java/io/github/jponge/vertx/boot/BootVerticle.java:66-79 | For the corrected start, any two enumeration orders of the same namespace give the same verdict. |
| BootScenarios.EmptyNamespaceSucceeds | src/main/java/io/github/jponge/vertx/boot/BootVerticle.java:69-80 | An empty namespace starts successfully with zero launches. |
| BootScenarios.MissingNamespaceFails | src/main/java/io/github/jponge/vertx/boot/BootVerticle.java:64-83 | A configuration without `vertx-boot.verticles` fails the start with `Missing` before any launch. |
| BootScenarios.AlphaDeployment | src/main/java/io/github/jponge/vertx/boot/BootVerticle.java:175-180 | `{name: alpha, instances: 2}` differs from the defaults only in `instances`. |
| BootScenarios.BetaDeployment | src/main/java/io/github/jponge/vertx/boot/BootVerticle.java:112-131 | `{name: beta, worker: true, worker-pool-size: 4}` differs from the defaults only in those two options. |
| BootScenarios.TwoComponents | src/main/java/io/github/jponge/vertx/boot/BootVerticle.java:71-79 | alpha and beta give exactly two launches with those options. The start succeeds exactly when both launches do. |
| BootScenarios.WrongTypeIsConfined | src/main/java/io/github/jponge/vertx/boot/BootVerticle.java:107-108 | With `instances: "two"`, alpha's outcome is a type error on `instances` and alpha is not launched. beta is still launched with default options, and the start fails. |

## Left out

- The configuration is taken as an already resolved tree (`root`). `ConfigFactory.load()`, HOCON syntax, include files, layering and substitutions are not modelled.
- The `configuration` subtree is carried through as the object itself. Rendering it to a JSON string and re-parsing it into a `JsonObject` is reduced to "only an object survives".
- `vertx.deployVerticle` is the `Launcher` parameter. A launch's outcome is modelled as depending only on the verticle name and its options. All deployments share one Vert.x instance, so in the program sibling deployments can interfere, earlier launches can matter, and outcomes can vary from one start to the next. None of this is modelled. Class loading, isolation groups, worker pools, high availability and what deployment does are outside the model. An exception it throws synchronously lands in the same per-entry future, so it is one more failed outcome of the launcher.
- Futures and `CompositeFuture.all` are modelled only after completion. Timing, callbacks and thread safety are not modelled. `Join` looks at the outcomes in the order it is given them. `Start` passes them in enumeration order, and `JoinPermutation` covers every other completion order: the verdict is the same, and the reported cause belongs to a failed entry. Which failure arrives first is not modelled.
- Boot.Start: uses the corrected enumeration, which reads each entry directly from the namespace. The code's start, modelled by `StartAsWritten`, resolves a dotted key as a nested path. It then fails with `Missing` or `WrongType` and launches nothing, or it deploys an object nested inside a sibling entry in the dotted entry's place. `StartAsWrittenAgreesOnPlainKeys` proves the two equal when no key is empty or dotted. That equality is with respect to the model's path parser; see the `ConfigTree.GetConfigAt` line.
- Boot.FailureIsConfined: holds for any replacement entry, including a well-formed one that is launched. That follows from the launcher being a function of name and options only. In the program, only the build failures of lines 107-108 are confined by the code itself.
- Boot.StartOrderIrrelevant: also rests on the launcher being a function of name and options only. Interference between sibling deployments, which could make the order matter, is not modelled.
- The iteration order of the namespace's key set is a parameter, because Typesafe Config does not fix it.
- ConfigTree.GetString: strict about kinds. Typesafe Config also converts numbers and booleans to their string form, and that conversion is not modelled.
- ConfigTree.GetInt: strict about kinds. The library's parsing of numeric strings and truncation of floating-point numbers are not modelled, and `Value` has no floating-point case.
- ConfigTree.GetLong: strict about kinds, for the same reason as `GetInt`. The model's integers are unbounded, and `GetLong` reports one outside the `long` range as a type error. The library never holds such an integer. It reads a wider literal as text, and `getLong` converts that text through a double, which saturates at `Long.MIN_VALUE` or `Long.MAX_VALUE`. So `max-worker-execution-time = 9223372036854775808` deploys with `Long.MAX_VALUE` in the program, but gives `WrongType` and no launch in the model.
- Descriptor.GetMaxWorkerExecuteTime: gives `WrongType` for a literal beyond the `long` range, where the program saturates it, as the `ConfigTree.GetLong` line explains.
- ConfigTree.GetBoolean: strict about kinds. The library's reading of the strings "yes", "no", "on", "off", "true" and "false" is not modelled.
- ConfigTree.GetStringList: strict about kinds. Conversion of non-string list elements, and of objects with numeric keys, is not modelled.
- ConfigTree.GetConfigAt: path parsing splits on '.' and rejects empty elements only. The library also raises `BadPath` for characters that HOCON reserves in unquoted path expressions, such as `:`, `$`, `{` or `=`. The model accepts them. So `Boot.PlainKey` means a single element for the model's parser only, and a key such as `"a:b"` fails the code's start where the model's `StartAsWritten` does not. Quoted path elements and the whitespace rules of HOCON paths are not modelled either. Errors name the whole requested path, not the prefix where the lookup stopped.
- Validation that Vert.x's own `DeploymentOptions` setters may perform is library code and is not part of this model. The verticle itself checks nothing.
- `stop` is not defined in this source file; it is inherited from `AbstractVerticle` and is not part of this model.
- Exceptions other than the configuration library's (for example errors of the JVM) are not modelled.

## Findings

| source | as written | input that shows it | evidently intended | confidence | as-written member | corrected member |
|---|---|---|---|---|---|---|
| src/main/java/io/github/jponge/vertx/boot/BootVerticle.java:66-67 | Every key of the namespace is fetched again with `getConfig("vertx-boot.verticles." + key)`, so the key is parsed as a path expression. A quoted key containing a dot, such as `"a.b"`, is split into two elements and resolved as a nested path. With no sibling "a", the lookup fails with `Missing` and the whole start fails before any launch. A non-object at "a" or "a.b" gives `WrongType` instead. When a sibling entry "a" holds an object under "b", the lookup succeeds silently, and that nested object is deployed in the "a.b" entry's place. | `vertx-boot.verticles { "a.b" { name = "x" } }`, and `vertx-boot.verticles { a { name = "z", b { name = "y" } }, "a.b" { name = "x" } }` | Each key of the namespace names its own entry, which is the child object under that key. | medium; not executed | Boot.EnumerateAsWritten and Boot.StartAsWritten, exhibited by Boot.DottedKeyBreaksAsWritten, Boot.DottedKeyFailsStart, Boot.DottedKeyReadsNestedObject and Boot.DottedKeyShadowed | Boot.Enumerate, with Boot.DottedKeyEnumerated, Boot.ShadowedKeyEnumerated and Boot.AsWrittenAgreesOnPlainKeys and Boot.StartAsWrittenAgreesOnPlainKeys (the two agree whenever no key is empty or dotted); `Start` uses it |
