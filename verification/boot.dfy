/** The boot verticle's `start`: enumerate the entries under
    `vertx-boot.verticles`, give every entry its own pending outcome, build and
    launch each entry, and join all outcomes into one verdict. The Vert.x
    runtime that deploys a verticle is the `Launcher` parameter. */
module Boot {
  import opened Wrappers
  import opened ConfigTree
  import opened Descriptor

  const BOOT_KEY := "vertx-boot"
  const VERTICLES_KEY := "verticles"
  const VERTICLES_SEGMENTS: seq<string> := [BOOT_KEY, VERTICLES_KEY]
  const VERTICLES_PATH := "vertx-boot.verticles"

  /** Why an entry, or the whole start, failed. */
  datatype Cause = BadConfig(error: ConfigError) | LaunchFailed(reason: string)

  /** A completed future: succeeded, or failed with a cause. */
  datatype Outcome = Succeeded | Failed(cause: Cause)

  /** `vertx.deployVerticle(name, options, handler)`, reduced to the outcome
      its handler receives. */
  type Launcher = (string, Options) -> Outcome

  /** One call of `vertx.deployVerticle`. */
  datatype Launch = Launch(name: string, options: Options)

  /** What one run of `start` does: the launches it issues, the outcome of
      every entry, and the verdict it completes the start future with. */
  datatype Run = Run(calls: seq<Launch>, outcomes: seq<Outcome>, result: Outcome)

  // ---------------------------------------------------------------------------
  // Enumeration
  // ---------------------------------------------------------------------------

  /** `getConfig("vertx-boot.verticles")`. */
  function Namespace(root: Settings): (r: Result<Settings, ConfigError>)
    ensures r.Success? <==>
      && HasPath(root, BOOT_KEY) && root[BOOT_KEY].VObj?
      && HasPath(root[BOOT_KEY].fields, VERTICLES_KEY)
      && root[BOOT_KEY].fields[VERTICLES_KEY].VObj?
    ensures r.Success? ==> r.value == root[BOOT_KEY].fields[VERTICLES_KEY].fields
    ensures r.Failure? ==> r.error.path == VERTICLES_PATH
  {
    var segs := VERTICLES_SEGMENTS;
    assert segs[1..] == [VERTICLES_KEY];
    assert Walk(root, segs, VERTICLES_PATH) ==
      match Child(root, BOOT_KEY, VERTICLES_PATH)
      case Failure(e) => Failure(e)
      case Success(m) => Walk(m, [VERTICLES_KEY], VERTICLES_PATH);
    Walk(root, segs, VERTICLES_PATH)
  }

  /** A root configuration whose namespace holds exactly `ns`. */
  function RootWith(ns: Settings): (root: Settings)
    ensures Namespace(root) == Success(ns)
  {
    map[BOOT_KEY := VObj(map[VERTICLES_KEY := VObj(ns)])]
  }

  /** The namespace is looked up by the library's own path parsing. */
  lemma NamespaceIsGetConfig(root: Settings)
    ensures GetConfigAt(root, VERTICLES_PATH) == Namespace(root)
  {
    assert JoinPath(VERTICLES_SEGMENTS) == VERTICLES_PATH;
    GetConfigAtJoin(root, VERTICLES_SEGMENTS);
  }

  /** `keys` lists every key of `ns` exactly once, as the key set's iterator does. */
  predicate Lists(keys: seq<string>, ns: Settings) {
    && (forall i, j :: 0 <= i < j < |keys| ==> keys[i] != keys[j])
    && (forall i :: 0 <= i < |keys| ==> keys[i] in ns)
    && (forall k :: k in ns ==> k in keys)
  }

  /** `order` is the iteration order of the namespace's keys, when there is a namespace. */
  predicate ListsNamespace(root: Settings, order: seq<string>) {
    Namespace(root).Success? ==> Lists(order, Namespace(root).value)
  }

  /** The path expression the verticle builds for the entry under `key`. */
  function EntryPath(key: string): string {
    VERTICLES_PATH + "." + key
  }

  /** The settings object of every listed entry; an entry that is not an object
      (null included) fails the whole enumeration. */
  function Entries(ns: Settings, keys: seq<string>): (r: Result<seq<Settings>, ConfigError>)
    requires forall i :: 0 <= i < |keys| ==> keys[i] in ns
    ensures r.Success? <==> forall i :: 0 <= i < |keys| ==> ns[keys[i]].VObj?
    ensures r.Success? ==>
      |r.value| == |keys| && forall i :: 0 <= i < |keys| ==> ns[keys[i]] == VObj(r.value[i])
    ensures r.Failure? ==>
      exists i :: 0 <= i < |keys| && !ns[keys[i]].VObj? &&
        r.error == ConfigError(EntryPath(keys[i]), if ns[keys[i]] == VNull then Missing else WrongType)
  {
    if |keys| == 0 then Success([])
    else
      var first :- Child(ns, keys[0], EntryPath(keys[0]));
      var rest :- Entries(ns, keys[1..]);
      Success([first] + rest)
  }

  /** The per-entry settings `start` collects before it deploys anything, in
      enumeration order; each entry is read directly from the namespace object. */
  function Enumerate(root: Settings, order: seq<string>): (r: Result<seq<Settings>, ConfigError>)
    requires ListsNamespace(root, order)
    ensures Namespace(root).Failure? ==> r == Failure(Namespace(root).error)
    ensures r.Success? ==>
      && Namespace(root).Success?
      && |r.value| == |order|
      && forall i :: 0 <= i < |order| ==> Namespace(root).value[order[i]] == VObj(r.value[i])
    ensures Namespace(root).Success? ==>
      (r.Success? <==> forall k :: k in Namespace(root).value ==> Namespace(root).value[k].VObj?)
  {
    var ns :- Namespace(root);
    assert forall i :: 0 <= i < |order| ==> order[i] in ns;
    Entries(ns, order)
  }

  /** The enumeration as the verticle writes it: every entry is fetched again
      with `getConfig("vertx-boot.verticles." + key)`, so the key is parsed as
      a path expression. */
  function EntriesAsWritten(root: Settings, keys: seq<string>): Result<seq<Settings>, ConfigError> {
    if |keys| == 0 then Success([])
    else
      var first :- GetConfigAt(root, EntryPath(keys[0]));
      var rest :- EntriesAsWritten(root, keys[1..]);
      Success([first] + rest)
  }

  function EnumerateAsWritten(root: Settings, order: seq<string>): (r: Result<seq<Settings>, ConfigError>)
    requires ListsNamespace(root, order)
    ensures Namespace(root).Failure? ==> r == Failure(Namespace(root).error)
  {
    NamespaceIsGetConfig(root);
    var ns :- GetConfigAt(root, VERTICLES_PATH);
    EntriesAsWritten(root, order)
  }

  /** A key that the model's path parser reads as a single path element. The
      library's parser also rejects characters HOCON reserves in unquoted
      paths, which this predicate does not exclude. */
  predicate PlainKey(key: string) {
    key != "" && '.' !in key
  }

  /** The result of a walk does not depend on the path its errors would name. */
  lemma {:induction false} WalkIgnoresPath(obj: Settings, segs: seq<string>, p1: string, p2: string)
    requires |segs| >= 1
    ensures Walk(obj, segs, p1).Success? == Walk(obj, segs, p2).Success?
    ensures Walk(obj, segs, p1).Success? ==> Walk(obj, segs, p1).value == Walk(obj, segs, p2).value
    decreases |segs|
  {
    if |segs| > 1 && Child(obj, segs[0], p1).Success? {
      WalkIgnoresPath(Child(obj, segs[0], p1).value, segs[1..], p1, p2);
    }
  }

  /** For a plain key, re-fetching the entry by path finds the namespace's own child. */
  lemma EntryLookupAgrees(root: Settings, key: string)
    requires PlainKey(key) && Namespace(root).Success?
    ensures GetConfigAt(root, EntryPath(key)) == Child(Namespace(root).value, key, EntryPath(key))
  {
    var path := EntryPath(key);
    var segs := VERTICLES_SEGMENTS + [key];
    assert JoinPath(VERTICLES_SEGMENTS) == VERTICLES_PATH;
    assert JoinPath(segs) == path by {
      assert segs[..|segs| - 1] == VERTICLES_SEGMENTS;
    }
    GetConfigAtJoin(root, segs);
    WalkAppend(root, VERTICLES_SEGMENTS, key, path);
    WalkIgnoresPath(root, VERTICLES_SEGMENTS, path, VERTICLES_PATH);
  }

  lemma {:induction false} EntriesAgree(root: Settings, keys: seq<string>)
    requires Namespace(root).Success?
    requires forall i :: 0 <= i < |keys| ==> PlainKey(keys[i]) && keys[i] in Namespace(root).value
    ensures EntriesAsWritten(root, keys) == Entries(Namespace(root).value, keys)
    decreases |keys|
  {
    if |keys| > 0 {
      EntryLookupAgrees(root, keys[0]);
      EntriesAgree(root, keys[1..]);
    }
  }

  /** As long as no key contains a dot or is empty, the verticle's enumeration
      and the direct one agree exactly. */
  lemma AsWrittenAgreesOnPlainKeys(root: Settings, order: seq<string>)
    requires ListsNamespace(root, order)
    requires forall i :: 0 <= i < |order| ==> PlainKey(order[i])
    ensures EnumerateAsWritten(root, order) == Enumerate(root, order)
  {
    NamespaceIsGetConfig(root);
    if Namespace(root).Success? {
      EntriesAgree(root, order);
    }
  }

  /** Walking past the two namespace elements continues inside the namespace. */
  lemma WalkThroughNamespace(root: Settings, rest: seq<string>, path: string)
    requires |rest| >= 1 && Namespace(root).Success?
    ensures Walk(root, VERTICLES_SEGMENTS + rest, path) == Walk(Namespace(root).value, rest, path)
  {
    var segs := VERTICLES_SEGMENTS + rest;
    assert segs[0] == BOOT_KEY && segs[1..] == [VERTICLES_KEY] + rest;
    assert segs[1..][0] == VERTICLES_KEY && segs[1..][1..] == rest;
  }

  /** The path the verticle builds for the key "a.b" is the join of four
      plain elements. */
  lemma DottedEntryPath()
    ensures var segs := VERTICLES_SEGMENTS + ["a", "b"];
      && JoinPath(segs) == EntryPath("a.b")
      && forall k :: 0 <= k < |segs| ==> segs[k] != "" && '.' !in segs[k]
  {
    var segs := VERTICLES_SEGMENTS + ["a", "b"];
    assert segs[..3][..2] == segs[..2];
    assert JoinPath(segs[..2]) == VERTICLES_PATH;
    assert JoinPath(segs[..3]) == VERTICLES_PATH + ".a";
    assert JoinPath(segs) == EntryPath("a.b");
    SplitJoin(segs);
  }

  /** The root configuration whose namespace holds one well-formed entry
      under the quoted key "a.b". */
  const DOTTED_ENTRY: Settings := map[NAME_KEY := VStr("x")]
  const DOTTED_NAMESPACE: Settings := map["a.b" := VObj(DOTTED_ENTRY)]
  const DOTTED_ROOT: Settings := RootWith(DOTTED_NAMESPACE)

  lemma DottedNamespace()
    ensures Namespace(DOTTED_ROOT) == Success(DOTTED_NAMESPACE)
    ensures ListsNamespace(DOTTED_ROOT, ["a.b"])
  {
  }

  /** The verticle's enumeration fails on the "a.b" entry: its path is parsed
      as four elements and the namespace has no child "a". */
  lemma DottedKeyBreaksAsWritten()
    ensures ListsNamespace(DOTTED_ROOT, ["a.b"])
    ensures EnumerateAsWritten(DOTTED_ROOT, ["a.b"]) == Failure(ConfigError(EntryPath("a.b"), Missing))
  {
    var path := EntryPath("a.b");
    var segs := VERTICLES_SEGMENTS + ["a", "b"];
    DottedNamespace();
    DottedEntryPath();
    GetConfigAtJoin(DOTTED_ROOT, segs);
    WalkThroughNamespace(DOTTED_ROOT, ["a", "b"], path);
    assert !HasPath(DOTTED_NAMESPACE, "a");
    assert Walk(DOTTED_NAMESPACE, ["a", "b"], path) == Failure(ConfigError(path, Missing));
    assert GetConfigAt(DOTTED_ROOT, path) == Failure(ConfigError(path, Missing));
    NamespaceIsGetConfig(DOTTED_ROOT);
    assert EntriesAsWritten(DOTTED_ROOT, ["a.b"]) == Failure(ConfigError(path, Missing));
  }

  /** A namespace where the quoted key "a.b" sits next to an entry "a" that
      holds an object under "b". */
  const NESTED_ENTRY: Settings := map[NAME_KEY := VStr("y")]
  const OUTER_ENTRY: Settings := map[NAME_KEY := VStr("z"), "b" := VObj(NESTED_ENTRY)]
  const SHADOWED_NAMESPACE: Settings := map["a" := VObj(OUTER_ENTRY), "a.b" := VObj(DOTTED_ENTRY)]
  const SHADOWED_ROOT: Settings := RootWith(SHADOWED_NAMESPACE)

  /** The verticle fetches the "a.b" entry through the path "a", "b", so it
      reads the object nested in the entry "a" instead, and nothing fails. */
  lemma DottedKeyReadsNestedObject()
    ensures GetConfigAt(SHADOWED_ROOT, EntryPath("a.b")) == Success(NESTED_ENTRY)
  {
    var path := EntryPath("a.b");
    var segs := VERTICLES_SEGMENTS + ["a", "b"];
    DottedEntryPath();
    GetConfigAtJoin(SHADOWED_ROOT, segs);
    assert Namespace(SHADOWED_ROOT) == Success(SHADOWED_NAMESPACE);
    WalkThroughNamespace(SHADOWED_ROOT, ["a", "b"], path);
    var rest := ["a", "b"];
    assert rest[0] == "a" && rest[1..] == ["b"];
    assert Walk(OUTER_ENTRY, ["b"], path) == Success(NESTED_ENTRY);
    assert Walk(SHADOWED_NAMESPACE, rest, path) == Walk(OUTER_ENTRY, ["b"], path);
  }

  lemma ShadowedNamespace()
    ensures Namespace(SHADOWED_ROOT) == Success(SHADOWED_NAMESPACE)
    ensures ListsNamespace(SHADOWED_ROOT, ["a", "a.b"])
  {
    assert "a" != "a.b";
  }

  /** On that namespace the verticle's enumeration succeeds, but the "a.b"
      entry's place holds the nested object. */
  lemma DottedKeyShadowed()
    ensures ListsNamespace(SHADOWED_ROOT, ["a", "a.b"])
    ensures EnumerateAsWritten(SHADOWED_ROOT, ["a", "a.b"]) == Success([OUTER_ENTRY, NESTED_ENTRY])
  {
    ShadowedNamespace();
    ShadowedOuterEntry();
    DottedKeyReadsNestedObject();
    EnumerateAsWrittenPair(SHADOWED_ROOT, "a", "a.b");
  }

  lemma ShadowedOuterEntry()
    ensures GetConfigAt(SHADOWED_ROOT, EntryPath("a")) == Success(OUTER_ENTRY)
  {
    ShadowedNamespace();
    assert PlainKey("a");
    EntryLookupAgrees(SHADOWED_ROOT, "a");
    assert SHADOWED_NAMESPACE["a"] == VObj(OUTER_ENTRY);
  }

  /** Two entries whose paths both resolve are fetched in order. */
  lemma EnumerateAsWrittenPair(root: Settings, k1: string, k2: string)
    requires ListsNamespace(root, [k1, k2]) && Namespace(root).Success?
    requires GetConfigAt(root, EntryPath(k1)).Success? && GetConfigAt(root, EntryPath(k2)).Success?
    ensures EnumerateAsWritten(root, [k1, k2]) ==
      Success([GetConfigAt(root, EntryPath(k1)).value, GetConfigAt(root, EntryPath(k2)).value])
  {
    NamespaceIsGetConfig(root);
    var keys := [k1, k2];
    var v1, v2 := GetConfigAt(root, EntryPath(k1)).value, GetConfigAt(root, EntryPath(k2)).value;
    assert keys[0] == k1 && keys[1..] == [k2] && keys[1..][0] == k2 && keys[1..][1..] == [];
    assert EntriesAsWritten(root, keys[1..][1..]) == Success([]);
    assert [v2] + [] == [v2] && [v1] + [v2] == [v1, v2];
    assert EntriesAsWritten(root, keys[1..]) == Success([v2]);
    assert EntriesAsWritten(root, keys) == Success([v1, v2]);
  }

  /** The direct enumeration reads the "a.b" entry itself. */
  lemma ShadowedKeyEnumerated()
    ensures ListsNamespace(SHADOWED_ROOT, ["a", "a.b"])
    ensures Enumerate(SHADOWED_ROOT, ["a", "a.b"]) == Success([OUTER_ENTRY, DOTTED_ENTRY])
  {
    var keys := ["a", "a.b"];
    ShadowedNamespace();
    var ns := SHADOWED_NAMESPACE;
    assert ns[keys[0]] == VObj(OUTER_ENTRY) && ns[keys[1]] == VObj(DOTTED_ENTRY);
    var r := Entries(ns, keys);
    assert r.Success? && |r.value| == 2;
    assert r.value == [OUTER_ENTRY, DOTTED_ENTRY];
  }

  /** The direct enumeration finds the "a.b" entry. */
  lemma DottedKeyEnumerated()
    ensures ListsNamespace(DOTTED_ROOT, ["a.b"])
    ensures Enumerate(DOTTED_ROOT, ["a.b"]) == Success([DOTTED_ENTRY])
  {
    DottedNamespace();
    var keys := ["a.b"];
    assert keys[0] == "a.b" && keys[1..] == [];
    assert Child(DOTTED_NAMESPACE, keys[0], EntryPath(keys[0])) == Success(DOTTED_ENTRY);
    assert Entries(DOTTED_NAMESPACE, keys[1..]) == Success([]);
    assert [DOTTED_ENTRY] + [] == [DOTTED_ENTRY];
  }

  // ---------------------------------------------------------------------------
  // Deploying one entry
  // ---------------------------------------------------------------------------

  /** The launch `deployVerticle` issues for an entry, if building its options does not throw. */
  function Request(entry: Settings): (r: Option<Launch>)
    ensures r.Some? <==> WellFormed(entry)
    ensures r.Some? ==> Describes(entry, Deployment(r.value.name, r.value.options))
  {
    match Build(entry)
    case Success(d) => Some(Launch(d.name, d.options))
    case Failure(_) => None
  }

  /** `deployVerticle`: a build failure completes the entry's future with that
      error and launches nothing; otherwise the launch's outcome completes it. */
  function Deploy(entry: Settings, launch: Launcher): (o: Outcome)
    ensures !WellFormed(entry) ==> o.Failed? && o.cause.BadConfig? && Offending(entry, o.cause.error)
    ensures WellFormed(entry) ==> exists d :: Describes(entry, d) && o == launch(d.name, d.options)
  {
    match Build(entry)
    case Failure(e) => Failed(BadConfig(e))
    case Success(d) => launch(d.name, d.options)
  }

  /** The launches issued for a list of entries, in order. */
  function Calls(entries: seq<Settings>): (r: seq<Launch>)
    ensures |r| <= |entries|
    ensures |r| == |entries| <==> forall i :: 0 <= i < |entries| ==> WellFormed(entries[i])
    ensures forall c :: c in r ==>
      exists i :: 0 <= i < |entries| && Describes(entries[i], Deployment(c.name, c.options))
  {
    if |entries| == 0 then []
    else
      var rest := Calls(entries[1..]);
      assert forall c :: c in rest ==>
        exists i :: 1 <= i < |entries| && Describes(entries[i], Deployment(c.name, c.options));
      match Request(entries[0])
      case None => rest
      case Some(c) => [c] + rest
  }

  lemma {:induction false} CallsAppend(a: seq<Settings>, b: seq<Settings>)
    ensures Calls(a + b) == Calls(a) + Calls(b)
    decreases |a|
  {
    if |a| > 0 {
      assert (a + b)[0] == a[0];
      assert (a + b)[1..] == a[1..] + b;
      CallsAppend(a[1..], b);
    } else {
      assert a + b == b;
    }
  }

  /** Every well-formed entry is launched. */
  lemma {:induction false} WellFormedEntryIsLaunched(entries: seq<Settings>, i: nat)
    requires i < |entries| && WellFormed(entries[i])
    ensures Request(entries[i]).value in Calls(entries)
    decreases i
  {
    if i > 0 {
      WellFormedEntryIsLaunched(entries[1..], i - 1);
    }
  }

  /** An entry whose options cannot be built issues no launch: the launches are
      those of the other entries. */
  lemma RejectedEntryIssuesNoCall(entries: seq<Settings>, j: nat)
    requires j < |entries| && !WellFormed(entries[j])
    ensures Calls(entries) == Calls(entries[..j]) + Calls(entries[j + 1..])
  {
    var pre, post := entries[..j], entries[j + 1..];
    assert entries == pre + ([entries[j]] + post);
    RejectedHeadIssuesNoCall(entries[j], post);
    CallsAppend(pre, [entries[j]] + post);
  }

  lemma RejectedHeadIssuesNoCall(entry: Settings, rest: seq<Settings>)
    requires !WellFormed(entry)
    ensures Calls([entry] + rest) == Calls(rest)
  {
    var entries := [entry] + rest;
    assert entries[0] == entry && entries[1..] == rest;
    assert Request(entry).None?;
  }

  /** One pending outcome per entry, each completed by that entry's own deployment. */
  function Outcomes(entries: seq<Settings>, launch: Launcher): (r: seq<Outcome>)
    ensures |r| == |entries|
    ensures forall i :: 0 <= i < |entries| ==> r[i] == Deploy(entries[i], launch)
  {
    if |entries| == 0 then [] else [Deploy(entries[0], launch)] + Outcomes(entries[1..], launch)
  }

  /** Replacing one entry changes no other entry's outcome. */
  lemma FailureIsConfined(entries: seq<Settings>, j: nat, other: Settings, launch: Launcher, i: nat)
    requires j < |entries| && i < |entries| && i != j
    ensures Outcomes(entries[j := other], launch)[i] == Outcomes(entries, launch)[i]
  {
  }

  // ---------------------------------------------------------------------------
  // Joining
  // ---------------------------------------------------------------------------

  /** `CompositeFuture.all` over completed outcomes, taken in the order they complete. */
  function Join(outcomes: seq<Outcome>): (r: Outcome)
    ensures r.Succeeded? <==> forall i :: 0 <= i < |outcomes| ==> outcomes[i].Succeeded?
    ensures r.Failed? ==> exists i :: 0 <= i < |outcomes| && outcomes[i] == r
  {
    if |outcomes| == 0 then Succeeded
    else if outcomes[0].Failed? then outcomes[0]
    else Join(outcomes[1..])
  }

  /** The join's verdict does not depend on the order the outcomes complete in,
      and its cause is always one of them. */
  lemma JoinPermutation(p: seq<Outcome>, q: seq<Outcome>)
    requires multiset(p) == multiset(q)
    ensures Join(p).Succeeded? == Join(q).Succeeded?
    ensures Join(q).Failed? ==> Join(q) in multiset(p)
  {
  }

  // ---------------------------------------------------------------------------
  // Start
  // ---------------------------------------------------------------------------

  /** What `start` does with the result of its enumeration: an error fails the
      start before anything is launched; otherwise every entry gets its outcome
      and the start completes with the join of all of them. */
  function Complete(enumerated: Result<seq<Settings>, ConfigError>, launch: Launcher): (r: Run)
    ensures enumerated.Failure? ==> r == Run([], [], Failed(BadConfig(enumerated.error)))
    ensures enumerated.Success? ==>
      && |r.outcomes| == |enumerated.value|
      && r.calls == Calls(enumerated.value)
    ensures r.result.Succeeded? <==>
      enumerated.Success? && forall i :: 0 <= i < |r.outcomes| ==> r.outcomes[i].Succeeded?
    ensures r.result.Failed? ==>
      enumerated.Failure? || exists i :: 0 <= i < |r.outcomes| && r.outcomes[i] == r.result
  {
    match enumerated
    case Failure(e) => Run([], [], Failed(BadConfig(e)))
    case Success(entries) =>
      var outcomes := Outcomes(entries, launch);
      Run(Calls(entries), outcomes, Join(outcomes))
  }

  /** `start`, with the entries read directly from the namespace object. */
  function Start(root: Settings, order: seq<string>, launch: Launcher): (r: Run)
    requires ListsNamespace(root, order)
    ensures Enumerate(root, order).Failure? ==>
      r == Run([], [], Failed(BadConfig(Enumerate(root, order).error)))
    ensures Enumerate(root, order).Success? ==>
      && |r.outcomes| == |order|
      && r.calls == Calls(Enumerate(root, order).value)
    ensures r.result.Succeeded? <==>
      Enumerate(root, order).Success? && forall i :: 0 <= i < |r.outcomes| ==> r.outcomes[i].Succeeded?
    ensures r.result.Failed? ==>
      Enumerate(root, order).Failure? || exists i :: 0 <= i < |r.outcomes| && r.outcomes[i] == r.result
  {
    Complete(Enumerate(root, order), launch)
  }

  /** `start` as the verticle writes it, with every entry fetched again by its
      path expression. */
  function StartAsWritten(root: Settings, order: seq<string>, launch: Launcher): (r: Run)
    requires ListsNamespace(root, order)
    ensures EnumerateAsWritten(root, order).Failure? ==>
      r == Run([], [], Failed(BadConfig(EnumerateAsWritten(root, order).error)))
    ensures Namespace(root).Failure? ==> r == Run([], [], Failed(BadConfig(Namespace(root).error)))
    ensures r.result.Succeeded? <==>
      EnumerateAsWritten(root, order).Success? && forall i :: 0 <= i < |r.outcomes| ==> r.outcomes[i].Succeeded?
  {
    Complete(EnumerateAsWritten(root, order), launch)
  }

  /** When no key is empty or contains a dot, the verticle's `start` and the
      corrected one do exactly the same thing. */
  lemma StartAsWrittenAgreesOnPlainKeys(root: Settings, order: seq<string>, launch: Launcher)
    requires ListsNamespace(root, order)
    requires forall i :: 0 <= i < |order| ==> PlainKey(order[i])
    ensures StartAsWritten(root, order, launch) == Start(root, order, launch)
  {
    AsWrittenAgreesOnPlainKeys(root, order);
  }

  /** On the "a.b" entry the verticle's `start` fails before any launch, while
      the corrected one launches the entry with default options. */
  lemma DottedKeyFailsStart(launch: Launcher)
    ensures ListsNamespace(DOTTED_ROOT, ["a.b"])
    ensures StartAsWritten(DOTTED_ROOT, ["a.b"], launch) ==
      Run([], [], Failed(BadConfig(ConfigError(EntryPath("a.b"), Missing))))
    ensures Start(DOTTED_ROOT, ["a.b"], launch).calls == [Launch("x", DEFAULT_OPTIONS)]
    ensures Start(DOTTED_ROOT, ["a.b"], launch).outcomes == [launch("x", DEFAULT_OPTIONS)]
  {
    DottedKeyBreaksAsWritten();
    DottedKeyEnumerated();
    NameOnlyGivesDefaults("x");
    var entries := [DOTTED_ENTRY];
    assert entries[1..] == [];
    assert Request(DOTTED_ENTRY) == Some(Launch("x", DEFAULT_OPTIONS));
    assert Calls(entries) == [Launch("x", DEFAULT_OPTIONS)];
    assert Outcomes(entries, launch) == [launch("x", DEFAULT_OPTIONS)];
  }

  /** The entry under a namespace key deploys successfully. */
  predicate EntryDeploys(v: Value, launch: Launcher) {
    v.VObj? && Deploy(v.fields, launch).Succeeded?
  }

  /** Once enumerated, the outcome at position `i` is the deployment of the
      entry under the `i`-th key. */
  lemma EnumeratedOutcomes(root: Settings, order: seq<string>, launch: Launcher)
    requires ListsNamespace(root, order) && Enumerate(root, order).Success?
    ensures forall i :: 0 <= i < |order| ==>
      Namespace(root).value[order[i]].VObj? &&
      Start(root, order, launch).outcomes[i] == Deploy(Namespace(root).value[order[i]].fields, launch)
  {
    var entries := Enumerate(root, order).value;
    assert Start(root, order, launch).outcomes == Outcomes(entries, launch);
  }

  lemma VerdictWhenEnumerated(root: Settings, order: seq<string>, launch: Launcher)
    requires ListsNamespace(root, order) && Enumerate(root, order).Success?
    ensures Start(root, order, launch).result.Succeeded? <==>
      forall k :: k in Namespace(root).value ==> EntryDeploys(Namespace(root).value[k], launch)
  {
    var ns := Namespace(root).value;
    var r := Start(root, order, launch);
    EnumeratedOutcomes(root, order, launch);
    if r.result.Succeeded? {
      forall k | k in ns
        ensures EntryDeploys(ns[k], launch)
      {
        var i :| 0 <= i < |order| && order[i] == k;
        assert r.outcomes[i].Succeeded?;
      }
    } else {
      var i :| 0 <= i < |r.outcomes| && !r.outcomes[i].Succeeded?;
      assert !EntryDeploys(ns[order[i]], launch);
    }
  }

  /** The start succeeds exactly when there is a namespace and every entry in it
      is an object whose deployment succeeds; the enumeration order plays no part. */
  lemma StartVerdict(root: Settings, order: seq<string>, launch: Launcher)
    requires ListsNamespace(root, order)
    ensures Start(root, order, launch).result.Succeeded? <==>
      && Namespace(root).Success?
      && forall k :: k in Namespace(root).value ==> EntryDeploys(Namespace(root).value[k], launch)
  {
    if Enumerate(root, order).Success? {
      VerdictWhenEnumerated(root, order, launch);
    } else if Namespace(root).Success? {
      var ns := Namespace(root).value;
      var k :| k in ns && !ns[k].VObj?;
      assert !EntryDeploys(ns[k], launch);
    }
  }

  /** Enumerating the entries in any other order gives the same verdict. */
  lemma StartOrderIrrelevant(root: Settings, o1: seq<string>, o2: seq<string>, launch: Launcher)
    requires ListsNamespace(root, o1) && ListsNamespace(root, o2)
    ensures Start(root, o1, launch).result.Succeeded? == Start(root, o2, launch).result.Succeeded?
  {
    StartVerdict(root, o1, launch);
    StartVerdict(root, o2, launch);
  }
}
