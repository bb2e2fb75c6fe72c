/** Resolved configuration trees as the boot verticle reads them through the
    Typesafe Config API: `hasPath`, the typed getters that throw on a missing or
    ill-typed value, and `getConfig(path)` with its dotted path expressions. */
module ConfigTree {
  import opened Wrappers

  /** One resolved configuration value. Numbers are integers of any size, and
      the typed getters check whether they fit a Java `int` or `long`. The
      library itself never holds an integer wider than a `long`: it reads a
      wider literal as text, which is not modelled. */
  datatype Value =
    | VNull
    | VStr(str: string)
    | VInt(num: int)
    | VBool(flag: bool)
    | VList(items: seq<Value>)
    | VObj(fields: map<string, Value>)

  /** The settings of one configuration object, keyed by single path elements. */
  type Settings = map<string, Value>

  const INT_MIN: int := -0x8000_0000
  const INT_MAX: int := 0x7FFF_FFFF
  const LONG_MIN: int := -0x8000_0000_0000_0000
  const LONG_MAX: int := 0x7FFF_FFFF_FFFF_FFFF

  /** Java `int` and `long`. */
  type Int32 = n: int | INT_MIN <= n <= INT_MAX
  type Int64 = n: int | LONG_MIN <= n <= LONG_MAX

  /** The exceptions of the configuration library the verticle can run into:
      `ConfigException.Missing` (also raised for an explicit null),
      `ConfigException.WrongType`, `ConfigException.BadPath`, and the decoding
      error of a `JsonObject` built from something that is not an object. */
  datatype Problem = Missing | WrongType | BadPath | NotAnObject

  datatype ConfigError = ConfigError(path: string, problem: Problem)

  /** `hasPath`: the key is present and its value is not null. */
  predicate HasPath(s: Settings, key: string) {
    key in s && s[key] != VNull
  }

  /** The configuration values a list of strings is made of. */
  function Strs(xs: seq<string>): seq<Value> {
    seq(|xs|, i requires 0 <= i < |xs| => VStr(xs[i]))
  }

  lemma StrsInjective(xs: seq<string>, ys: seq<string>)
    requires Strs(xs) == Strs(ys)
    ensures xs == ys
  {
    assert |xs| == |Strs(xs)| == |Strs(ys)| == |ys|;
    forall i | 0 <= i < |xs|
      ensures xs[i] == ys[i]
    {
      assert Strs(xs)[i] == VStr(xs[i]);
      assert Strs(ys)[i] == VStr(ys[i]);
    }
  }

  /** The strings of a list whose every element is a string. */
  function StringsOf(items: seq<Value>): (r: Option<seq<string>>)
    ensures r.Some? <==> forall i :: 0 <= i < |items| ==> items[i].VStr?
    ensures r.Some? ==> Strs(r.value) == items
  {
    if |items| == 0 then Some([])
    else if !items[0].VStr? then None
    else match StringsOf(items[1..])
      case None => None
      case Some(rest) =>
        var xs := [items[0].str] + rest;
        assert Strs(xs) == [items[0]] + Strs(rest);
        assert items == [items[0]] + items[1..];
        Some(xs)
  }

  /** `getString(key)`. */
  function GetString(s: Settings, key: string): (r: Result<string, ConfigError>)
    ensures r.Success? <==> HasPath(s, key) && s[key].VStr?
    ensures r.Success? ==> s[key] == VStr(r.value)
    ensures r.Failure? ==> r.error == ConfigError(key, if HasPath(s, key) then WrongType else Missing)
  {
    if !HasPath(s, key) then Failure(ConfigError(key, Missing))
    else match s[key]
      case VStr(x) => Success(x)
      case _ => Failure(ConfigError(key, WrongType))
  }

  /** `getInt(key)`: a number outside the range of `int` is a type error. */
  function GetInt(s: Settings, key: string): (r: Result<Int32, ConfigError>)
    ensures r.Success? <==> HasPath(s, key) && s[key].VInt? && INT_MIN <= s[key].num <= INT_MAX
    ensures r.Success? ==> s[key] == VInt(r.value)
    ensures r.Failure? ==> r.error == ConfigError(key, if HasPath(s, key) then WrongType else Missing)
  {
    if !HasPath(s, key) then Failure(ConfigError(key, Missing))
    else if s[key].VInt? && INT_MIN <= s[key].num <= INT_MAX then Success(s[key].num)
    else Failure(ConfigError(key, WrongType))
  }

  /** `getLong(key)`. A number outside the range of `long` cannot come from
      the library's parser; the model reports one as a type error. */
  function GetLong(s: Settings, key: string): (r: Result<Int64, ConfigError>)
    ensures r.Success? <==> HasPath(s, key) && s[key].VInt? && LONG_MIN <= s[key].num <= LONG_MAX
    ensures r.Success? ==> s[key] == VInt(r.value)
    ensures r.Failure? ==> r.error == ConfigError(key, if HasPath(s, key) then WrongType else Missing)
  {
    if !HasPath(s, key) then Failure(ConfigError(key, Missing))
    else if s[key].VInt? && LONG_MIN <= s[key].num <= LONG_MAX then Success(s[key].num)
    else Failure(ConfigError(key, WrongType))
  }

  /** `getBoolean(key)`. */
  function GetBoolean(s: Settings, key: string): (r: Result<bool, ConfigError>)
    ensures r.Success? <==> HasPath(s, key) && s[key].VBool?
    ensures r.Success? ==> s[key] == VBool(r.value)
    ensures r.Failure? ==> r.error == ConfigError(key, if HasPath(s, key) then WrongType else Missing)
  {
    if !HasPath(s, key) then Failure(ConfigError(key, Missing))
    else match s[key]
      case VBool(b) => Success(b)
      case _ => Failure(ConfigError(key, WrongType))
  }

  /** `getStringList(key)`: every element of the list must be a string. */
  function GetStringList(s: Settings, key: string): (r: Result<seq<string>, ConfigError>)
    ensures r.Success? <==>
      HasPath(s, key) && s[key].VList? && forall i :: 0 <= i < |s[key].items| ==> s[key].items[i].VStr?
    ensures r.Success? ==> s[key] == VList(Strs(r.value))
    ensures r.Failure? ==> r.error == ConfigError(key, if HasPath(s, key) then WrongType else Missing)
  {
    if !HasPath(s, key) then Failure(ConfigError(key, Missing))
    else match s[key]
      case VList(items) =>
        (match StringsOf(items)
         case Some(xs) => Success(xs)
         case None => Failure(ConfigError(key, WrongType)))
      case _ => Failure(ConfigError(key, WrongType))
  }

  /** `getValue(key)` rendered to JSON and parsed into a `JsonObject`: only an
      object survives the round trip, and it is carried through as it is. */
  function GetObject(s: Settings, key: string): (r: Result<Settings, ConfigError>)
    ensures r.Success? <==> HasPath(s, key) && s[key].VObj?
    ensures r.Success? ==> s[key] == VObj(r.value)
    ensures r.Failure? ==> r.error == ConfigError(key, if HasPath(s, key) then NotAnObject else Missing)
  {
    if !HasPath(s, key) then Failure(ConfigError(key, Missing))
    else match s[key]
      case VObj(m) => Success(m)
      case _ => Failure(ConfigError(key, NotAnObject))
  }

  // ---------------------------------------------------------------------------
  // Path expressions
  // ---------------------------------------------------------------------------

  /** Index of the last '.' of `p`, or -1 when there is none. */
  function LastDot(p: string): (i: int)
    ensures -1 <= i < |p|
    ensures 0 <= i ==> p[i] == '.'
    ensures forall j :: i < j < |p| ==> p[j] != '.'
  {
    if |p| == 0 then -1
    else if p[|p| - 1] == '.' then |p| - 1
    else LastDot(p[..|p| - 1])
  }

  /** The elements of a dotted path expression, as the library splits it. */
  function SplitPath(p: string): (r: seq<string>)
    ensures |r| >= 1
    ensures forall k :: 0 <= k < |r| ==> '.' !in r[k]
    decreases |p|
  {
    var i := LastDot(p);
    NoDotAfter(p, i);
    if i < 0 then [p]
    else
      var init := SplitPath(p[..i]);
      var last := p[i + 1..];
      assert forall k :: 0 <= k < |init| ==> (init + [last])[k] == init[k];
      init + [last]
  }

  lemma NoDotAfter(p: string, i: int)
    requires -1 <= i < |p|
    requires forall j :: i < j < |p| ==> p[j] != '.'
    ensures '.' !in p[i + 1..]
  {
    var tail := p[i + 1..];
    assert forall j :: 0 <= j < |tail| ==> tail[j] == p[i + 1 + j];
  }

  /** The path expression naming a sequence of path elements. */
  function JoinPath(segs: seq<string>): string
    requires |segs| >= 1
  {
    if |segs| == 1 then segs[0]
    else JoinPath(segs[..|segs| - 1]) + "." + segs[|segs| - 1]
  }

  /** Appending one dot-free element to a path expression appends one element to its split. */
  lemma SplitAppend(a: string, b: string)
    requires '.' !in b
    ensures SplitPath(a + "." + b) == SplitPath(a) + [b]
  {
    var p := a + "." + b;
    var i := LastDot(p);
    assert p[|a|] == '.';
    forall j | |a| < j < |p|
      ensures p[j] != '.'
    {
      assert p[j] == b[j - |a| - 1];
    }
    assert i == |a|;
    assert p[..i] == a;
    assert p[i + 1..] == b;
  }

  /** Splitting inverts joining, as long as no element contains a dot. */
  lemma {:induction false} SplitJoin(segs: seq<string>)
    requires |segs| >= 1
    requires forall k :: 0 <= k < |segs| ==> '.' !in segs[k]
    ensures SplitPath(JoinPath(segs)) == segs
    decreases |segs|
  {
    if |segs| == 1 {
      var p := segs[0];
      assert forall j :: 0 <= j < |p| ==> p[j] != '.';
      assert LastDot(p) == -1;
    } else {
      var init := segs[..|segs| - 1];
      SplitJoin(init);
      SplitAppend(JoinPath(init), segs[|segs| - 1]);
      assert init + [segs[|segs| - 1]] == segs;
    }
  }

  /** Joining inverts splitting. */
  lemma {:induction false} JoinSplit(p: string)
    ensures JoinPath(SplitPath(p)) == p
    decreases |p|
  {
    var i := LastDot(p);
    if 0 <= i {
      JoinSplit(p[..i]);
      var segs := SplitPath(p);
      assert segs[..|segs| - 1] == SplitPath(p[..i]);
      assert p == p[..i] + "." + p[i + 1..];
    }
  }

  /** One step of `getConfig`: the object under `key`. */
  function Child(obj: Settings, key: string, path: string): (r: Result<Settings, ConfigError>)
    ensures r.Success? <==> HasPath(obj, key) && obj[key].VObj?
    ensures r.Success? ==> obj[key] == VObj(r.value)
    ensures r.Failure? ==> r.error == ConfigError(path, if HasPath(obj, key) then WrongType else Missing)
  {
    if !HasPath(obj, key) then Failure(ConfigError(path, Missing))
    else match obj[key]
      case VObj(m) => Success(m)
      case _ => Failure(ConfigError(path, WrongType))
  }

  /** The object reached by following `segs`; errors name the whole `path`. */
  function Walk(obj: Settings, segs: seq<string>, path: string): Result<Settings, ConfigError>
    requires |segs| >= 1
    decreases |segs|
  {
    var m :- Child(obj, segs[0], path);
    if |segs| == 1 then Success(m) else Walk(m, segs[1..], path)
  }

  /** Walking one element further is one more `Child` step after the walk. */
  lemma {:induction false} WalkAppend(obj: Settings, segs: seq<string>, key: string, path: string)
    requires |segs| >= 1
    ensures Walk(obj, segs + [key], path) ==
      match Walk(obj, segs, path)
      case Failure(e) => Failure(e)
      case Success(m) => Child(m, key, path)
    decreases |segs|
  {
    if |segs| > 1 {
      assert (segs + [key])[1..] == segs[1..] + [key];
      match Child(obj, segs[0], path)
      case Failure(_) =>
      case Success(m) => WalkAppend(m, segs[1..], key, path);
    }
  }

  /** `getConfig(path)`: parse the path expression (an empty element is a
      `BadPath`), then follow it through nested objects. */
  function GetConfigAt(root: Settings, path: string): (r: Result<Settings, ConfigError>)
    ensures (exists k :: 0 <= k < |SplitPath(path)| && SplitPath(path)[k] == "") ==>
      r == Failure(ConfigError(path, BadPath))
    ensures r.Failure? ==> r.error.path == path
  {
    var segs := SplitPath(path);
    if exists k :: 0 <= k < |segs| && segs[k] == "" then Failure(ConfigError(path, BadPath))
    else WalkErrorsNamePath(root, segs, path); Walk(root, segs, path)
  }

  lemma {:induction false} WalkErrorsNamePath(obj: Settings, segs: seq<string>, path: string)
    requires |segs| >= 1
    ensures Walk(obj, segs, path).Failure? ==> Walk(obj, segs, path).error.path == path
    decreases |segs|
  {
    if |segs| > 1 {
      match Child(obj, segs[0], path)
      case Failure(_) =>
      case Success(m) => WalkErrorsNamePath(m, segs[1..], path);
    }
  }

  /** A path expression joined from non-empty, dot-free elements resolves by
      walking exactly those elements. */
  lemma GetConfigAtJoin(root: Settings, segs: seq<string>)
    requires |segs| >= 1
    requires forall k :: 0 <= k < |segs| ==> segs[k] != "" && '.' !in segs[k]
    ensures GetConfigAt(root, JoinPath(segs)) == Walk(root, segs, JoinPath(segs))
  {
    SplitJoin(segs);
  }

  /** `getConfig(key)` for a single element: the object under the key, `Missing`
      when it is absent or null, `WrongType` when it is not an object. */
  lemma GetConfigAtKey(root: Settings, key: string)
    requires key != "" && '.' !in key
    ensures GetConfigAt(root, key).Success? <==> HasPath(root, key) && root[key].VObj?
    ensures GetConfigAt(root, key).Success? ==> root[key] == VObj(GetConfigAt(root, key).value)
    ensures GetConfigAt(root, key).Failure? ==>
      GetConfigAt(root, key).error == ConfigError(key, if HasPath(root, key) then WrongType else Missing)
  {
    GetConfigAtJoin(root, [key]);
  }
}
