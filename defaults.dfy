/** Per-platform defaults for locating sclang and its configuration
    (src/util/defaults.ts). The operating system is a `Platform` value, the
    process environment a map from variable name to value (a missing name is
    `undefined`), and the Windows registry a partial map from a key path under
    HKEY_CURRENT_USER to that key's default string value (a missing path is a
    lookup that throws). */
module Defaults {
  import opened Text
  import opened Wrappers

  /** The values of Node's `os.platform()` that the code distinguishes;
      `OtherPlatform` stands for every value the code does not list, and is
      never given one of the listed names. */
  datatype Platform = Win32 | Darwin | Linux | FreeBSD | OpenBSD | OtherPlatform(name: string)

  type Environment = map<string, string>

  /** Subkey path under HKEY_CURRENT_USER -> default value of that key. */
  type Registry = map<string, string>

  const ApplicationName := "SuperCollider"
  const SclangConfYamlName := "sclang_conf.yaml"
  /** Named MAX_MAJOR_VERSION in the source, but bounds the minor version of 3.x. */
  const MaxMajorVersion := 20
  /** Named MAX_MINOR_VERSION in the source, but bounds the patch version. */
  const MaxMinorVersion := 6
  const DefaultInstallPathWin := "c:\\Program Files\\SuperCollider"

  predicate IsUnixLike(p: Platform)
  {
    p == Linux || p == FreeBSD || p == OpenBSD
  }

  /** The platforms the `switch` statements have a case for. */
  predicate IsKnown(p: Platform)
  {
    p == Win32 || p == Darwin || IsUnixLike(p)
  }

  /** The separator Node's `path.join` uses on the platform. */
  function Separator(p: Platform): char
  {
    if p == Win32 then '\\' else '/'
  }

  /** A variable JavaScript's `||` treats as present: defined and not empty. */
  predicate IsSet(env: Environment, name: string)
  {
    name in env && env[name] != ""
  }

  /** `env[name] || fallback`. */
  function EnvOr(env: Environment, name: string, fallback: string): string
  {
    if IsSet(env, name) then env[name] else fallback
  }

  /** `sclangExecutable()`. */
  function SclangExecutable(p: Platform): (r: string)
    ensures r == "sclang.exe" <==> p == Win32
    ensures p != Win32 ==> r == "sclang"
  {
    match p
    case Win32 => "sclang.exe"
    case _ => "sclang"
  }

  /** The directory that holds the per-user SuperCollider directory:
      the first of the platform's variables that is set, else a path under home. */
  function ConfigBase(p: Platform, env: Environment, home: string): (r: string)
    requires IsKnown(p)
    ensures IsSet(env, ConfigVariables(p)[0]) ==> r == env[ConfigVariables(p)[0]]
  {
    var sep := Separator(p);
    match p
    case Win32 => EnvOr(env, "LOCALAPPDATA", PathJoin(sep, [home, "AppData", "Local"]))
    case Darwin =>
      EnvOr(env, "XDG_CONFIG_HOME",
        EnvOr(env, "XDG_DATA_HOME", PathJoin(sep, [home, "Library", "Application Support"])))
    case _ => EnvOr(env, "XDG_CONFIG_HOME", PathJoin(sep, [home, ".config"]))
  }

  /** `userConfigPath()`; `None` is the `undefined` an unlisted platform falls through to. */
  function UserConfigPath(p: Platform, env: Environment, home: string): (r: Option<string>)
    ensures r.Some? <==> IsKnown(p)
  {
    if IsKnown(p) then Some(PathJoin(Separator(p), [ConfigBase(p, env, home), ApplicationName]))
    else None
  }

  /** The first variable in `names` that is set, else `fallback`: the reading
      of a chain `env[names[0]] || env[names[1]] || ... || fallback`. */
  function FirstSet(env: Environment, names: seq<string>, fallback: string): (r: string)
    ensures (forall i :: 0 <= i < |names| ==> !IsSet(env, names[i])) ==> r == fallback
    ensures forall k :: (0 <= k < |names| && IsSet(env, names[k]) &&
                         forall i :: 0 <= i < k ==> !IsSet(env, names[i])) ==> r == env[names[k]]
    decreases |names|
  {
    if |names| == 0 then fallback
    else if IsSet(env, names[0]) then env[names[0]]
    else FirstSet(env, names[1..], fallback)
  }

  /** The variables consulted for the configuration directory, in order. */
  function ConfigVariables(p: Platform): seq<string>
  {
    match p
    case Win32 => ["LOCALAPPDATA"]
    case Darwin => ["XDG_CONFIG_HOME", "XDG_DATA_HOME"]
    case _ => ["XDG_CONFIG_HOME"]
  }

  /** The home-relative directory used when none of the variables is set. */
  function HomeFallback(p: Platform): seq<string>
  {
    match p
    case Win32 => ["AppData", "Local"]
    case Darwin => ["Library", "Application Support"]
    case _ => [".config"]
  }

  /** On every known platform the configuration directory is `SuperCollider`
      inside the first of the platform's variables that is set (an empty value
      counts as unset), or inside the home-relative fallback. */
  lemma UserConfigPathByPreference(p: Platform, env: Environment, home: string)
    requires IsKnown(p)
    ensures UserConfigPath(p, env, home) ==
      Some(PathJoin(Separator(p),
        [FirstSet(env, ConfigVariables(p), PathJoin(Separator(p), [home] + HomeFallback(p))),
         ApplicationName]))
  {
    var sep := Separator(p);
    var names := ConfigVariables(p);
    var fallback := PathJoin(sep, [home] + HomeFallback(p));
    if p == Darwin {
      assert names[1..] == ["XDG_DATA_HOME"];
      assert FirstSet(env, names[1..], fallback) == EnvOr(env, "XDG_DATA_HOME", fallback);
    }
    assert [home] + HomeFallback(p) == match p
      case Win32 => [home, "AppData", "Local"]
      case Darwin => [home, "Library", "Application Support"]
      case _ => [home, ".config"];
  }

  /** `sclangConfYamlPath()`; `None` stands for the TypeError `path.join`
      raises when `userConfigPath()` is `undefined`. */
  function SclangConfYamlPath(p: Platform, env: Environment, home: string): (r: Option<string>)
    ensures r.Some? <==> UserConfigPath(p, env, home).Some?
    ensures r.Some? ==>
      r.value == UserConfigPath(p, env, home).value + [Separator(p)] + SclangConfYamlName
  {
    match UserConfigPath(p, env, home)
    case None => None
    case Some(dir) =>
      JoinPair(dir, SclangConfYamlName, [Separator(p)]);
      Some(PathJoin(Separator(p), [dir, SclangConfYamlName]))
  }

  // ---------------------------------------------------------------------------
  // Windows install path

  /** `new Array(n).fill(null).map((_, i) => i)`. */
  function Indices(n: nat): (r: seq<nat>)
  {
    seq(n, i requires 0 <= i < n => i)
  }

  function Reversed(s: seq<nat>): (r: seq<nat>)
    ensures |r| == |s|
    decreases |s|
  {
    if |s| == 0 then [] else Reversed(s[1..]) + [s[0]]
  }

  lemma {:induction false} ReversedAt(s: seq<nat>, k: nat)
    requires k < |s|
    ensures Reversed(s)[k] == s[|s| - 1 - k]
    decreases |s|
  {
    if k < |s| - 1 {
      ReversedAt(s[1..], k);
    }
  }

  /** The reversed index list counts down from `n - 1` to 0. */
  lemma CountDown(n: nat, k: nat)
    requires k < n
    ensures Reversed(Indices(n))[k] == n - 1 - k
  {
    ReversedAt(Indices(n), k);
  }

  /** The (minor, patch) pairs the nested `for` loops visit, outer loop first. */
  function VersionPairs(minors: seq<nat>, patches: seq<nat>): (r: seq<(nat, nat)>)
    ensures |r| == |minors| * |patches|
    ensures forall i :: 0 <= i < |r| ==> r[i].0 in minors && r[i].1 in patches
    decreases |minors|
  {
    if |minors| == 0 then []
    else
      var block := seq(|patches|, j requires 0 <= j < |patches| => (minors[0], patches[j]));
      var rest := VersionPairs(minors[1..], patches);
      assert |block| + |rest| == |minors| * |patches|;
      block + rest
  }

  /** Position of the `j`-th inner iteration of the `k`-th outer iteration. */
  function Slot(k: nat, j: nat, width: nat): nat
  {
    k * width + j
  }

  lemma {:induction false} VersionPairsAt(minors: seq<nat>, patches: seq<nat>, k: nat, j: nat)
    requires k < |minors| && j < |patches|
    ensures Slot(k, j, |patches|) < |VersionPairs(minors, patches)|
    ensures VersionPairs(minors, patches)[Slot(k, j, |patches|)] == (minors[k], patches[j])
    decreases k
  {
    if k > 0 {
      VersionPairsAt(minors[1..], patches, k - 1, j);
      assert Slot(k - 1, j, |patches|) + |patches| == Slot(k, j, |patches|);
    }
  }

  predicate StrictlyDecreasing(s: seq<nat>)
  {
    forall i, j :: 0 <= i < j < |s| ==> s[i] > s[j]
  }

  /** Version `a` is newer than version `b`: larger minor, or same minor and larger patch. */
  predicate Newer(a: (nat, nat), b: (nat, nat))
  {
    a.0 > b.0 || (a.0 == b.0 && a.1 > b.1)
  }

  lemma {:induction false} VersionPairsNewestFirst(minors: seq<nat>, patches: seq<nat>)
    requires StrictlyDecreasing(minors) && StrictlyDecreasing(patches)
    ensures forall i, j :: 0 <= i < j < |VersionPairs(minors, patches)| ==>
              Newer(VersionPairs(minors, patches)[i], VersionPairs(minors, patches)[j])
    decreases |minors|
  {
    if |minors| > 0 {
      var r := VersionPairs(minors, patches);
      var rest := VersionPairs(minors[1..], patches);
      var n := |patches|;
      VersionPairsNewestFirst(minors[1..], patches);
      assert r[n..] == rest;
      forall i, j | 0 <= i < j < |r| ensures Newer(r[i], r[j]) {
        if j < n {
          assert r[i] == (minors[0], patches[i]) && r[j] == (minors[0], patches[j]);
        } else if i < n {
          assert r[j] == rest[j - n];
          assert rest[j - n].0 in minors[1..];
          var t :| 0 <= t < |minors[1..]| && minors[1..][t] == r[j].0;
          assert minors[t + 1] == r[j].0;
        } else {
          assert r[i] == rest[i - n] && r[j] == rest[j - n];
        }
      }
    }
  }

  lemma DecreasingCountDown(n: nat)
    ensures StrictlyDecreasing(Reversed(Indices(n)))
  {
    forall i, j | 0 <= i < j < n ensures Reversed(Indices(n))[i] > Reversed(Indices(n))[j] {
      CountDown(n, i);
      CountDown(n, j);
    }
  }

  /** The pairs visited by two nested count-down loops over `a` and `b` values. */
  function CountDownPairs(a: nat, b: nat): seq<(nat, nat)>
  {
    VersionPairs(Reversed(Indices(a)), Reversed(Indices(b)))
  }

  /** Two nested count-down loops visit `a * b` pairs, newest first, with pair
      (a - 1 - k, b - 1 - j) at slot (k, j), and every pair is below (a, b). */
  lemma {:induction false} CountDownPairsShape(a: nat, b: nat)
    ensures |CountDownPairs(a, b)| == a * b
    ensures forall i, j :: 0 <= i < j < |CountDownPairs(a, b)| ==>
              Newer(CountDownPairs(a, b)[i], CountDownPairs(a, b)[j])
    ensures forall k, j :: 0 <= k < a && 0 <= j < b ==>
              Slot(k, j, b) < |CountDownPairs(a, b)| && CountDownPairs(a, b)[Slot(k, j, b)] == (a - 1 - k, b - 1 - j)
    ensures forall i :: 0 <= i < |CountDownPairs(a, b)| ==> CountDownPairs(a, b)[i].0 < a && CountDownPairs(a, b)[i].1 < b
  {
    var ms, ps := Reversed(Indices(a)), Reversed(Indices(b));
    var c := CountDownPairs(a, b);
    DecreasingCountDown(a);
    DecreasingCountDown(b);
    VersionPairsNewestFirst(ms, ps);
    forall k, j | 0 <= k < a && 0 <= j < b
      ensures Slot(k, j, b) < |c| && c[Slot(k, j, b)] == (a - 1 - k, b - 1 - j)
    {
      VersionPairsAt(ms, ps, k, j);
      CountDown(a, k);
      CountDown(b, j);
    }
    forall i | 0 <= i < |c| ensures c[i].0 < a && c[i].1 < b {
      var k :| 0 <= k < |ms| && ms[k] == c[i].0;
      var j :| 0 <= j < |ps| && ps[j] == c[i].1;
      CountDown(a, k);
      CountDown(b, j);
    }
  }

  /** The versions tried after `CurrentVersion`: 3.20.6 down to 3.0.0. */
  function VersionCandidates(): seq<(nat, nat)>
  {
    CountDownPairs(MaxMajorVersion + 1, MaxMinorVersion + 1)
  }

  /** The candidate list has 21 x 7 entries, all 3.m.p with m <= 20 and
      p <= 6, newest first (`CountDownPairsShape` gives each slot). */
  lemma VersionCandidatesShape()
    ensures |VersionCandidates()| == 21 * 7
    ensures forall i, j :: 0 <= i < j < |VersionCandidates()| ==>
              Newer(VersionCandidates()[i], VersionCandidates()[j])
    ensures forall i :: 0 <= i < |VersionCandidates()| ==>
              VersionCandidates()[i].0 <= MaxMajorVersion && VersionCandidates()[i].1 <= MaxMinorVersion
  {
    CountDownPairsShape(MaxMajorVersion + 1, MaxMinorVersion + 1);
  }

  function VersionString(minor: nat, patch: nat): string
  {
    "3." + NatToString(minor) + "." + NatToString(patch)
  }

  function RegistryKey(name: string): string
  {
    "SOFTWARE\\" + ApplicationName + "\\" + name
  }

  const CurrentVersionKey := RegistryKey("CurrentVersion")

  function VersionKey(v: (nat, nat)): string
  {
    RegistryKey(VersionString(v.0, v.1))
  }

  /** The keys looked up: `CurrentVersion`, then one per version in `vs`. */
  function KeysFor(vs: seq<(nat, nat)>): (r: seq<string>)
    ensures |r| == 1 + |vs| && r[0] == CurrentVersionKey
    ensures forall i :: 0 <= i < |vs| ==> r[i + 1] == VersionKey(vs[i])
  {
    [CurrentVersionKey] + seq(|vs|, i requires 0 <= i < |vs| => VersionKey(vs[i]))
  }

  /** The registry keys `getInstallPathWin` tries, in order. */
  function CandidateKeys(): seq<string>
  {
    KeysFor(VersionCandidates())
  }

  /** Position of the first key present in the registry, or `|keys|` when none is. */
  function FirstPresent(reg: Registry, keys: seq<string>): (i: nat)
    ensures i <= |keys|
    ensures forall j :: 0 <= j < i ==> keys[j] !in reg
    ensures i < |keys| ==> keys[i] in reg
    decreases |keys|
  {
    if |keys| == 0 then 0
    else if keys[0] in reg then 0
    else 1 + FirstPresent(reg, keys[1..])
  }

  /** `getInstallPathWin()`: the value of the first candidate key the registry
      holds, else the fixed default. */
  function GetInstallPathWin(reg: Registry): (r: string)
    ensures CurrentVersionKey in reg ==> r == reg[CurrentVersionKey]
    ensures r == DefaultInstallPathWin || exists k :: k in reg && r == reg[k]
  {
    FirstValueOr(reg, CandidateKeys(), DefaultInstallPathWin)
  }

  /** The value of the first of `keys` the registry holds, else `fallback`. */
  function FirstValueOr(reg: Registry, keys: seq<string>, fallback: string): (r: string)
    ensures (forall i :: 0 <= i < |keys| ==> keys[i] !in reg) ==> r == fallback
    ensures (exists i :: 0 <= i < |keys| && keys[i] in reg) ==>
              exists i :: 0 <= i < |keys| && keys[i] in reg && r == reg[keys[i]]
                && forall j :: 0 <= j < i ==> keys[j] !in reg
  {
    var i := FirstPresent(reg, keys);
    if i < |keys| then reg[keys[i]] else fallback
  }

  /** The first present key is at `idx` when it is present and none before it is. */
  lemma {:induction false} FirstPresentAt(reg: Registry, keys: seq<string>, idx: nat)
    requires idx < |keys| && keys[idx] in reg
    requires forall t :: 0 <= t < idx ==> keys[t] !in reg
    ensures FirstPresent(reg, keys) == idx
    decreases idx
  {
    if idx > 0 {
      FirstPresentAt(reg, keys[1..], idx - 1);
    }
  }

  /** Without a `CurrentVersion` entry, the first listed version whose key is
      present supplies the value. */
  lemma FirstVersionHit(reg: Registry, vs: seq<(nat, nat)>, idx: nat, fallback: string)
    requires idx < |vs| && CurrentVersionKey !in reg
    requires VersionKey(vs[idx]) in reg
    requires forall t :: 0 <= t < idx ==> VersionKey(vs[t]) !in reg
    ensures FirstValueOr(reg, KeysFor(vs), fallback) == reg[VersionKey(vs[idx])]
  {
    var keys := KeysFor(vs);
    forall t | 0 <= t < idx + 1 ensures keys[t] !in reg {
      if t > 0 {
        assert keys[t] == VersionKey(vs[t - 1]);
      }
    }
    FirstPresentAt(reg, keys, idx + 1);
  }

  /** For nested count-down loops over `a` minors and `b` patches: without a
      `CurrentVersion` entry the first hit is the newest version present. */
  lemma NewestVersionHit(reg: Registry, a: nat, b: nat, m: nat, p: nat, fallback: string)
    requires m < a && p < b
    requires CurrentVersionKey !in reg
    requires VersionKey((m, p)) in reg
    requires forall m': nat, p': nat :: m' < a && p' < b && Newer((m', p'), (m, p)) ==>
               VersionKey((m', p')) !in reg
    ensures FirstValueOr(reg, KeysFor(CountDownPairs(a, b)), fallback) == reg[VersionKey((m, p))]
  {
    var vs := CountDownPairs(a, b);
    CountDownPairsShape(a, b);
    var idx := Slot(a - 1 - m, b - 1 - p, b);
    assert vs[idx] == (m, p);
    forall t | 0 <= t < idx ensures VersionKey(vs[t]) !in reg {
      assert Newer(vs[t], vs[idx]);
      assert vs[t].0 < a && vs[t].1 < b;
    }
    FirstVersionHit(reg, vs, idx, fallback);
  }

  /** Without a `CurrentVersion` entry the newest registered version in range wins. */
  lemma InstallPathPrefersNewestVersion(reg: Registry, m: nat, p: nat)
    requires m <= MaxMajorVersion && p <= MaxMinorVersion
    requires CurrentVersionKey !in reg
    requires VersionKey((m, p)) in reg
    requires forall m': nat, p': nat :: m' <= MaxMajorVersion && p' <= MaxMinorVersion && Newer((m', p'), (m, p)) ==>
               VersionKey((m', p')) !in reg
    ensures GetInstallPathWin(reg) == reg[VersionKey((m, p))]
  {
    NewestVersionHit(reg, MaxMajorVersion + 1, MaxMinorVersion + 1, m, p, DefaultInstallPathWin);
  }

  /** When no candidate key is present the fixed default path is used. */
  lemma InstallPathDefault(reg: Registry)
    requires forall i :: 0 <= i < |CandidateKeys()| ==> CandidateKeys()[i] !in reg
    ensures GetInstallPathWin(reg) == DefaultInstallPathWin
  {
  }

  /** `sclangPath()`; `None` is the `undefined` of an unlisted platform, and
      a path exists exactly for the platforms the `switch` lists. */
  function SclangPath(p: Platform, reg: Registry): (r: Option<string>)
    ensures r.Some? <==> IsKnown(p)
  {
    var exe := SclangExecutable(p);
    match p
    case Win32 => Some(PathJoin('\\', [GetInstallPathWin(reg), exe]))
    case Darwin => Some(PathJoin('/', ["/Applications", ApplicationName + ".app", "Contents", "MacOS", exe]))
    case OtherPlatform(_) => None
    case _ => Some(PathJoin('/', ["usr", "bin", exe]))
  }

  /** A join of five parts puts one separator between each neighbouring pair. */
  lemma JoinFive(a: string, b: string, c: string, d: string, e: string, sep: string)
    ensures Join([a, b, c, d, e], sep) == a + sep + b + sep + c + sep + d + sep + e
  {
    JoinPair(d, e, sep);
    assert [c, d, e][1..] == [d, e];
    assert Join([c, d, e], sep) == c + sep + (d + sep + e);
    assert [b, c, d, e][1..] == [c, d, e];
    assert Join([b, c, d, e], sep) == b + sep + (c + sep + (d + sep + e));
    assert [a, b, c, d, e][1..] == [b, c, d, e];
    assert Join([a, b, c, d, e], sep) == a + sep + (b + sep + (c + sep + (d + sep + e)));
  }

  /** The bundle directory, spelled out one component at a time. */
  lemma BundleDirText()
    ensures "/Applications" + "/" + "SuperCollider.app" + "/" + "Contents" == "/Applications/SuperCollider.app/Contents"
  {
    assert "/Applications" + "/" == "/Applications/";
    assert "/Applications/" + "SuperCollider.app" == "/Applications/SuperCollider.app";
    assert "/Applications/SuperCollider.app" + "/" == "/Applications/SuperCollider.app/";
  }

  /** The executable inside the bundle, spelled out one component at a time. */
  lemma BundlePathText()
    ensures "/Applications" + "/" + "SuperCollider.app" + "/" + "Contents" + "/" + "MacOS" + "/" + "sclang"
            == "/Applications/SuperCollider.app/Contents/MacOS/sclang"
  {
    BundleDirText();
    assert "/Applications/SuperCollider.app/Contents" + "/" + "MacOS" == "/Applications/SuperCollider.app/Contents/MacOS";
    assert "/Applications/SuperCollider.app/Contents/MacOS" + "/" + "sclang" == "/Applications/SuperCollider.app/Contents/MacOS/sclang";
  }

  /** macOS uses an absolute path into the application bundle. */
  lemma SclangPathDarwin(reg: Registry)
    ensures SclangPath(Darwin, reg).Some?
    ensures |SclangPath(Darwin, reg).value| >= 1 && SclangPath(Darwin, reg).value[0] == '/'
    ensures SclangPath(Darwin, reg) == Some("/Applications/SuperCollider.app/Contents/MacOS/sclang")
  {
    var parts := ["/Applications", ApplicationName + ".app", "Contents", "MacOS", "sclang"];
    assert SclangPath(Darwin, reg) == Some(Join(parts, "/"));
    JoinStart(parts, "/");
    JoinFive("/Applications", ApplicationName + ".app", "Contents", "MacOS", "sclang", "/");
    assert ApplicationName + ".app" == "SuperCollider.app";
    BundlePathText();
  }

  /** On every listed platform the path names the platform's executable as its
      last component. */
  lemma SclangPathEndsWithExecutable(p: Platform, reg: Registry)
    requires IsKnown(p)
    ensures SclangPath(p, reg).Some?
    ensures var path, exe := SclangPath(p, reg).value, SclangExecutable(p);
            |path| > |exe| && path[|path| - |exe|..] == exe && path[|path| - |exe| - 1] == Separator(p)
  {
    if p == Win32 {
      var parts := [GetInstallPathWin(reg), SclangExecutable(p)];
      assert SclangPath(p, reg) == Some(PathJoin(Separator(p), parts));
      PathJoinEndsWith(Separator(p), parts);
    } else if p == Darwin {
      var parts := ["/Applications", ApplicationName + ".app", "Contents", "MacOS", SclangExecutable(p)];
      assert SclangPath(p, reg) == Some(PathJoin(Separator(p), parts));
      PathJoinEndsWith(Separator(p), parts);
    } else {
      var parts := ["usr", "bin", SclangExecutable(p)];
      assert SclangPath(p, reg) == Some(PathJoin(Separator(p), parts));
      PathJoinEndsWith(Separator(p), parts);
    }
  }

  /** The Unix-like systems use the relative path `usr/bin/sclang`, without a
      leading separator. */
  lemma SclangPathUnix(p: Platform, reg: Registry)
    requires IsUnixLike(p)
    ensures SclangPath(p, reg) == Some("usr/bin/sclang")
    ensures SclangPath(p, reg).value[0] != '/'
  {
    var parts := ["usr", "bin", "sclang"];
    assert SclangExecutable(p) == "sclang";
    assert SclangPath(p, reg) == Some(Join(parts, "/"));
    assert parts[1..] == ["bin", "sclang"];
    JoinPair("bin", "sclang", "/");
    assert Join(parts[1..], "/") == "bin/sclang";
    assert Join(parts, "/") == "usr" + "/" + Join(parts[1..], "/");
    assert Join(parts, "/") == "usr/bin/sclang";
  }

  /** Only Windows consults the registry: the executable inside the install path. */
  lemma SclangPathWindows(reg: Registry)
    ensures SclangPath(Win32, reg) == Some(GetInstallPathWin(reg) + "\\" + "sclang.exe")
  {
    JoinPair(GetInstallPathWin(reg), "sclang.exe", "\\");
  }
}
