/**
 * Launch preparation: the checks that may refuse a launch, the asset index
 * taken from the version id, the launch plan, and the argument vector the
 * game is started with.
 */
module Launch {
  import opened Wrappers
  import opened Paths
  import opened Settings
  import opened Auth

  /** Why a launch was refused before anything was prepared. */
  datatype Refusal =
    | ModeMissing        // the settings have no "mode" key: its lookup fails
    | LoginRequired      // TLauncher mode without a login
    | NoVersionSelected  // the version field is empty

  /**
   * The checks made, in order, before Java is provisioned. None lets the
   * launch go ahead.
   */
  function CheckLaunch(settings: Section, loggedIn: bool, version: string): (r: Option<Refusal>)
    ensures r == Some(ModeMissing) <==> ModeKey !in settings
    ensures r == Some(LoginRequired) <==> ModeKey in settings && settings[ModeKey] == TLauncherMode && !loggedIn
    ensures r == Some(NoVersionSelected)
        <==> ModeKey in settings && (settings[ModeKey] != TLauncherMode || loggedIn) && version == ""
    ensures r.None?
        <==> ModeKey in settings && (settings[ModeKey] != TLauncherMode || loggedIn) && version != ""
  {
    if ModeKey !in settings then Some(ModeMissing)
    else if settings[ModeKey] == TLauncherMode && !loggedIn then Some(LoginRequired)
    else if version == "" then Some(NoVersionSelected)
    else None
  }

  /** Only the exact mode string "TLauncher Mode" asks for a login; the default "offline" never does. */
  lemma OnlyTLauncherModeNeedsLogin(settings: Section, version: string, token: string, javaPath: string)
    requires ModeKey in settings && settings[ModeKey] != TLauncherMode && version != ""
    ensures CheckLaunch(settings, false, version).None?
    ensures CheckLaunch(Defaults(token)[JavaPathKey := javaPath], false, version).None?
  {
  }

  // ---------------------------------------------------------------------
  // Splitting the version id

  /** The number of times `c` occurs in `s`. */
  function Occurrences(s: string, c: char): (n: nat)
    ensures n == 0 <==> c !in s
    ensures n <= |s|
  {
    if s == [] then 0 else (if s[0] == c then 1 else 0) + Occurrences(s[1..], c)
  }

  /** str.split(sep) with a one-character separator: the pieces between the separators, empty ones included. */
  function Split(s: string, sep: char): (parts: seq<string>)
    ensures |parts| == Occurrences(s, sep) + 1
    ensures forall i :: 0 <= i < |parts| ==> sep !in parts[i]
  {
    if s == [] then [""]
    else
      var rest := Split(s[1..], sep);
      if s[0] == sep then [""] + rest else [[s[0]] + rest[0]] + rest[1..]
  }

  /** str.join for a one-character separator: the inverse of Split. */
  function JoinWith(parts: seq<string>, sep: char): string
    requires |parts| >= 1
  {
    if |parts| == 1 then parts[0] else parts[0] + [sep] + JoinWith(parts[1..], sep)
  }

  /** Joining the pieces of a split with the separator gives back the string. */
  lemma {:induction false} SplitJoinRoundTrip(s: string, sep: char)
    ensures JoinWith(Split(s, sep), sep) == s
  {
    if s != [] {
      var rest := Split(s[1..], sep);
      SplitJoinRoundTrip(s[1..], sep);
      if s[0] == sep {
        assert Split(s, sep) == [""] + rest;
        assert ([""] + rest)[1..] == rest;
      } else {
        var parts := [[s[0]] + rest[0]] + rest[1..];
        assert Split(s, sep) == parts;
        if |rest| == 1 {
          assert JoinWith(parts, sep) == [s[0]] + rest[0];
        } else {
          assert parts[1..] == rest[1..];
          assert JoinWith(parts, sep) == [s[0]] + (rest[0] + [sep] + JoinWith(rest[1..], sep));
        }
      }
    }
  }

  /**
   * The --assetIndex value: the second "."-separated component of the version
   * id, None when the id has no "." (the index lookup fails).
   */
  function AssetIndex(version: string): (r: Option<string>)
    ensures r.None? <==> '.' !in version
    ensures r.Some? ==> '.' !in r.value
  {
    var parts := Split(version, '.');
    if |parts| >= 2 then Some(parts[1]) else None
  }

  /** The text before the first `c`, or all of `s` when it has none. */
  function UpTo(s: string, c: char): string
  {
    if s == [] || s[0] == c then [] else [s[0]] + UpTo(s[1..], c)
  }

  /** The text after the first `c`. */
  function After(s: string, c: char): string
    requires c in s
  {
    if s[0] == c then s[1..] else After(s[1..], c)
  }

  /** The first piece of a split is the text before the first separator. */
  lemma {:induction false} SplitHead(s: string, sep: char)
    ensures Split(s, sep)[0] == UpTo(s, sep)
  {
    if s != [] && s[0] != sep {
      SplitHead(s[1..], sep);
    }
  }

  /** The pieces after the first are the split of the text after the first separator. */
  lemma {:induction false} SplitTail(s: string, sep: char)
    requires sep in s
    ensures Split(s, sep)[1..] == Split(After(s, sep), sep)
  {
    if s[0] != sep {
      assert sep in s[1..] by {
        var i :| 0 <= i < |s| && s[i] == sep;
        assert s[1..][i - 1] == sep;
      }
      SplitTail(s[1..], sep);
      var rest := Split(s[1..], sep);
      assert Split(s, sep)[1..] == rest[1..];
    }
  }

  /**
   * The asset index is the text between the first "." of the version id and
   * the next "." (or the end).
   */
  lemma AssetIndexBetweenDots(version: string)
    requires '.' in version
    ensures AssetIndex(version) == Some(UpTo(After(version, '.'), '.'))
  {
    SplitTail(version, '.');
    SplitHead(After(version, '.'), '.');
    assert Split(version, '.')[1] == Split(version, '.')[1..][0];
  }

  /** "1.20.1" gives asset index "20". */
  lemma AssetIndexExample()
    ensures AssetIndex("1.20.1") == Some("20")
    ensures AssetIndex("1.20") == Some("20")
    ensures AssetIndex("b1") == None
  {
    assert Split("", '.') == [""];
    assert Split("1", '.') == ["1"] by {
      SplitStep("1", '.');
      assert ['1'] + "" == "1" && [""][1..] == [];
    }
    assert Split(".1", '.') == ["", "1"] by { SplitStep(".1", '.'); }
    assert Split("0.1", '.') == ["0", "1"] by {
      SplitStep("0.1", '.');
      assert ['0'] + "" == "0" && ["", "1"][1..] == ["1"];
    }
    assert Split("20.1", '.') == ["20", "1"] by {
      SplitStep("20.1", '.');
      assert ['2'] + "0" == "20" && ["0", "1"][1..] == ["1"];
    }
    assert Split(".20.1", '.') == ["", "20", "1"] by { SplitStep(".20.1", '.'); }
    assert Split("1.20.1", '.') == ["1", "20", "1"] by { SplitStep("1.20.1", '.'); }
    assert Split("0", '.') == ["0"] by { SplitStep("0", '.'); }
    assert Split("20", '.') == ["20"] by {
      SplitStep("20", '.');
      assert ['2'] + "0" == "20" && ["0"][1..] == [];
    }
    assert Split(".20", '.') == ["", "20"] by { SplitStep(".20", '.'); }
    assert Split("1.20", '.') == ["1", "20"] by { SplitStep("1.20", '.'); }
  }

  /** One step of Split: the first character either ends a piece or joins the first piece of the rest. */
  lemma SplitStep(s: string, sep: char)
    requires s != []
    ensures Split(s, sep)
         == if s[0] == sep then [""] + Split(s[1..], sep) else [[s[0]] + Split(s[1..], sep)[0]] + Split(s[1..], sep)[1..]
  {
  }

  // ---------------------------------------------------------------------
  // The launch plan and its argument vector

  /** Everything one launch passes to the game, resolved. */
  datatype LaunchPlan = LaunchPlan(
    javaPath: string,
    libraryPath: string,
    classPath: string,
    username: string,
    version: string,
    gameDir: string,
    assetsDir: string,
    assetIndex: string,
    uuid: string,
    accessToken: string)

  const PlaceholderName := "Player"
  const OfflineToken := "0"
  const LibraryPathOption := "-Djava.library.path="
  const MainClass := "net.minecraft.client.main.Main"

  /** The game's options, in the order they are passed. */
  const GameFlags: seq<string> :=
    ["--username", "--version", "--gameDir", "--assetsDir", "--assetIndex", "--uuid", "--accessToken"]

  /**
   * The plan for launching `version` with the given Java executable: the
   * session's identity when logged in, otherwise the placeholder name, the
   * freshly generated uuid and the token "0". None when the version id has
   * no "." to take the asset index from.
   */
  function PlanFor(host: Host, javaPath: string, s: Session, version: string, freshUuid: string): (plan: Option<LaunchPlan>)
    requires s.Consistent()
    ensures plan.None? <==> '.' !in version
    ensures plan.Some? ==>
              && plan.value.javaPath == javaPath
              && plan.value.version == version
              && plan.value.libraryPath == VersionsDir(host)
              && plan.value.classPath == MinecraftDir(host)
              && plan.value.gameDir == MinecraftDir(host)
              && plan.value.assetsDir == AssetsDir(host)
              && AssetIndex(version) == Some(plan.value.assetIndex)
    ensures plan.Some? && s.loggedIn ==>
              && plan.value.username == s.username.value
              && plan.value.uuid == s.uuid.value
              && plan.value.accessToken == s.accessToken.value
    ensures plan.Some? && !s.loggedIn ==>
              && plan.value.username == PlaceholderName
              && plan.value.uuid == freshUuid
              && plan.value.accessToken == OfflineToken
  {
    match AssetIndex(version)
    case None => None
    case Some(index) =>
      Some(LaunchPlan(
        javaPath, VersionsDir(host), MinecraftDir(host),
        if s.loggedIn then s.username.value else PlaceholderName,
        version, MinecraftDir(host), AssetsDir(host), index,
        if s.loggedIn then s.uuid.value else freshUuid,
        if s.loggedIn then s.accessToken.value else OfflineToken))
  }

  /** The values of the game's options, in the order of GameFlags. */
  function GameValues(p: LaunchPlan): seq<string>
  {
    [p.username, p.version, p.gameDir, p.assetsDir, p.assetIndex, p.uuid, p.accessToken]
  }

  /**
   * The command line: the Java executable, the library path, the class path,
   * the main class, then each game option followed by its value.
   */
  function Argv(p: LaunchPlan): (argv: seq<string>)
    ensures |argv| == 5 + 2 * |GameFlags| == 19
    ensures argv[..5] == [p.javaPath, LibraryPathOption + p.libraryPath, "-cp", p.classPath, MainClass]
    ensures forall k :: 0 <= k < |GameFlags| ==> argv[5 + 2 * k] == GameFlags[k] && argv[6 + 2 * k] == GameValues(p)[k]
  {
    [p.javaPath, LibraryPathOption + p.libraryPath, "-cp", p.classPath, MainClass,
     "--username", p.username,
     "--version", p.version,
     "--gameDir", p.gameDir,
     "--assetsDir", p.assetsDir,
     "--assetIndex", p.assetIndex,
     "--uuid", p.uuid,
     "--accessToken", p.accessToken]
  }

  // ---------------------------------------------------------------------
  // Reading a command line back

  /** The value of the first `--flag value` pair with this flag, reading the options two at a time. */
  function OptionValue(options: seq<string>, flag: string): Option<string>
  {
    if |options| < 2 then None
    else if options[0] == flag then Some(options[1])
    else OptionValue(options[2..], flag)
  }

  predicate HasPrefix(s: string, prefix: string)
  {
    |prefix| <= |s| && s[..|prefix|] == prefix
  }

  /**
   * The plan a command line describes: the JVM part read by position, the
   * game options read as `--flag value` pairs.
   */
  function ParseArgv(argv: seq<string>): Option<LaunchPlan>
  {
    if |argv| < 5 || !HasPrefix(argv[1], LibraryPathOption) || argv[2] != "-cp" || argv[4] != MainClass then None
    else
      var options := argv[5..];
      var username := OptionValue(options, "--username");
      var version := OptionValue(options, "--version");
      var gameDir := OptionValue(options, "--gameDir");
      var assetsDir := OptionValue(options, "--assetsDir");
      var assetIndex := OptionValue(options, "--assetIndex");
      var uuid := OptionValue(options, "--uuid");
      var accessToken := OptionValue(options, "--accessToken");
      if username.None? || version.None? || gameDir.None? || assetsDir.None?
         || assetIndex.None? || uuid.None? || accessToken.None?
      then None
      else Some(LaunchPlan(argv[0], argv[1][|LibraryPathOption|..], argv[3],
                           username.value, version.value, gameDir.value, assetsDir.value,
                           assetIndex.value, uuid.value, accessToken.value))
  }

  /** The option at pair position k of `options` is read back by its flag when no earlier pair has that flag. */
  lemma {:induction false} OptionValueAt(options: seq<string>, k: nat, flag: string)
    requires 2 * k + 1 < |options|
    requires options[2 * k] == flag
    requires forall j :: 0 <= j < k ==> options[2 * j] != flag
    ensures OptionValue(options, flag) == Some(options[2 * k + 1])
  {
    if k > 0 {
      var tail := options[2..];
      forall j | 0 <= j < k - 1
        ensures tail[2 * j] != flag
      {
        assert tail[2 * j] == options[2 * (j + 1)];
      }
      OptionValueAt(tail, k - 1, flag);
      assert options[2 * 0] != flag;
    }
  }

  /**
   * The command line carries the whole plan: reading it back, whatever the
   * values (even a value that looks like a flag), gives the plan it was built from.
   */
  lemma ArgvRoundTrip(p: LaunchPlan)
    ensures ParseArgv(Argv(p)) == Some(p)
  {
    var argv := Argv(p);
    var options := argv[5..];
    assert |options| == 14;
    forall k | 0 <= k < 7
      ensures OptionValue(options, GameFlags[k]) == Some(GameValues(p)[k])
    {
      assert options[2 * k] == GameFlags[k];
      forall j | 0 <= j < k ensures options[2 * j] != GameFlags[k] {
        assert options[2 * j] == GameFlags[j];
      }
      OptionValueAt(options, k, GameFlags[k]);
    }
    assert OptionValue(options, "--username") == Some(p.username) by { assert GameFlags[0] == "--username"; }
    assert OptionValue(options, "--version") == Some(p.version) by { assert GameFlags[1] == "--version"; }
    assert OptionValue(options, "--gameDir") == Some(p.gameDir) by { assert GameFlags[2] == "--gameDir"; }
    assert OptionValue(options, "--assetsDir") == Some(p.assetsDir) by { assert GameFlags[3] == "--assetsDir"; }
    assert OptionValue(options, "--assetIndex") == Some(p.assetIndex) by { assert GameFlags[4] == "--assetIndex"; }
    assert OptionValue(options, "--uuid") == Some(p.uuid) by { assert GameFlags[5] == "--uuid"; }
    assert OptionValue(options, "--accessToken") == Some(p.accessToken) by { assert GameFlags[6] == "--accessToken"; }
    assert HasPrefix(argv[1], LibraryPathOption);
    assert argv[1][|LibraryPathOption|..] == p.libraryPath;
  }

  /** The complete command line of a launch, position by position. */
  lemma LaunchCommandLine(host: Host, javaPath: string, s: Session, version: string, freshUuid: string)
    requires s.Consistent() && '.' in version
    ensures var plan := PlanFor(host, javaPath, s, version, freshUuid).value;
            var name := if s.loggedIn then s.username.value else PlaceholderName;
            var id := if s.loggedIn then s.uuid.value else freshUuid;
            var token := if s.loggedIn then s.accessToken.value else OfflineToken;
            Argv(plan) ==
              [javaPath, LibraryPathOption + VersionsDir(host), "-cp", MinecraftDir(host), MainClass,
               "--username", name, "--version", version,
               "--gameDir", MinecraftDir(host), "--assetsDir", AssetsDir(host),
               "--assetIndex", AssetIndex(version).value,
               "--uuid", id, "--accessToken", token]
  {
  }
}
