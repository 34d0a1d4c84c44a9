/**
 * The [settings] section of the launcher's configuration file, as a
 * key/value map, and how it is set up when the launcher starts.
 */
module Settings {
  import opened Wrappers

  type Section = map<string, string>

  const ModeKey := "mode"
  const JavaPathKey := "java_path"
  const ClientTokenKey := "client_token"

  /** The mode a new settings file starts in. */
  const OfflineMode := "offline"

  /** The only mode that requires a login before launching. */
  const TLauncherMode := "TLauncher Mode"

  /** The section written when no settings file exists yet. */
  function Defaults(freshToken: string): (s: Section)
    ensures s.Keys == {ModeKey, JavaPathKey, ClientTokenKey}
    ensures s[ModeKey] == OfflineMode && s[JavaPathKey] == "" && s[ClientTokenKey] == freshToken
  {
    map[ModeKey := OfflineMode, JavaPathKey := "", ClientTokenKey := freshToken]
  }

  /**
   * The settings after start-up. `stored` is the [settings] section of an
   * existing file, None when the file has no such section: then looking the
   * section up fails and start-up stops (None).
   */
  function Bootstrap(fileExists: bool, stored: Option<Section>, freshToken: string): (r: Option<Section>)
    ensures r.None? <==> fileExists && stored.None?
    ensures r.Some? ==> ClientTokenKey in r.value
    ensures !fileExists ==> r == Some(Defaults(freshToken))
    ensures fileExists && stored.Some? ==>
              && r.Some?
              && r.value.Keys == stored.value.Keys + {ClientTokenKey}
              && (forall k :: k in stored.value ==> r.value[k] == stored.value[k])
              && (ClientTokenKey !in stored.value ==> r.value[ClientTokenKey] == freshToken)
  {
    if !fileExists then Some(Defaults(freshToken))
    else if stored.None? then None
    else if ClientTokenKey in stored.value then stored
    else Some(stored.value[ClientTokenKey := freshToken])
  }

  /**
   * Start-up as a whole. On top of Bootstrap it fails in two more ways: a
   * settings file that has to be created cannot be opened when the game
   * directory that should hold it does not exist (nothing creates it), and
   * the settings page, built during start-up, looks "mode" up.
   */
  function StartUp(fileExists: bool, gameDirExists: bool, stored: Option<Section>, freshToken: string): (r: Option<Section>)
    ensures r.None? <==>
              || (!fileExists && !gameDirExists)
              || Bootstrap(fileExists, stored, freshToken).None?
              || ModeKey !in Bootstrap(fileExists, stored, freshToken).value
    ensures r.Some? ==> r == Bootstrap(fileExists, stored, freshToken) && ModeKey in r.value && ClientTokenKey in r.value
  {
    if !fileExists && !gameDirExists then None
    else
      match Bootstrap(fileExists, stored, freshToken)
      case None => None
      case Some(section) => if ModeKey in section then Some(section) else None
  }

  /**
   * A first run succeeds exactly when the game directory already exists, and
   * then starts from the defaults.
   */
  lemma FirstRunNeedsGameDir(gameDirExists: bool, stored: Option<Section>, freshToken: string)
    ensures StartUp(false, gameDirExists, stored, freshToken)
         == if gameDirExists then Some(Defaults(freshToken)) else None
  {
  }

  /** A stored section without "mode" stops start-up, even though Bootstrap accepts it. */
  lemma MissingModeStopsStartUp(stored: Section, freshToken: string)
    requires ModeKey !in stored
    ensures Bootstrap(true, Some(stored), freshToken).Some?
    ensures StartUp(true, true, Some(stored), freshToken).None?
  {
  }

  /** Whether start-up writes the settings file: when it creates it, or when it adds a client token. */
  function BootstrapWrites(fileExists: bool, stored: Option<Section>): (w: bool)
  {
    !fileExists || (stored.Some? && ClientTokenKey !in stored.value)
  }

  /**
   * Starting again from the file the first start-up left behind changes
   * nothing and writes nothing, whatever fresh token is offered: the client
   * token is generated once and then reused.
   */
  lemma {:induction false} BootstrapIdempotent(fileExists: bool, stored: Option<Section>, token1: string, token2: string)
    requires Bootstrap(fileExists, stored, token1).Some?
    ensures var first := Bootstrap(fileExists, stored, token1);
            && Bootstrap(true, first, token2) == first
            && !BootstrapWrites(true, first)
  {
    var first := Bootstrap(fileExists, stored, token1);
    assert ClientTokenKey in first.value;
  }

  /** A client token already in the file survives start-up unchanged. */
  lemma ClientTokenKept(stored: Section, freshToken: string)
    requires ClientTokenKey in stored
    ensures Bootstrap(true, Some(stored), freshToken) == Some(stored)
    ensures !BootstrapWrites(true, Some(stored))
  {
  }
}
