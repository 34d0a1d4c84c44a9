/**
 * The launcher object: the settings it keeps (mirrored to its configuration
 * file on every change), its login session and its version catalog, and the
 * operations that update them. Network replies, file existence, the host and
 * freshly generated uuids are parameters.
 */
module App {
  import opened Wrappers
  import opened Paths
  import opened Settings
  import opened Catalog
  import opened Auth
  import opened Launch

  /** The result of pressing PLAY. */
  datatype LaunchOutcome =
    | Refused(why: Refusal)              // a check failed; nothing was prepared
    | MalformedVersion(javaPath: string) // Java was recorded, then the asset index lookup failed
    | Spawned(argv: seq<string>, cwd: string)

  class Launcher {
    var settings: Section
    var loggedIn: bool
    var accessToken: Option<string>
    var uuid: Option<string>
    var username: Option<string>
    var versions: map<string, string>

    /**
     * The client token and the mode are always present, and a logged-in
     * launcher knows its whole identity.
     */
    ghost predicate Valid()
      reads this
    {
      ClientTokenKey in settings && ModeKey in settings && Session().Consistent()
    }

    /** The session fields as one value. */
    function Session(): Session
      reads this
    {
      Auth.Session(loggedIn, accessToken, uuid, username)
    }

    /**
     * The fields as they are before the settings are loaded. This state is not
     * yet Valid(): Open is the start-up that loads the settings.
     */
    constructor ()
      ensures Session() == SignedOut
      ensures settings == map[] && versions == map[]
    {
      settings := map[];
      loggedIn := false;
      accessToken := None;
      uuid := None;
      username := None;
      versions := map[];
    }

    /**
     * Start-up: load the settings (or create them), fetch the catalog, then
     * build the window, whose settings page reads the mode. None when
     * start-up stops with an exception: the settings file cannot be created,
     * an existing file has no [settings] section, or the section has no mode.
     */
    static method Open(fileExists: bool, gameDirExists: bool, stored: Option<Section>, freshToken: string,
                       manifest: Option<seq<VersionEntry>>)
      returns (r: Option<Launcher>)
      ensures r.None? <==> StartUp(fileExists, gameDirExists, stored, freshToken).None?
      ensures r.Some? ==>
                && fresh(r.value)
                && r.value.Valid()
                && r.value.settings == StartUp(fileExists, gameDirExists, stored, freshToken).value
                && r.value.Session() == SignedOut
                && r.value.versions == Refresh(manifest)
    {
      var app := new Launcher();
      var loaded, wrote := app.LoadSettings(fileExists, gameDirExists, stored, freshToken);
      if !loaded {
        return None;
      }
      app.FetchVersions(manifest);
      if ModeKey !in app.settings {
        return None;
      }
      r := Some(app);
    }

    /**
     * Reads the settings file, or creates it with defaults, then adds a
     * client token if the file had none. `wrote` tells whether the file was
     * written. Creating the file fails when the game directory is missing.
     */
    method LoadSettings(fileExists: bool, gameDirExists: bool, stored: Option<Section>, freshToken: string)
      returns (loaded: bool, wrote: bool)
      modifies this
      ensures loaded <==> (fileExists || gameDirExists) && Bootstrap(fileExists, stored, freshToken).Some?
      ensures loaded ==> settings == Bootstrap(fileExists, stored, freshToken).value && ClientTokenKey in settings
      ensures wrote == (loaded && BootstrapWrites(fileExists, stored))
      ensures Session() == old(Session()) && versions == old(versions)
    {
      wrote := false;
      if fileExists {
        if stored.None? {
          return false, false;
        }
        settings := stored.value;
      } else {
        if !gameDirExists {
          return false, false;
        }
        settings := Defaults(freshToken);
        wrote := true;
      }
      if ClientTokenKey !in settings {
        settings := settings[ClientTokenKey := freshToken];
        wrote := true;
      }
      loaded := true;
    }

    /**
     * Replaces the catalog with the index of the decoded manifest, or with the
     * empty catalog when the fetch failed; the previous catalog never survives.
     */
    method FetchVersions(manifest: Option<seq<VersionEntry>>)
      modifies this
      ensures versions == Refresh(manifest)
      ensures manifest.None? ==> versions == map[]
      ensures settings == old(settings) && Session() == old(Session())
    {
      match manifest {
        case Some(entries) =>
          versions := VersionIndex(entries);
        case None =>
          versions := map[];
      }
    }

    /** Records the mode chosen in the settings; nothing else changes, the session included. */
    method UpdateMode(mode: string)
      requires Valid()
      modifies this
      ensures Valid()
      ensures settings == old(settings)[ModeKey := mode]
      ensures Session() == old(Session()) && versions == old(versions)
    {
      settings := settings[ModeKey := mode];
    }

    /**
     * One login: the payload carries the entered credentials and the stored
     * client token, and the reply decides the new session.
     */
    method Login(user: string, password: string, reply: AuthReply) returns (payload: AuthPayload)
      requires Valid()
      modifies this
      ensures Valid()
      ensures payload == AuthPayload(user, password, settings[ClientTokenKey], true)
      ensures Session() == ApplyReply(old(Session()), reply)
      ensures settings == old(settings) && versions == old(versions)
    {
      payload := AuthPayload(user, password, settings[ClientTokenKey], true);
      match reply {
        case HttpFailure(_, body) =>
          if body.Some? {
            loggedIn := false;
          }
        case OtherFailure =>
          loggedIn := false;
        case Decoded(token, profile) =>
          if token.None? {
            loggedIn := false;
            return;
          }
          accessToken := token;
          if profile.None? || profile.value.id.None? {
            loggedIn := false;
            return;
          }
          uuid := profile.value.id;
          if profile.value.name.None? {
            loggedIn := false;
            return;
          }
          username := profile.value.name;
          loggedIn := true;
      }
    }

    /**
     * Returns the Java executable's path and records it in the settings.
     * Creating the directory and downloading Java change neither.
     */
    method InstallJavaIfNeeded(host: Host) returns (javaPath: string)
      requires Valid()
      modifies this
      ensures Valid()
      ensures javaPath == JavaExecutable(host)
      ensures settings == old(settings)[JavaPathKey := javaPath]
      ensures Session() == old(Session()) && versions == old(versions)
    {
      javaPath := JavaExecutable(host);
      settings := settings[JavaPathKey := javaPath];
    }

    /**
     * PLAY: the checks in order, then Java, then the command line. A refused
     * launch changes nothing; otherwise the Java path is recorded, and the
     * command line is that of the plan for the current session. Start-up
     * guarantees a mode, so the mode lookup itself never fails here.
     */
    method PrepareAndLaunch(host: Host, version: string, freshUuid: string) returns (outcome: LaunchOutcome)
      requires Valid()
      modifies this
      ensures Valid()
      ensures Session() == old(Session()) && versions == old(versions)
      ensures outcome != Refused(ModeMissing)
      ensures match CheckLaunch(old(settings), loggedIn, version)
              case Some(why) =>
                outcome == Refused(why) && settings == old(settings)
              case None =>
                && settings == old(settings)[JavaPathKey := JavaExecutable(host)]
                && outcome == match PlanFor(host, JavaExecutable(host), Session(), version, freshUuid)
                              case None => MalformedVersion(JavaExecutable(host))
                              case Some(plan) => Spawned(Argv(plan), MinecraftDir(host))
    {
      if settings[ModeKey] == TLauncherMode && !loggedIn {
        return Refused(LoginRequired);
      }
      if version == "" {
        return Refused(NoVersionSelected);
      }
      var javaPath := InstallJavaIfNeeded(host);
      var plan := PlanFor(host, javaPath, Session(), version, freshUuid);
      if plan.None? {
        return MalformedVersion(javaPath);
      }
      outcome := Spawned(Argv(plan.value), MinecraftDir(host));
    }
  }

  /** Two logins in a row send the same client token, the one loaded at start-up. */
  method RepeatedLoginsShareClientToken(app: Launcher, user: string, password: string, first: AuthReply, second: AuthReply)
    returns (p1: AuthPayload, p2: AuthPayload)
    requires app.Valid()
    modifies app
    ensures p1.clientToken == p2.clientToken == old(app.settings[ClientTokenKey])
  {
    p1 := app.Login(user, password, first);
    p2 := app.Login(user, password, second);
  }

  /** Provisioning Java twice gives the same path and leaves the settings as the first call left them. */
  method JavaProvisioningIsIdempotent(app: Launcher, host: Host) returns (p1: string, p2: string)
    requires app.Valid()
    modifies app
    ensures p1 == p2 == JavaExecutable(host)
    ensures app.settings == old(app.settings)[JavaPathKey := p1]
  {
    p1 := app.InstallJavaIfNeeded(host);
    p2 := app.InstallJavaIfNeeded(host);
  }

  /** In TLauncher mode a launch before any login is refused, whatever the version, and changes nothing more. */
  method LaunchBeforeLoginIsRefused(app: Launcher, host: Host, version: string, freshUuid: string)
    returns (outcome: LaunchOutcome)
    requires app.Valid() && !app.loggedIn
    modifies app
    ensures outcome == Refused(LoginRequired)
    ensures app.settings == old(app.settings)[ModeKey := TLauncherMode]
    ensures app.Session() == old(app.Session())
  {
    app.UpdateMode(TLauncherMode);
    outcome := app.PrepareAndLaunch(host, version, freshUuid);
  }
}
