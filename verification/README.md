# CatClient HDRV0 launcher core, in Dafny

CatClient HDRV0 is a Minecraft launcher with a Tk window. Under the window code
sits a small amount of decision logic, and that logic is what this project models:

- **Settings start-up.** The `[settings]` section of `catclient_config.ini` holds
  `mode`, `java_path` and `client_token`. It is created with defaults when the
  file is missing. When the file exists but has no client token, one is added.
  An existing token is never replaced.
- **Version catalog.** The version manifest becomes an id → url map, rebuilt
  from nothing on every fetch. A later entry with the same id wins, and any
  failure leaves the map empty.
- **Login.** The request carries the entered credentials, the stored client
  token and `requestUser = true`. The reply's `accessToken`,
  `selectedProfile.id` and `selectedProfile.name` are assigned in that order,
  and the first missing key stops the assignments and logs the launcher out.
- **Launch preparation.** First come the checks: the mode lookup, then the
  TLauncher-mode login check, then the empty-version check. Then the Java
  path is recorded in the settings. Last, the 19-element command line is built.
  It uses the session's identity, or the offline fallback `Player` / a fresh
  uuid / `0`.

Files:

- `Wrappers.dfy`: `Option`.
- `Paths.dfy`: the launcher's directories. These are `~/.minecraft`, its
  `versions` and `assets` sub-directories, and `~/.catclient/java/bin/java[.exe]`.
  They are built from the host's home directory and operating system, both of
  which are inputs, with `os.path.join` and `os.path.expanduser` written out.
- `Settings.dfy`: the settings keys, the defaults and the start-up function.
- `Catalog.dfy`: the manifest index.
- `Auth.dfy`: the session value and the way a login reply updates it.
- `Launch.dfy`: the launch checks, `str.split('.')` and the asset index, the
  launch plan, the argument vector, and a reader that parses an argument
  vector back into its plan.
- `Launcher.dfy`: class `App.Launcher`. Its fields are the ones the source
  updates in place (`settings`, `loggedIn`, `accessToken`, `uuid`, `username`,
  `versions`). Its methods have `modifies` clauses, and each `ensures` ties
  the new state to the pure functions above.

Inputs of the model stand for what the program reads from outside:

- whether the settings file exists, and its parsed `[settings]` section;
- whether the game directory `~/.minecraft` exists;
- the decoded manifest (`None` for any download, decode or key failure);
- the decoded login reply, in which an HTTP error's body is absent when it
  cannot be read or decoded;
- the host's operating system and home directory;
- the version string typed or selected;
- the uuids that `uuid.uuid4()` would generate.

Every change to `settings` is written to the settings file at once, so in the
model the file's content is always `settings`.

Behaviours of the code worth noting:

- A failed manifest fetch empties the catalog. It does not keep the previous one.
- A launch does not check the version against the catalog. Any non-empty
  string passes, and a string without `.` fails later, at the asset index,
  after Java has been recorded.
- Changing the mode does not clear the session.
- A reply missing a key can overwrite some session fields before the launcher
  is logged out.
- Only the exact mode string `TLauncher Mode` needs a login. The default
  `offline` and `Offline Mode` both launch without one.
- An HTTP error whose body cannot be read or decoded raises inside the
  HTTP-error handler. The login then ends without resetting the logged-in
  flag, so a logged-in launcher stays logged in.
- On a first run where `~/.minecraft` does not exist, start-up fails: the
  settings file is opened for writing in a directory that nothing creates.
- A settings file without `mode` passes the client-token step but stops
  start-up when the settings page reads the mode. A running launcher
  therefore always has a mode, and the mode lookup in the launch checks
  never fails in practice.

## Model

| member | source | states |
|---|---|---|
| Paths.Join | Cat4k.py:242 | `os.path.join(a, b)`: the result is `a`, then at most one separator, then `b`. It is `a`, a separator and `b` when `a` is non-empty and does not end with a separator, and plain `a + b` otherwise |
| Paths.DirectoryLayout | Cat4k.py:14-16 | VERSIONS_DIR, the assets directory and JAVA_DIR/bin/java are each their base directory, one separator, then the literal component, because the expanded base never ends with a separator |
| Paths.JavaExecutableName | Cat4k.py:242 | the Java executable ends in `.exe` exactly when the host runs Windows |
| Settings.Defaults | Cat4k.py:51 | a new settings section has exactly the keys mode `offline`, java_path `""` and client_token set to the fresh token |
| Settings.Bootstrap | Cat4k.py:48-59 | a missing file gives the defaults. A file without a `[settings]` section stops start-up. Otherwise every stored key keeps its value, and client_token is added, set to the fresh token, only when it was missing |
| Settings.BootstrapIdempotent | Cat4k.py:48-59 | starting again from the file start-up left behind yields the same settings and no write, whatever fresh token is offered |
| Settings.ClientTokenKept | Cat4k.py:55-59 | a stored client token is kept unchanged and start-up writes nothing |
| Settings.StartUp | Cat4k.py:47-65 | start-up fails exactly when a missing file cannot be created because the game directory is missing, when Bootstrap fails, or when the resulting section has no mode. Otherwise it gives Bootstrap's section, which has both a mode and a client token |
| Settings.FirstRunNeedsGameDir | Cat4k.py:50-53 | a first run starts from the defaults when the game directory exists, and fails otherwise |
| Settings.MissingModeStopsStartUp | Cat4k.py:165 | a stored section without mode passes Bootstrap but stops start-up |
| Catalog.VersionIndex | Cat4k.py:72 | the map's keys are exactly the manifest's ids, and each id maps to the url of its last entry |
| Catalog.Refresh | Cat4k.py:67-75 | a failed fetch gives the empty catalog. A successful one gives exactly the manifest's ids, independent of the previous catalog |
| Catalog.ResolveLastEntry | Cat4k.py:72 | an id resolves to the url of the last manifest entry that has it |
| Catalog.TwoVersionManifest | Cat4k.py:72 | the two-entry manifest `1.20.1`→`http://x`, `1.19.4`→`http://y` resolves each id to its own url |
| Auth.ApplyReply | Cat4k.py:216-228 | an HTTP error with an unreadable body leaves the session as it was. Otherwise the launcher is logged in after the reply exactly when accessToken, selectedProfile.id and selectedProfile.name are all present. Each field is overwritten exactly when every earlier lookup succeeded, and a consistent session stays consistent |
| Auth.FailureLogsOut | Cat4k.py:221-228 | an HTTP error with a readable body, or any other failure, logs out, even a logged-in session, and leaves the token, uuid and name as they were |
| Auth.UnreadableErrorKeepsSession | Cat4k.py:221-222 | an HTTP error whose body cannot be read leaves the whole session unchanged, the logged-in flag included |
| Auth.SuccessAdoptsIdentity | Cat4k.py:216-219 | a complete reply gives a logged-in session holding exactly the reply's token, id and name |
| Auth.PartialReplyOverwritesToken | Cat4k.py:216-217 | a reply with a token but no selectedProfile replaces the stored token and logs out, keeping the old uuid and name |
| Launch.CheckLaunch | Cat4k.py:250-257 | the launch is refused with ModeMissing when the settings have no mode (the lookup fails), else with LoginRequired exactly when the mode is `TLauncher Mode` and not logged in, else with NoVersionSelected exactly when the version is empty; it proceeds in every other case |
| Launch.OnlyTLauncherModeNeedsLogin | Cat4k.py:250 | any mode other than `TLauncher Mode`, including the default `offline` with any token and Java path, launches a non-empty version without a login |
| Launch.Split | Cat4k.py:271 | `str.split('.')`: one more piece than there are separators, and no piece contains a separator |
| Launch.SplitJoinRoundTrip | Cat4k.py:271 | joining the pieces of a split with the separator gives back the original string |
| Launch.AssetIndex | Cat4k.py:271 | the index lookup `[1]` fails exactly when the version has no `.`, and the asset index never contains a `.` |
| Launch.AssetIndexBetweenDots | Cat4k.py:271 | the asset index is the text between the version's first `.` and the next `.` or the end |
| Launch.AssetIndexExample | Cat4k.py:271 | `1.20.1` and `1.20` give asset index `20`, and `b1` gives none |
| Launch.PlanFor | Cat4k.py:262-274 | the plan exists exactly when the version has a `.`. It uses the given Java path and the fixed directories. The identity is the session's when logged in, else `Player`, the fresh uuid and token `0` |
| Launch.Argv | Cat4k.py:262-274 | 19 arguments: the Java path, `-Djava.library.path=` plus the library path, `-cp`, the class path, the main class, then the seven game flags in their fixed order, each followed by its value |
| Launch.ArgvRoundTrip | Cat4k.py:262-274 | reading the command line back, with the JVM part by position and the game options as `--flag value` pairs, gives the plan it was built from, whatever the values |
| Launch.LaunchCommandLine | Cat4k.py:262-274 | the complete command line of a launch, element by element, for a logged-in and a logged-out session |
| App.Launcher.constructor | Cat4k.py:40-44 | a new launcher is signed out, with no token, uuid or name, and an empty catalog; its settings are not loaded yet |
| App.Launcher.Open | Cat4k.py:33-65 | start-up fails exactly when StartUp does. Otherwise the settings are StartUp's section, the session is signed out and the catalog is the fetched one |
| App.Launcher.LoadSettings | Cat4k.py:47-59 | loading succeeds exactly when the file exists or its directory does, and Bootstrap succeeds. The settings then equal Bootstrap's result, and the file is written exactly when Bootstrap says so |
| App.Launcher.FetchVersions | Cat4k.py:67-75 | the catalog becomes Refresh(manifest), which is empty on failure; nothing else changes |
| App.Launcher.UpdateMode | Cat4k.py:182-187 | only the mode setting changes; the session is kept |
| App.Launcher.Login | Cat4k.py:193-228 | the payload is the entered username and password, the stored client token and requestUser true. The new session is ApplyReply of the old one, and the settings and catalog are unchanged |
| App.Launcher.InstallJavaIfNeeded | Cat4k.py:235-246 | returns JAVA_DIR/bin/java (java.exe on Windows) and records it as java_path; nothing else changes |
| App.Launcher.PrepareAndLaunch | Cat4k.py:248-274 | the outcome is never ModeMissing, because the launcher always has a mode. A refused launch changes nothing and records no Java path. Otherwise java_path is recorded. The outcome is MalformedVersion when the version has no `.`, else the spawn of Argv(PlanFor(...)) in MINECRAFT_DIR |
| App.RepeatedLoginsShareClientToken | Cat4k.py:197-201 | two logins in a row send the same client token, the one stored before them |
| App.JavaProvisioningIsIdempotent | Cat4k.py:242-246 | provisioning twice returns the same path and leaves java_path as the first call set it |
| App.LaunchBeforeLoginIsRefused | Cat4k.py:250-252 | after choosing `TLauncher Mode` without a login, PLAY is refused with LoginRequired whatever the version, and the session is untouched |

## Left out

- The Tk window, its pages, widgets and theme (`init_ui`, `show_page`, the
  `create_*_page` methods). The version and mode combobox values are
  parameters of the methods.
- Network I/O: the manifest download, the login POST and its headers. Their
  decoded results are inputs (`Option<seq<VersionEntry>>`, `AuthReply`).
- JSON decoding. A JSON `null` or a non-string value for `accessToken`,
  `selectedProfile.id` or `selectedProfile.name` is not modelled, because
  every present field is a string in the model.
- Writing the settings file, `os.makedirs` and `os.path.exists`. The file
  always mirrors `settings`. Only one write failure is modelled: creating
  the file in a missing game directory. Other write errors (permissions,
  a full disk) are not modelled. Whether the file exists is an input. Whether the
  Java directory exists changes nothing the launcher returns or stores.
- configparser's own behaviour: lower-casing option names, the `DEFAULT`
  section, and parse errors of a malformed file. The model receives the
  parsed `[settings]` section, or `None` when it is absent.
- At start-up the settings page reads `mode` and, when it is present,
  writes it back unchanged. That write is window code and is not modelled.
  The read is modelled, because it stops start-up when `mode` is missing.
- The Java download and unpacking: the source has only a placeholder there.
- `install_modpack`: it only shows a message.
- `subprocess.Popen` and the message boxes. A launch ends at the argument
  vector and working directory it would spawn with.
- `uuid.uuid4()`: fresh uuids and tokens are parameters.
- Dictionary order: the catalog is a Dafny map. The insertion order, which
  only the version combobox shows, is not modelled.
- Paths.Join: Windows drive-relative joins (`C:` + `bin`) and a second
  component that is absolute are not modelled. Every join in the launcher
  has a relative literal as its second component and a base ending in a
  plain character.
