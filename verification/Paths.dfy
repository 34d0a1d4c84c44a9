/**
 * The directories the launcher works in. They come from the user's home
 * directory (expanded from "~") and the operating system's path rules,
 * both of which are inputs here.
 */
module Paths {

  datatype Os = Windows | Posix

  /** The machine the launcher runs on: its operating system and the home directory "~" expands to. */
  datatype Host = Host(os: Os, home: string)

  /** The separator os.path.join inserts. */
  function Sep(os: Os): char
  {
    if os == Windows then '\\' else '/'
  }

  /** A character os.path treats as a separator on this system. */
  predicate IsSep(os: Os, c: char)
  {
    c == '/' || (os == Windows && c == '\\')
  }

  /**
   * os.path.join(a, b) for a relative second component without a drive:
   * a separator is inserted unless `a` is empty or already ends with one.
   */
  function Join(os: Os, a: string, b: string): (p: string)
    ensures |a| + |b| <= |p| <= |a| + |b| + 1
    ensures p[..|a|] == a && p[|p| - |b|..] == b
    ensures a != [] && !IsSep(os, a[|a| - 1]) ==> p == a + [Sep(os)] + b
    ensures a == [] || IsSep(os, a[|a| - 1]) ==> p == a + b
  {
    if a == [] || IsSep(os, a[|a| - 1]) then a + b else a + [Sep(os)] + b
  }

  /** `s` without the copies of `c` at its end (Python's str.rstrip with one character). */
  function TrimTrailing(s: string, c: char): (t: string)
    ensures |t| <= |s| && t == s[..|t|]
    ensures t == [] || t[|t| - 1] != c
    ensures forall i :: |t| <= i < |s| ==> s[i] == c
  {
    if s == [] || s[|s| - 1] != c then s else TrimTrailing(s[..|s| - 1], c)
  }

  /**
   * os.path.expanduser("~" + rest) for a `rest` that starts with "/": on POSIX
   * the home directory loses its trailing slashes first; on Windows it is used as is.
   */
  function ExpandHome(host: Host, rest: string): string
  {
    (if host.os == Posix then TrimTrailing(host.home, '/') else host.home) + rest
  }

  /** MINECRAFT_DIR: "~/.minecraft" expanded. */
  function MinecraftDir(host: Host): string
  {
    ExpandHome(host, "/.minecraft")
  }

  /** VERSIONS_DIR: the "versions" directory inside MINECRAFT_DIR. */
  function VersionsDir(host: Host): string
  {
    Join(host.os, MinecraftDir(host), "versions")
  }

  /** The "assets" directory inside MINECRAFT_DIR, passed to the game as --assetsDir. */
  function AssetsDir(host: Host): string
  {
    Join(host.os, MinecraftDir(host), "assets")
  }

  /** JAVA_DIR: "~/.catclient/java" expanded. */
  function JavaDir(host: Host): string
  {
    ExpandHome(host, "/.catclient/java")
  }

  /** The name of the Java executable: "java.exe" on Windows, "java" elsewhere. */
  function JavaExeName(os: Os): string
  {
    if os == Windows then "java.exe" else "java"
  }

  /** The path install_java_if_needed returns: JAVA_DIR/bin/<executable>. */
  function JavaExecutable(host: Host): string
  {
    Join(host.os, Join(host.os, JavaDir(host), "bin"), JavaExeName(host.os))
  }

  /** A string that ends with a fixed non-separator suffix never ends with a separator. */
  lemma EndsWithoutSep(os: Os, prefix: string, suffix: string)
    requires suffix != [] && !IsSep(os, suffix[|suffix| - 1])
    ensures !IsSep(os, (prefix + suffix)[|prefix + suffix| - 1])
  {
    assert (prefix + suffix)[|prefix + suffix| - 1] == suffix[|suffix| - 1];
  }

  /**
   * Every directory the launcher names is its base directory, one separator
   * and the literal component: JAVA_DIR and MINECRAFT_DIR never end with a
   * separator, so os.path.join always inserts one.
   */
  lemma DirectoryLayout(host: Host)
    ensures VersionsDir(host) == MinecraftDir(host) + [Sep(host.os)] + "versions"
    ensures AssetsDir(host) == MinecraftDir(host) + [Sep(host.os)] + "assets"
    ensures JavaExecutable(host)
         == JavaDir(host) + [Sep(host.os)] + "bin" + [Sep(host.os)] + JavaExeName(host.os)
  {
    var base := if host.os == Posix then TrimTrailing(host.home, '/') else host.home;
    EndsWithoutSep(host.os, base, "/.minecraft");
    EndsWithoutSep(host.os, base, "/.catclient/java");
    var bin := JavaDir(host) + [Sep(host.os)] + "bin";
    EndsWithoutSep(host.os, JavaDir(host) + [Sep(host.os)], "bin");
    assert Join(host.os, JavaDir(host), "bin") == bin;
  }

  /** The executable is named "java.exe" exactly when the host runs Windows. */
  lemma JavaExecutableName(host: Host)
    ensures var p := JavaExecutable(host);
            |p| >= 9 && (host.os == Windows <==> p[|p| - 4..] == ".exe")
  {
    DirectoryLayout(host);
    var p := JavaExecutable(host);
    var name := JavaExeName(host.os);
    assert p[|p| - |name|..] == name;
    if host.os == Posix {
      assert p[|p| - 4..] == "java";
    }
  }
}
