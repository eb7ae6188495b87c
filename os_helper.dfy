/**
 * `OSHelper`: classifies the operating system and the processor
 * architecture, and builds the Java and game directory paths. System
 * properties and environment variables are parameters; the class's static
 * fields are the `OsHelperStatics` object.
 */
module OsHelper {
  import opened Wrappers
  import opened Java

  /** The operating systems the launcher distinguishes. */
  datatype OS = WINDOWS | LINUX | OSX | UNDEFINED

  /** The `os.arch` values taken for a 32-bit and for a 64-bit Java. */
  const Arch32: seq<string> := ["x86", "i386", "i686"]
  const Arch64: seq<string> := ["x64", "ia64", "amd64"]

  // ---------------------------------------------------------------------------
  // Operating system
  // ---------------------------------------------------------------------------

  /** The constructor's normalisation of `os.name`: first match wins, else unchanged. */
  function NormalizeOsName(osName: string): (r: string)
    ensures r == osName || r in ["windows", "linux", "osx"]
    ensures r != osName ==> !Contains(r, "Win") && !Contains(r, "Linux") && !Contains(r, "Mac")
  {
    NormalizedNamesLackKeys();
    if Contains(osName, "Win") then "windows"
    else if Contains(osName, "Linux") then "linux"
    else if Contains(osName, "Mac") then "osx"
    else osName
  }

  /** `getOSasEnum` on the stored name: by the substrings "Win", "Linux", "Mac", in that order. */
  function OsAsEnum(operatingSystem: string): (r: OS)
    ensures r == UNDEFINED <==> NormalizeOsName(operatingSystem) == operatingSystem
  {
    NormalizedNamesLackKeys();
    if Contains(operatingSystem, "Win") then WINDOWS
    else if Contains(operatingSystem, "Linux") then LINUX
    else if Contains(operatingSystem, "Mac") then OSX
    else UNDEFINED
  }

  /** Which of the three values normalisation picks, stated by what `os.name` contains. */
  lemma NormalizeCases(osName: string)
    ensures Contains(osName, "Win") ==> NormalizeOsName(osName) == "windows"
    ensures !Contains(osName, "Win") && Contains(osName, "Linux") ==> NormalizeOsName(osName) == "linux"
    ensures !Contains(osName, "Win") && !Contains(osName, "Linux") && Contains(osName, "Mac")
            ==> NormalizeOsName(osName) == "osx"
    ensures OsAsEnum(osName) == UNDEFINED ==> NormalizeOsName(osName) == osName
  {
  }

  /** None of the normalised names contains a capitalised key. */
  lemma NormalizedNamesLackKeys()
    ensures !Contains("windows", "Win") && !Contains("windows", "Linux") && !Contains("windows", "Mac")
    ensures !Contains("linux", "Win") && !Contains("linux", "Linux") && !Contains("linux", "Mac")
    ensures !Contains("osx", "Win") && !Contains("osx", "Linux") && !Contains("osx", "Mac")
  {
    NotContainsKey("windows", "Win");
    NotContainsKey("windows", "Linux");
    NotContainsKey("windows", "Mac");
    NotContainsKey("linux", "Win");
    NotContainsKey("linux", "Linux");
    NotContainsKey("linux", "Mac");
    NotContainsKey("osx", "Win");
    NotContainsKey("osx", "Linux");
    NotContainsKey("osx", "Mac");
  }

  /** A text in which the first character of `key` never occurs does not contain `key`. */
  lemma {:induction false} NotContainsKey(s: string, key: string)
    requires |key| > 0
    requires key[0] !in s
    ensures !Contains(s, key)
  {
    if |s| > 0 {
      assert s == [s[0]] + s[1..];
      NotContainsKey(s[1..], key);
      if |key| <= |s| {
        assert s[..|key|][0] == s[0];
      }
    }
  }

  /**
   * `getOSasEnum` never recognises the system: the constructor has replaced
   * every name it would match by a lower-case name it does not match.
   */
  lemma OsAsEnumAlwaysUndefined(osName: string)
    ensures OsAsEnum(NormalizeOsName(osName)) == UNDEFINED
  {
    NormalizedNamesLackKeys();
  }

  /** Java's `toLowerCase` on the letters A to Z. */
  function LowerChar(c: char): char
  {
    if 'A' <= c <= 'Z' then (c as int - 'A' as int + 'a' as int) as char else c
  }

  /** `getOSasString`: the stored name in lower case. */
  function OsAsString(operatingSystem: string): (r: string)
    ensures |r| == |operatingSystem|
    ensures forall i :: 0 <= i < |r| ==> r[i] == LowerChar(operatingSystem[i])
  {
    if operatingSystem == [] then [] else [LowerChar(operatingSystem[0])] + OsAsString(operatingSystem[1..])
  }

  /** Lower-casing twice is lower-casing once. */
  lemma {:induction false} OsAsStringIdempotent(s: string)
    ensures OsAsString(OsAsString(s)) == OsAsString(s)
  {
    if s != [] {
      OsAsStringIdempotent(s[1..]);
      assert OsAsString(s)[1..] == OsAsString(s[1..]);
    }
  }

  /** Text with no capital letter is its own lower case. */
  lemma {:induction false} OsAsStringOfLowerCase(s: string)
    requires forall i :: 0 <= i < |s| ==> !('A' <= s[i] <= 'Z')
    ensures OsAsString(s) == s
  {
    if s != [] {
      OsAsStringOfLowerCase(s[1..]);
      assert [s[0]] + s[1..] == s;
    }
  }

  /**
   * On a recognised system `getOSasString` returns the normalised name
   * itself; otherwise it is `os.name` in lower case.
   */
  lemma OsAsStringOfNormalized(osName: string)
    ensures NormalizeOsName(osName) in ["windows", "linux", "osx"]
            ==> OsAsString(NormalizeOsName(osName)) == NormalizeOsName(osName)
    ensures OsAsEnum(osName) == UNDEFINED ==> OsAsString(NormalizeOsName(osName)) == OsAsString(osName)
  {
    var n := NormalizeOsName(osName);
    if n in ["windows", "linux", "osx"] {
      OsAsStringOfLowerCase(n);
    }
  }

  // ---------------------------------------------------------------------------
  // Architecture
  // ---------------------------------------------------------------------------

  /**
   * `getOSArch`: "64" when either `PROCESSOR_ARCHITECTURE` or
   * `PROCESSOR_ARCHITEW6432` ends with "64", else "32".
   */
  function OsArch(arch: Option<string>, wow64Arch: Option<string>): (r: string)
    ensures r == "32" || r == "64"
    ensures r == "64" <==> (arch.Some? && EndsWith(arch.value, "64"))
                           || (wow64Arch.Some? && EndsWith(wow64Arch.value, "64"))
  {
    if arch.Some? then
      if EndsWith(arch.value, "64") || (wow64Arch.Some? && EndsWith(wow64Arch.value, "64")) then "64" else "32"
    else
      if wow64Arch.Some? && EndsWith(wow64Arch.value, "64") then "64" else "32"
  }

  /** No `os.arch` value is taken for both widths. */
  lemma ArchListsDisjoint(arch: string)
    ensures !(arch in Arch32 && arch in Arch64)
  {
  }

  // ---------------------------------------------------------------------------
  // Paths
  // ---------------------------------------------------------------------------

  /** A Java object a string may be compared with by `equals`. */
  datatype JavaObject = StringObject(text: string) | EnumObject(os: OS)

  /** `s.equals(o)` for a String `s`: true only for a String with the same text. */
  predicate StringEquals(s: string, o: JavaObject)
  {
    o.StringObject? && o.text == s
  }

  /**
   * `getJavaPath`: `java.home`, then "bin", then the program; the Windows
   * test compares the stored name with the enum constant and `isFile` stands
   * for `File.isFile`.
   */
  function JavaPath(operatingSystem: string, javaHome: Option<string>, sep: string,
                    isFile: string -> bool): (r: string)
    ensures StartsWith(r, TextOf(javaHome) + sep + "bin" + sep)
    ensures EndsWith(r, "java") || EndsWith(r, "javaw.exe")
  {
    var path := TextOf(javaHome) + sep + "bin" + sep;
    if StringEquals(operatingSystem, EnumObject(WINDOWS)) && isFile(path + "javaw.exe") then path + "javaw.exe"
    else path + "java"
  }

  /** The String-to-enum comparison is always false, so the program is always "java". */
  lemma JavaPathIsAlwaysJava(operatingSystem: string, javaHome: Option<string>, sep: string,
                             isFile: string -> bool)
    ensures JavaPath(operatingSystem, javaHome, sep, isFile) == TextOf(javaHome) + sep + "bin" + sep + "java"
  {
  }

  /**
   * The path `getMinecraftPath` returns for the stored name, whether or not
   * the directory already exists.
   */
  function MinecraftPath(operatingSystem: string, appData: Option<string>, userHome: Option<string>,
                         sep: string): (r: string)
    ensures r == "" <==> operatingSystem !in ["windows", "linux", "mac"]
    ensures r != "" ==> EndsWith(r, "minecraft" + sep)
  {
    if operatingSystem == "windows" then TextOf(appData) + sep + ".minecraft" + sep
    else if operatingSystem == "linux" then TextOf(userHome) + sep + ".minecraft" + sep
    else if operatingSystem == "mac" then
      TextOf(userHome) + sep + "Library" + sep + "Application Support" + sep + "minecraft" + sep
    else ""
  }

  /**
   * After normalisation: Windows gives the `.minecraft` directory under
   * `APPDATA` and Linux the one under `user.home`, both ending with the
   * separator; a Mac (normalised to "osx") gets the empty path. The
   * Application Support branch is taken only for an `os.name` of exactly
   * "mac", and any other unrecognised name gives the empty path.
   */
  lemma MinecraftPathOfNormalized(osName: string, appData: Option<string>, userHome: Option<string>, sep: string)
    ensures var p := MinecraftPath(NormalizeOsName(osName), appData, userHome, sep);
            && (Contains(osName, "Win") ==> p == TextOf(appData) + sep + ".minecraft" + sep)
            && (!Contains(osName, "Win") && Contains(osName, "Linux")
                ==> p == TextOf(userHome) + sep + ".minecraft" + sep)
            && (Contains(osName, "Win") || Contains(osName, "Linux") ==> EndsWith(p, sep))
            && (!Contains(osName, "Win") && !Contains(osName, "Linux") && Contains(osName, "Mac") ==> p == "")
            && (osName == "mac"
                ==> p == TextOf(userHome) + sep + "Library" + sep + "Application Support" + sep + "minecraft" + sep)
            && (OsAsEnum(osName) == UNDEFINED && osName !in ["windows", "linux", "mac"] ==> p == "")
  {
    var p := MinecraftPath(NormalizeOsName(osName), appData, userHome, sep);
    NotContainsKey("mac", "Win");
    NotContainsKey("mac", "Linux");
    NotContainsKey("mac", "Mac");
    if Contains(osName, "Win") || Contains(osName, "Linux") {
      var home := if Contains(osName, "Win") then TextOf(appData) else TextOf(userHome);
      assert p == home + sep + ".minecraft" + sep;
      assert p[|p| - |sep|..] == sep;
    }
  }

  // ---------------------------------------------------------------------------
  // The class and its static state
  // ---------------------------------------------------------------------------

  /** The static fields of `OSHelper`: the normalised system name and the singleton. */
  class OsHelperStatics {
    var operatingSystem: Option<string>
    var instance: OsHelper?

    ghost predicate Valid()
      reads this
    {
      instance != null ==> operatingSystem.Some? && instance.statics == this
    }

    constructor ()
      ensures operatingSystem == None && instance == null && Valid()
    {
      operatingSystem := None;
      instance := null;
    }
  }

  class OsHelper {
    const statics: OsHelperStatics

    /** The private constructor: normalises `os.name` into the shared static field. */
    constructor (statics: OsHelperStatics, osName: string)
      modifies statics`operatingSystem
      ensures this.statics == statics
      ensures statics.operatingSystem == Some(NormalizeOsName(osName))
    {
      this.statics := statics;
      var name := osName;
      if Contains(name, "Win") {
        name := "windows";
      } else if Contains(name, "Linux") {
        name := "linux";
      } else if Contains(name, "Mac") {
        name := "osx";
      }
      statics.operatingSystem := Some(name);
    }

    /** `getInstance`: creates the singleton on the first call and returns it ever after. */
    static method GetInstance(statics: OsHelperStatics, osName: string) returns (h: OsHelper)
      requires statics.Valid()
      modifies statics
      ensures statics.Valid() && h.statics == statics && statics.instance == h
      ensures old(statics.instance) != null ==> h == old(statics.instance) && unchanged(statics)
      ensures old(statics.instance) == null ==> fresh(h) && statics.operatingSystem == Some(NormalizeOsName(osName))
    {
      if statics.instance == null {
        var created := new OsHelper(statics, osName);
        statics.instance := created;
      }
      h := statics.instance;
    }

    /** `TEST_CreateInstance`: a new helper, which re-normalises the shared name. */
    static method TestCreateInstance(statics: OsHelperStatics, osName: string) returns (h: OsHelper)
      requires statics.Valid()
      modifies statics`operatingSystem
      ensures statics.Valid() && fresh(h) && h.statics == statics
      ensures statics.operatingSystem == Some(NormalizeOsName(osName))
    {
      h := new OsHelper(statics, osName);
    }

    /** `isJava32bit`: whether `os.arch` is one of the 32-bit names. */
    method IsJava32bit(archInfo: Option<string>) returns (r: bool)
      ensures r <==> archInfo.Some? && archInfo.value in Arch32
    {
      if archInfo.Some? && archInfo.value != "" {
        var i := 0;
        while i < |Arch32|
          invariant 0 <= i <= |Arch32|
          invariant forall j :: 0 <= j < i ==> Arch32[j] != archInfo.value
        {
          if archInfo.value == Arch32[i] {
            return true;
          }
          i := i + 1;
        }
      }
      return false;
    }

    /** `isJava64bit`: whether `os.arch` is one of the 64-bit names. */
    method IsJava64bit(archInfo: Option<string>) returns (r: bool)
      ensures r <==> archInfo.Some? && archInfo.value in Arch64
    {
      if archInfo.Some? && archInfo.value != "" {
        var i := 0;
        while i < |Arch64|
          invariant 0 <= i <= |Arch64|
          invariant forall j :: 0 <= j < i ==> Arch64[j] != archInfo.value
        {
          if archInfo.value == Arch64[i] {
            return true;
          }
          i := i + 1;
        }
      }
      return false;
    }
  }
}
