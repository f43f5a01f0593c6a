/**
  Home-directory path translation between the driver's and the worker's
  operating systems (src/ray_quickstart/util/platform.py).

  A platform is the raw string the source compares against (`sys.platform`
  values such as "darwin", "linux", "win32", or a configured "windows").
 */
module PlatformPaths {

  import opened Wrappers
  import opened Text

  /** `is_linux()` over a given `sys.platform` value. */
  predicate IsLinux(platform: string) {
    platform == "linux" || platform == "linux2"
  }

  /** `is_mac()` over a given `sys.platform` value. */
  predicate IsMac(platform: string) {
    platform == "darwin"
  }

  /** `is_windows()` over a given `sys.platform` value. */
  predicate IsWindows(platform: string) {
    platform == "win32"
  }

  /**
    At most one of the three platform tests holds, and the Windows name that
    `is_windows()` tests for is not one the home-path translation knows.
   */
  lemma PlatformTestsExclusive(platform: string)
    ensures !(IsLinux(platform) && IsMac(platform))
    ensures !(IsLinux(platform) && IsWindows(platform))
    ensures !(IsMac(platform) && IsWindows(platform))
    ensures IsWindows(platform) ==> !Recognised(platform)
  {
  }

  /** The platform names the home-path translation has a branch for. */
  predicate Recognised(platform: string) {
    platform == "darwin" || platform == "windows" || platform == "linux"
  }

  /** Root of the home directories under each recognised platform's convention. */
  function HomeRoot(platform: string): (root: string)
    requires Recognised(platform)
    ensures StartsWith(root, "/") || StartsWith(root, "C:/")
  {
    if platform == "darwin" then "/Users/"
    else if platform == "windows" then "C:/Users/"
    else "/home/"
  }

  /** The other platforms' home roots, in the order the translation tests them. */
  function ForeignRoots(platform: string): (roots: seq<string>)
    requires Recognised(platform)
    ensures |roots| == 2
    ensures forall i :: 0 <= i < 2 ==> roots[i] != HomeRoot(platform)
  {
    if platform == "darwin" then ["/home/", "C:/Users/"]
    else if platform == "windows" then ["/Users/", "/home/"]
    else ["/Users/", "C:/Users/"]
  }

  /** A user's home directory (with its trailing slash) on a recognised platform. */
  function HomePrefix(platform: string, user: string): (prefix: string)
    requires Recognised(platform)
    ensures StartsWith(prefix, HomeRoot(platform))
  {
    HomeRoot(platform) + user + "/"
  }

  /**
    `normalize_home_path_for_platform` once `user` and `platform` are known:
    a `~` path has every `~/` expanded to the home prefix; otherwise a path
    that begins with another platform's home root has every occurrence of
    that root rewritten to this platform's root. The contract restates the
    branches through the tables `HomePrefix`, `HomeRoot` and `ForeignRoots`.
   */
  function Normalize(path: string, user: string, platform: string): (r: string)
    ensures !Recognised(platform) ==> r == path
    ensures Recognised(platform) && StartsWith(path, "~") ==> r == ReplaceAll(path, "~/", HomePrefix(platform, user))
    ensures Recognised(platform) && !StartsWith(path, "~") ==>
              r == if StartsWith(path, ForeignRoots(platform)[0])
                   then ReplaceAll(path, ForeignRoots(platform)[0], HomeRoot(platform))
                   else if StartsWith(path, ForeignRoots(platform)[1])
                   then ReplaceAll(path, ForeignRoots(platform)[1], HomeRoot(platform))
                   else path
  {
    if StartsWith(path, "~") then
      if platform == "darwin" then ReplaceAll(path, "~/", "/Users/" + user + "/")
      else if platform == "windows" then ReplaceAll(path, "~/", "C:/Users/" + user + "/")
      else if platform == "linux" then ReplaceAll(path, "~/", "/home/" + user + "/")
      else path
    else if platform == "darwin" then
      if StartsWith(path, "/home/") then ReplaceAll(path, "/home/", "/Users/")
      else if StartsWith(path, "C:/Users/") then ReplaceAll(path, "C:/Users/", "/Users/")
      else path
    else if platform == "windows" then
      if StartsWith(path, "/Users/") then ReplaceAll(path, "/Users/", "C:/Users/")
      else if StartsWith(path, "/home/") then ReplaceAll(path, "/home/", "C:/Users/")
      else path
    else if platform == "linux" then
      if StartsWith(path, "/Users/") then ReplaceAll(path, "/Users/", "/home/")
      else if StartsWith(path, "C:/Users/") then ReplaceAll(path, "C:/Users/", "/home/")
      else path
    else path
  }

  /**
    The full function with its defaults: an omitted platform is the process's
    `sys.platform`, an omitted user is the `USER` environment variable, and a
    missing `USER` is formatted as the text "None".
   */
  function NormalizeHomePathForPlatform(path: string, user: Option<string>, platform: Option<string>,
                                        sysPlatform: string, envUser: Option<string>): (r: string)
    ensures platform.Some? && user.Some? ==> r == Normalize(path, user.value, platform.value)
    ensures platform.None? && user.Some? ==> r == Normalize(path, user.value, sysPlatform)
    ensures user.None? && envUser.Some? ==>
              r == Normalize(path, envUser.value, if platform.Some? then platform.value else sysPlatform)
    ensures user.None? && envUser.None? ==>
              r == Normalize(path, "None", if platform.Some? then platform.value else sysPlatform)
    ensures !StartsWith(path, "~") ==>
              r == Normalize(path, "", if platform.Some? then platform.value else sysPlatform)
  {
    var plat := if platform.Some? then platform.value else sysPlatform;
    var u := if user.Some? then user.value else if envUser.Some? then envUser.value else "None";
    Normalize(path, u, plat)
  }

  // ---------------------------------------------------------------------
  // What the translation promises

  /** `~/rest` becomes the platform's home prefix followed by `rest`. */
  lemma HomeExpansion(rest: string, user: string, platform: string)
    requires Recognised(platform)
    requires !Contains(rest, "~/")
    ensures Normalize("~/" + rest, user, platform) == HomePrefix(platform, user) + rest
  {
    var p := "~/" + rest;
    assert p[..1] == "~" && p[..2] == "~/";
    assert p[2..] == rest;
    ReplaceAbsent(rest, "~/", HomePrefix(platform, user));
  }

  /** A `~` path without any `~/` (such as `~` or `~bob/x`) is returned unchanged. */
  lemma TildeWithoutSlashUnchanged(path: string, user: string, platform: string)
    requires StartsWith(path, "~")
    requires !Contains(path, "~/")
    ensures Normalize(path, user, platform) == path
  {
    if Recognised(platform) {
      ReplaceAbsent(path, "~/", HomePrefix(platform, user));
    }
  }

  /** An unrecognised platform (this includes "win32") leaves every path unchanged. */
  lemma UnrecognisedPlatformUnchanged(path: string, user: string, platform: string)
    requires !Recognised(platform)
    ensures Normalize(path, user, platform) == path
  {
  }

  /** A path that begins with one of the platform's foreign roots has every occurrence of that root rewritten. */
  lemma ForeignRootTranslated(path: string, user: string, platform: string, i: nat)
    requires Recognised(platform) && i < 2
    requires StartsWith(path, ForeignRoots(platform)[i])
    ensures Normalize(path, user, platform) == ReplaceAll(path, ForeignRoots(platform)[i], HomeRoot(platform))
  {
    var from := ForeignRoots(platform)[i];
    assert path[..|from|] == from;
    assert path[0] == from[0] && path[1] == from[1];
    NotPrefixAt(path, "~", 0);
    if i == 1 {
      var first := ForeignRoots(platform)[0];
      if first[0] != from[0] {
        NotPrefixAt(path, first, 0);
      } else {
        NotPrefixAt(path, first, 1);
      }
    }
  }

  /**
    A path that begins with one of the other platforms' home roots, and holds
    that root nowhere else, has the root swapped for this platform's.
   */
  lemma ForeignRootRewritten(rest: string, user: string, platform: string, i: nat)
    requires Recognised(platform) && i < 2
    requires !Contains(rest, ForeignRoots(platform)[i])
    ensures Normalize(ForeignRoots(platform)[i] + rest, user, platform) == HomeRoot(platform) + rest
  {
    var from := ForeignRoots(platform)[i];
    assert (from + rest)[..|from|] == from;
    ForeignRootTranslated(from + rest, user, platform, i);
    ReplaceAtFront(from, rest, HomeRoot(platform));
    ReplaceAbsent(rest, from, HomeRoot(platform));
  }

  /**
    On a Mac, `/home/x/home/y` becomes `/Users/x/Users/y`: every occurrence
    is rewritten, not only the first.
   */
  lemma EveryOccurrenceRewritten(x: string, y: string, user: string)
    requires Free(x, '/') && Free(y, '/')
    ensures Normalize("/home/" + x + "/home/" + y, user, "darwin") == "/Users/" + x + "/Users/" + y
  {
    var p := "/home/" + x + "/home/" + y;
    assert p[..6] == "/home/";
    ForeignRootTranslated(p, user, "darwin", 0);
    ReplaceTwice("/home/", x, y, "/Users/");
  }

  /**
    A home path of Linux or macOS translated to another platform's convention
    and back is restored, provided it did not already hold the other
    platform's home root.
   */
  lemma HomeRoundTrip(path: string, user: string, origin: string, via: string)
    requires origin == "darwin" || origin == "linux"
    requires Recognised(via) && via != origin
    requires StartsWith(path, HomeRoot(origin))
    requires !Contains(path, HomeRoot(via))
    ensures Normalize(Normalize(path, user, via), user, origin) == path
  {
    var a, b := HomeRoot(origin), HomeRoot(via);
    var i := if ForeignRoots(via)[0] == a then 0 else 1;
    assert ForeignRoots(via)[i] == a;
    ForeignRootTranslated(path, user, via, i);
    var r := ReplaceAll(path, a, b);
    assert path == a + path[|a|..];
    ReplaceAtFront(a, path[|a|..], b);
    assert StartsWith(r, b) by {
      assert r[..|b|] == b;
    }
    var j := if ForeignRoots(origin)[0] == b then 0 else 1;
    assert ForeignRoots(origin)[j] == b;
    ForeignRootTranslated(r, user, origin, j);
    if via == "windows" {
      NoStraddleIntoWindows(a);
    } else {
      NoStraddleIntoUnix(a, b);
    }
    ReplaceRoundTrip(path, a, b);
  }

  lemma NoStraddleIntoWindows(a: string)
    requires a != []
    ensures NoStraddle(a, "C:/Users/")
  {
    var b := "C:/Users/";
    assert b[1..] == ":/Users/";
    assert Free(b[1..], b[0]);
    NoStraddleUniqueHead(a, b);
  }

  lemma NoStraddleIntoUnix(a: string, b: string)
    requires a != [] && a[0] == '/'
    requires b == "/Users/" || b == "/home/"
    ensures NoStraddle(a, b)
  {
    var w := b[1..|b| - 1];
    assert w == "Users" || w == "home";
    assert b == [b[0]] + w + [b[0]];
    assert Free(w, b[0]);
    NoStraddleBracketed(a, b, w);
  }

  /**
    A Windows home path translated to the macOS or Linux convention and back
    is restored, provided the rest of it holds neither that platform's root
    nor `C:/Users/` (on macOS the first condition implies the second).
   */
  lemma WindowsHomeRoundTrip(rest: string, user: string, via: string)
    requires via == "darwin" || via == "linux"
    requires !Contains(rest, HomeRoot(via))
    requires via == "linux" ==> !Contains(rest, "C:/Users/")
    ensures Normalize(Normalize("C:/Users/" + rest, user, via), user, "windows") == "C:/Users/" + rest
  {
    var a, b := "C:/Users/", HomeRoot(via);
    if via == "darwin" {
      assert a == "C:" + b;
      if Contains(rest, a) {
        ContainsTail(rest, "C:", b);
      }
    }
    assert ForeignRoots(via)[1] == a;
    ForeignRootRewritten(rest, user, via, 1);
    var j := if via == "darwin" then 0 else 1;
    assert ForeignRoots("windows")[j] == b;
    ForeignRootRewritten(rest, user, "windows", j);
  }

  /**
    A Windows home path is not restored by a trip through the macOS
    convention: `C:/Users/` itself holds `/Users/`, so the way back also
    rewrites the `/Users/` inside `C:/Users/x/Users/y`.
   */
  lemma WindowsOriginNotRestored(x: string, y: string, user: string)
    requires Free(x, '/') && Free(y, '/') && Free(x, 'C') && Free(y, 'C')
    ensures Normalize("C:/Users/" + x + "/Users/" + y, user, "darwin") == "/Users/" + x + "/Users/" + y
    ensures Normalize("/Users/" + x + "/Users/" + y, user, "windows") == "C:/Users/" + x + "C:/Users/" + y
    ensures "C:/Users/" + x + "C:/Users/" + y != "C:/Users/" + x + "/Users/" + y
  {
    WindowsToMac(x, y, user);
    MacToWindows(x, y, user);
    var back := "C:/Users/" + x + "C:/Users/" + y;
    assert back[9 + |x|] == 'C';
  }

  lemma WindowsToMac(x: string, y: string, user: string)
    requires Free(x, 'C') && Free(y, 'C')
    ensures Normalize("C:/Users/" + x + "/Users/" + y, user, "darwin") == "/Users/" + x + "/Users/" + y
  {
    var a := "C:/Users/";
    var rest := x + "/Users/" + y;
    assert Free("/Users/", 'C');
    FreeConcat(x, "/Users/", 'C');
    FreeConcat(x + "/Users/", y, 'C');
    var p := a + rest;
    assert p == "C:/Users/" + x + "/Users/" + y;
    assert p[..9] == a;
    calc {
      Normalize(p, user, "darwin");
      { ForeignRootTranslated(p, user, "darwin", 1); }
      ReplaceAll(p, ForeignRoots("darwin")[1], HomeRoot("darwin"));
      ReplaceAll(a + rest, a, "/Users/");
      { ReplaceOnlyAtFront(a, rest, "/Users/"); }
      "/Users/" + rest;
      "/Users/" + x + "/Users/" + y;
    }
  }

  lemma MacToWindows(x: string, y: string, user: string)
    requires Free(x, '/') && Free(y, '/')
    ensures Normalize("/Users/" + x + "/Users/" + y, user, "windows") == "C:/Users/" + x + "C:/Users/" + y
  {
    var q := "/Users/" + x + "/Users/" + y;
    assert q[..7] == "/Users/";
    ForeignRootTranslated(q, user, "windows", 0);
    ReplaceTwice("/Users/", x, y, "C:/Users/");
  }

  /** A path starting with neither `~` nor a foreign home root is returned unchanged. */
  lemma NeutralPathUnchanged(path: string, user: string, platform: string)
    requires !StartsWith(path, "~")
    requires Recognised(platform) ==> forall i :: 0 <= i < 2 ==> !StartsWith(path, ForeignRoots(platform)[i])
    ensures Normalize(path, user, platform) == path
  {
    if Recognised(platform) {
      assert !StartsWith(path, ForeignRoots(platform)[0]);
      assert !StartsWith(path, ForeignRoots(platform)[1]);
    }
  }

  /** A path in a platform's own convention has no foreign root at its front. */
  lemma OwnRootNotForeign(path: string, platform: string)
    requires Recognised(platform)
    requires StartsWith(path, HomeRoot(platform))
    ensures !StartsWith(path, "~")
    ensures forall i :: 0 <= i < 2 ==> !StartsWith(path, ForeignRoots(platform)[i])
  {
    var own := HomeRoot(platform);
    assert path[..|own|] == own;
    assert path[0] == own[0] && path[1] == own[1];
    forall i | 0 <= i < 2
      ensures !StartsWith(path, ForeignRoots(platform)[i])
    {
      var f := ForeignRoots(platform)[i];
      if own[0] != f[0] {
        NotPrefixAt(path, f, 0);
      } else {
        NotPrefixAt(path, f, 1);
      }
    }
  }

  /**
    Normalizing twice changes nothing more than normalizing once, for every
    path that does not start with `~`, starts with `~/`, or holds no `~/`.
   */
  lemma NormalizeIdempotent(path: string, user: string, platform: string)
    requires !StartsWith(path, "~") || StartsWith(path, "~/") || !Contains(path, "~/")
    ensures Normalize(Normalize(path, user, platform), user, platform) == Normalize(path, user, platform)
  {
    if StartsWith(path, "~") && !StartsWith(path, "~/") {
      TildeWithoutSlashUnchanged(path, user, platform);
    } else if Recognised(platform) {
      if StartsWith(path, "~") {
        ExpandedStartsWithRoot(path, user, platform);
        OwnRootFixed(Normalize(path, user, platform), user, platform);
      } else if StartsWith(path, ForeignRoots(platform)[0]) || StartsWith(path, ForeignRoots(platform)[1]) {
        RewrittenStartsWithRoot(path, user, platform);
        OwnRootFixed(Normalize(path, user, platform), user, platform);
      }
    }
  }

  /** A path in the platform's own convention is a fixed point of the translation. */
  lemma OwnRootFixed(path: string, user: string, platform: string)
    requires Recognised(platform)
    requires StartsWith(path, HomeRoot(platform))
    ensures Normalize(path, user, platform) == path
  {
    OwnRootNotForeign(path, platform);
    NeutralPathUnchanged(path, user, platform);
  }

  /** Expanding a leading `~/` gives a path in the platform's own convention. */
  lemma ExpandedStartsWithRoot(path: string, user: string, platform: string)
    requires Recognised(platform) && StartsWith(path, "~/")
    ensures StartsWith(Normalize(path, user, platform), HomeRoot(platform))
  {
    var h := HomePrefix(platform, user);
    var root := HomeRoot(platform);
    assert path[..1] == "~";
    assert path == "~/" + path[2..];
    ReplaceAtFront("~/", path[2..], h);
    var r := Normalize(path, user, platform);
    assert r == h + ReplaceAll(path[2..], "~/", h);
    assert r[..|root|] == h[..|root|];
  }

  /** Once a foreign root has been rewritten, the path starts with the platform's own root. */
  lemma RewrittenStartsWithRoot(path: string, user: string, platform: string)
    requires Recognised(platform) && !StartsWith(path, "~")
    requires StartsWith(path, ForeignRoots(platform)[0]) || StartsWith(path, ForeignRoots(platform)[1])
    ensures StartsWith(Normalize(path, user, platform), HomeRoot(platform))
  {
    var own := HomeRoot(platform);
    var from := if StartsWith(path, ForeignRoots(platform)[0]) then ForeignRoots(platform)[0] else ForeignRoots(platform)[1];
    var r := Normalize(path, user, platform);
    assert r == own + ReplaceAll(path[|from|..], from, own);
    assert r[..|own|] == own;
  }

  /**
    `~~/` is not in the form the idempotence lemma asks for: on a Mac its one
    `~/` is expanded to give `~/Users/{user}/`, which a second pass expands again.
   */
  lemma TildeTildeNotIdempotent(user: string)
    requires Free(user, '~')
    ensures Normalize("~~/", user, "darwin") == "~/Users/" + user + "/"
    ensures Normalize("~/Users/" + user + "/", user, "darwin") == "/Users/" + user + "/Users/" + user + "/"
  {
    TildeTildeOnce(user);
    TildeTildeTwice(user);
  }

  lemma TildeTildeOnce(user: string)
    ensures Normalize("~~/", user, "darwin") == "~/Users/" + user + "/"
  {
    var h := HomePrefix("darwin", user);
    assert "~~/"[..1] == "~";
    ReplaceAfterTilde(h);
    assert "~" + h == "~/Users/" + user + "/";
  }

  lemma ReplaceAfterTilde(h: string)
    ensures ReplaceAll("~~/", "~/", h) == "~" + h
  {
    var once := "~~/";
    NotPrefixAt(once, "~/", 1);
    assert once[1..] == "~/" + [];
    ReplaceAtFront("~/", [], h);
    assert h + [] == h;
  }

  lemma TildeTildeTwice(user: string)
    requires Free(user, '~')
    ensures Normalize("~/Users/" + user + "/", user, "darwin") == "/Users/" + user + "/Users/" + user + "/"
  {
    var rest := "Users/" + user + "/";
    NoTildeInHomeTail(user);
    HomeExpansion(rest, user, "darwin");
    HomeTailShapes(user);
  }

  lemma HomeTailShapes(user: string)
    ensures "~/Users/" + user + "/" == "~/" + ("Users/" + user + "/")
    ensures ("/Users/" + user + "/") + ("Users/" + user + "/") == "/Users/" + user + "/Users/" + user + "/"
  {
    var rest := "Users/" + user + "/";
    assert "/" + rest == "/Users/" + user + "/";
    assert ("/Users/" + user + "/") + rest == "/Users/" + user + ("/" + rest);
  }

  lemma NoTildeInHomeTail(user: string)
    requires Free(user, '~')
    ensures !Contains("Users/" + user + "/", "~/")
  {
    assert Free("Users/", '~') && Free("/", '~');
    FreeConcat("Users/", user, '~');
    FreeConcat("Users/" + user, "/", '~');
    NoTildeNoMatch("Users/" + user + "/");
  }

  lemma {:induction false} NoTildeNoMatch(s: string)
    requires Free(s, '~')
    ensures !Contains(s, "~/")
    decreases |s|
  {
    if s != [] {
      NotPrefixAt(s, "~/", 0);
      NoTildeNoMatch(s[1..]);
    }
  }
}
