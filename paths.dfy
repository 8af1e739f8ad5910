/** The parts of Python's `posixpath` that the modelled code relies on:
    `join` of two parts, `dirname`, `normpath` and `abspath`. */
module Paths {
  import opened Strings

  /** `posixpath.join(a, b)`: an absolute `b` replaces `a`; otherwise one
      slash separates them unless `a` is empty or already ends in one. */
  function PathJoin(a: string, b: string): (r: string)
    ensures StartsWith(b, "/") ==> r == b
    ensures !StartsWith(b, "/") && a != "" && a[|a| - 1] != '/' ==> r == a + "/" + b
  {
    if StartsWith(b, "/") then b
    else if a == "" || a[|a| - 1] == '/' then a + b
    else a + "/" + b
  }

  /** The position just after the last slash, 0 when there is none. */
  function AfterLastSlash(p: string): (i: nat)
    ensures i <= |p|
    ensures i > 0 ==> p[i - 1] == '/'
    ensures forall k :: i <= k < |p| ==> p[k] != '/'
    decreases |p|
  {
    if p == [] then 0
    else if p[|p| - 1] == '/' then |p|
    else AfterLastSlash(p[..|p| - 1])
  }

  predicate AllSlashes(s: string) {
    forall k :: 0 <= k < |s| ==> s[k] == '/'
  }

  function StripTrailingSlashes(s: string): (r: string)
    ensures |r| <= |s| && r == s[..|r|]
    decreases |s|
  {
    if s != [] && s[|s| - 1] == '/' then StripTrailingSlashes(s[..|s| - 1]) else s
  }

  /** `posixpath.dirname(p)`: everything before the last slash, with the
      trailing slashes removed unless the head is made of slashes only. */
  function DirName(p: string): (r: string)
    ensures |r| <= |p| && r == p[..|r|]
  {
    var head := p[..AfterLastSlash(p)];
    if head != "" && !AllSlashes(head) then StripTrailingSlashes(head) else head
  }

  /** Which path components are kept by `normpath`. */
  predicate CleanComponent(c: string) {
    c != "" && c != "." && c != ".."
  }

  /** The component loop of `posixpath.normpath`: `acc` holds the
      components kept so far; `rooted` says the path started with a slash. */
  function NormComponents(comps: seq<string>, rooted: bool, acc: seq<string>): seq<string>
    decreases |comps|
  {
    if comps == [] then acc
    else
      var c := comps[0];
      var acc' :=
        if c == "" || c == "." then acc
        else if c != ".." || (!rooted && acc == []) || (acc != [] && acc[|acc| - 1] == "..") then acc + [c]
        else if acc != [] then acc[..|acc| - 1]
        else acc;
      NormComponents(comps[1..], rooted, acc')
  }

  /** Number of leading slashes `normpath` keeps: two exactly when the path
      starts with exactly two, otherwise one for a rooted path. */
  function InitialSlashes(p: string): nat {
    if !StartsWith(p, "/") then 0
    else if StartsWith(p, "//") && !StartsWith(p, "///") then 2
    else 1
  }

  function Slashes(n: nat): (r: string)
    ensures |r| == n && AllSlashes(r)
  {
    if n == 0 then "" else "/" + Slashes(n - 1)
  }

  /** `posixpath.normpath(p)`. */
  function NormPath(p: string): string {
    if p == "" then "."
    else
      var initial := InitialSlashes(p);
      var path := Slashes(initial) + Join("/", NormComponents(Split(p, '/'), initial > 0, []));
      if path == "" then "." else path
  }

  /** `posixpath.abspath(p)` when the current directory is `cwd`. */
  function AbsPath(cwd: string, p: string): string {
    NormPath(if StartsWith(p, "/") then p else PathJoin(cwd, p))
  }

  /** For a rooted path, the kept components are all proper names: the
      empty ones, `.` and `..` are gone. */
  lemma {:induction false} RootedComponentsClean(comps: seq<string>, acc: seq<string>)
    requires forall k :: 0 <= k < |acc| ==> CleanComponent(acc[k])
    ensures forall k :: 0 <= k < |NormComponents(comps, true, acc)| ==>
              CleanComponent(NormComponents(comps, true, acc)[k])
    decreases |comps|
  {
    if comps != [] {
      var c := comps[0];
      var acc' :=
        if c == "" || c == "." then acc
        else if c != ".." || (acc != [] && acc[|acc| - 1] == "..") then acc + [c]
        else if acc != [] then acc[..|acc| - 1]
        else acc;
      assert NormComponents(comps, true, acc) == NormComponents(comps[1..], true, acc');
      RootedComponentsClean(comps[1..], acc');
    }
  }

  /** An absolute path is rooted and made only of proper names. */
  lemma AbsPathClean(cwd: string, p: string)
    requires StartsWith(cwd, "/")
    ensures var q := if StartsWith(p, "/") then p else PathJoin(cwd, p);
            var comps := NormComponents(Split(q, '/'), true, []);
            && AbsPath(cwd, p) == Slashes(InitialSlashes(q)) + Join("/", comps)
            && StartsWith(AbsPath(cwd, p), "/")
            && forall k :: 0 <= k < |comps| ==> CleanComponent(comps[k])
  {
    var q := if StartsWith(p, "/") then p else PathJoin(cwd, p);
    if !StartsWith(p, "/") {
      assert q[..1] == cwd[..1];
    }
    assert StartsWith(q, "/");
    assert InitialSlashes(q) > 0;
    RootedComponentsClean(Split(q, '/'), []);
    var path := Slashes(InitialSlashes(q)) + Join("/", NormComponents(Split(q, '/'), true, []));
    assert path[0] == '/';
  }

  // ---------------------------------------------------------------------
  // Paths made of proper names

  /** Components that a clean absolute path is made of. */
  predicate ProperNames(comps: seq<string>) {
    forall k :: 0 <= k < |comps| ==> CleanComponent(comps[k]) && '/' !in comps[k]
  }

  lemma {:induction false} JoinStartsWithFirst(comps: seq<string>)
    requires |comps| > 0
    ensures StartsWith(Join("/", comps), comps[0])
    decreases |comps|
  {
    if |comps| > 1 {
      assert Join("/", comps) == comps[0] + ("/" + Join("/", comps[1..]));
    }
  }

  lemma {:induction false} JoinSnoc(comps: seq<string>)
    requires |comps| >= 2
    ensures Join("/", comps) == Join("/", comps[..|comps| - 1]) + "/" + comps[|comps| - 1]
    decreases |comps|
  {
    if |comps| > 2 {
      JoinSnoc(comps[1..]);
      assert comps[1..][..|comps| - 2] == comps[..|comps| - 1][1..];
    } else {
      assert comps[..1] == [comps[0]];
    }
  }

  lemma {:induction false} JoinEndsWithNonSlash(comps: seq<string>)
    requires |comps| > 0 && ProperNames(comps)
    ensures var j := Join("/", comps); j != "" && j[|j| - 1] != '/'
    decreases |comps|
  {
    if |comps| > 1 {
      JoinEndsWithNonSlash(comps[1..]);
    }
  }

  /** Removing the rooted `.`-, `..`- and empty-free components is the
      identity. */
  lemma {:induction false} NormComponentsProper(comps: seq<string>, acc: seq<string>)
    requires ProperNames(comps)
    ensures NormComponents(comps, true, acc) == acc + comps
    decreases |comps|
  {
    if comps != [] {
      NormComponentsProper(comps[1..], acc + [comps[0]]);
      assert acc + [comps[0]] + comps[1..] == acc + comps;
    }
  }

  /** `normpath` leaves a path `/a/b/...` of proper names unchanged. */
  lemma NormPathProper(comps: seq<string>)
    requires |comps| > 0 && ProperNames(comps)
    ensures NormPath("/" + Join("/", comps)) == "/" + Join("/", comps)
  {
    var p := "/" + Join("/", comps);
    var all := [""] + comps;
    assert Split(p, '/') == all by {
      assert all[1..] == comps;
      assert Join("/", all) == p;
      SplitJoin(all, '/');
    }
    assert NormComponents(all, true, []) == comps by {
      assert all[1..] == comps;
      NormComponentsProper(comps, []);
    }
    assert InitialSlashes(p) == 1 by {
      JoinStartsWithFirst(comps);
      assert p[1] == comps[0][0];
      assert p[..1] == "/";
      assert p[..2][1] != '/';
    }
    assert Slashes(1) == "/";
  }

  lemma {:induction false} AfterLastSlashOf(h: string, t: string)
    requires '/' !in t
    ensures AfterLastSlash(h + "/" + t) == |h| + 1
    decreases |t|
  {
    if t != [] {
      var p := h + "/" + t;
      assert p[..|p| - 1] == h + "/" + t[..|t| - 1];
      assert t[|t| - 1] in t;
      AfterLastSlashOf(h, t[..|t| - 1]);
    } else {
      assert (h + "/" + t)[..|h| + 1] == h + "/";
    }
  }

  /** The part of `/a/.../y/z` up to its last slash. */
  lemma HeadOfProper(comps: seq<string>)
    requires |comps| >= 2 && '/' !in comps[|comps| - 1]
    ensures var p := "/" + Join("/", comps);
            p[..AfterLastSlash(p)] == "/" + Join("/", comps[..|comps| - 1]) + "/"
  {
    JoinSnoc(comps);
    CutJoined(Join("/", comps), Join("/", comps[..|comps| - 1]), comps[|comps| - 1]);
  }

  lemma CutJoined(j: string, init: string, last: string)
    requires '/' !in last && j == init + "/" + last
    ensures ("/" + j)[..AfterLastSlash("/" + j)] == "/" + init + "/"
  {
    assert "/" + j == ("/" + init) + "/" + last;
    CutAtLastSlash("/" + init, last);
  }

  lemma CutAtLastSlash(h: string, t: string)
    requires '/' !in t
    ensures var p := h + "/" + t; p[..AfterLastSlash(p)] == h + "/"
  {
    AfterLastSlashOf(h, t);
    assert (h + "/" + t)[..|h| + 1] == h + "/";
  }

  /** `/a/.../y/` is not made of slashes only and loses exactly its last
      slash to `StripTrailingSlashes`. */
  lemma StripProperHead(init: seq<string>)
    requires |init| >= 1 && ProperNames(init)
    ensures var h := "/" + Join("/", init);
            !AllSlashes(h + "/") && StripTrailingSlashes(h + "/") == h
  {
    var h := "/" + Join("/", init);
    JoinStartsWithFirst(init);
    assert (h + "/")[1] == init[0][0];
    JoinEndsWithNonSlash(init);
    assert (h + "/")[..|h + "/"| - 1] == h;
  }

  /** `dirname` of `/a/.../y/z` is `/a/.../y`. */
  lemma DirNameProper(comps: seq<string>)
    requires |comps| >= 2 && ProperNames(comps)
    ensures DirName("/" + Join("/", comps)) == "/" + Join("/", comps[..|comps| - 1])
  {
    var init := comps[..|comps| - 1];
    assert ProperNames(init);
    HeadOfProper(comps);
    StripProperHead(init);
    DirNameFromHead("/" + Join("/", comps), "/" + Join("/", init) + "/");
  }

  lemma DirNameFromHead(p: string, head: string)
    requires p[..AfterLastSlash(p)] == head && head != "" && !AllSlashes(head)
    ensures DirName(p) == StripTrailingSlashes(head)
  {
  }
}
