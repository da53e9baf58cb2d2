/** The string functions `Collect` and `shouldCollect` use to turn a path into a
    route key: `filepath.ToSlash`, `path.Clean`, `strings.ToLower` and
    `strings.Trim(s, "/")`. They belong to Go's standard library; here they are
    written out for what they do to a path. */
module Paths {

  /** Lower-cases an ASCII letter; other characters are unchanged. */
  function LowerChar(c: char): char
  {
    if 'A' <= c <= 'Z' then (c as int - 'A' as int + 'a' as int) as char else c
  }

  /** `strings.ToLower`, for ASCII letters. */
  function ToLower(s: string): (r: string)
    ensures |r| == |s|
    ensures forall i :: 0 <= i < |s| ==> r[i] == LowerChar(s[i])
  {
    if s == [] then [] else [LowerChar(s[0])] + ToLower(s[1..])
  }

  /** `filepath.ToSlash` on a system whose separator is '/': the identity. */
  function ToSlash(p: string): string
  {
    p
  }

  /** `strings.Split(s, "/")`: the pieces between slashes (one piece per slash, plus one). */
  function Split(s: string): (parts: seq<string>)
    ensures |parts| >= 1
  {
    if s == [] then [""]
    else
      var rest := Split(s[1..]);
      if s[0] == '/' then [""] + rest
      else [[s[0]] + rest[0]] + rest[1..]
  }

  /** `strings.Join(parts, "/")`. */
  function Join(parts: seq<string>): string
  {
    if parts == [] then ""
    else if |parts| == 1 then parts[0]
    else parts[0] + "/" + Join(parts[1..])
  }

  /** Adds one path element to the cleaned elements so far: empty and "." elements
      vanish, ".." removes the element before it, or is kept when there is none
      (and dropped at the root of a rooted path). */
  function Resolve(kept: seq<string>, element: string, rooted: bool): seq<string>
  {
    if element == "" || element == "." then kept
    else if element == ".." then
      if kept != [] && kept[|kept| - 1] != ".." then kept[..|kept| - 1]
      else if rooted then kept
      else kept + [".."]
    else kept + [element]
  }

  /** Resolves the elements of a path from left to right. */
  function ResolveAll(elements: seq<string>, rooted: bool): seq<string>
    decreases |elements|
  {
    if elements == [] then []
    else Resolve(ResolveAll(elements[..|elements| - 1], rooted), elements[|elements| - 1], rooted)
  }

  /** `path.Clean`: the shortest lexically equivalent path. Repeated slashes, "."
      elements and ".." elements with a parent are removed, a trailing slash is
      dropped, and an empty result is ".". */
  function Clean(p: string): (r: string)
    ensures r != ""
  {
    if p == "" then "."
    else
      var rooted := p[0] == '/';
      var body := Join(ResolveAll(Split(p), rooted));
      if rooted then "/" + body
      else if body == "" then "."
      else body
  }

  /** `strings.TrimLeft(s, "/")`. */
  function TrimLeft(s: string): (r: string)
    ensures r == [] || r[0] != '/'
  {
    if s != [] && s[0] == '/' then TrimLeft(s[1..]) else s
  }

  /** `strings.TrimRight(s, "/")`. */
  function TrimRight(s: string): (r: string)
    ensures r == [] || r[|r| - 1] != '/'
    ensures r != [] ==> s != [] && r[0] == s[0]
  {
    if s != [] && s[|s| - 1] == '/' then TrimRight(s[..|s| - 1]) else s
  }

  /** `strings.Trim(s, "/")`. */
  function Trim(s: string): (r: string)
    ensures r == [] || (r[0] != '/' && r[|r| - 1] != '/')
  {
    TrimRight(TrimLeft(s))
  }

  /** The registration form of a path: `strings.ToLower(path.Clean(filepath.ToSlash(p)))`. */
  function Pattern(p: string): string
  {
    ToLower(Clean(ToSlash(p)))
  }

  /** The key a non-wildcard path is registered under: "/" + Trim(Pattern(p), "/"). */
  function RouteKey(p: string): (key: string)
    ensures |key| >= 1 && key[0] == '/'
    ensures key[|key| - 1] == '/' ==> key == "/"
    ensures |key| >= 2 ==> key[1] != '/'
  {
    Rooted(Trim(Pattern(p)))
  }

  /** "/" + t, for a `t` with no slash at either end. */
  function Rooted(t: string): (key: string)
    requires t == [] || (t[0] != '/' && t[|t| - 1] != '/')
    ensures |key| == |t| + 1 && key[0] == '/' && key[1..] == t
    ensures key[|key| - 1] == '/' ==> key == "/"
  {
    if t == [] then "/" else ['/'] + t
  }

  /** The key a request path is looked up under: only `strings.ToLower(r.URL.Path)`. */
  function LookupKey(path: string): (key: string)
    ensures |key| == |path|
  {
    ToLower(path)
  }

  /** No upper-case ASCII letter in `s`. */
  predicate IsLower(s: string)
  {
    forall i :: 0 <= i < |s| ==> LowerChar(s[i]) == s[i]
  }

  /** Lower-casing leaves a lower-case string as it is. */
  lemma ToLowerKeepsLower(s: string)
    requires IsLower(s)
    ensures ToLower(s) == s
  {
  }

  /** Dropping leading slashes keeps a string lower-case. */
  lemma {:induction false} TrimLeftKeepsLower(s: string)
    requires IsLower(s)
    ensures IsLower(TrimLeft(s))
    decreases |s|
  {
    if s != [] && s[0] == '/' {
      assert IsLower(s[1..]);
      TrimLeftKeepsLower(s[1..]);
    }
  }

  /** Dropping trailing slashes keeps a string lower-case. */
  lemma {:induction false} TrimRightKeepsLower(s: string)
    requires IsLower(s)
    ensures IsLower(TrimRight(s))
    decreases |s|
  {
    if s != [] && s[|s| - 1] == '/' {
      assert IsLower(s[..|s| - 1]);
      TrimRightKeepsLower(s[..|s| - 1]);
    }
  }

  /** Trimming slashes keeps a string lower-case. */
  lemma TrimKeepsLower(s: string)
    requires IsLower(s)
    ensures IsLower(Trim(s))
  {
    TrimLeftKeepsLower(s);
    TrimRightKeepsLower(TrimLeft(s));
  }

  /** Lower-casing yields a lower-case string. */
  lemma ToLowerIsLower(s: string)
    ensures IsLower(ToLower(s))
  {
    var r := ToLower(s);
    forall i | 0 <= i < |r|
      ensures LowerChar(r[i]) == r[i]
    {
      assert r[i] == LowerChar(s[i]);
    }
  }

  /** Putting a slash in front keeps a string lower-case. */
  lemma RootedKeepsLower(t: string)
    requires t == [] || (t[0] != '/' && t[|t| - 1] != '/')
    requires IsLower(t)
    ensures IsLower(Rooted(t))
  {
    var key := Rooted(t);
    forall i | 0 <= i < |key|
      ensures LowerChar(key[i]) == key[i]
    {
      if i > 0 {
        assert key[i] == key[1..][i - 1] == t[i - 1];
      }
    }
  }

  /** Every route key is lower-case, so looking up a registered key finds it:
      a request whose path is exactly a route key reaches that route. */
  lemma {:induction false} RouteKeyIsFound(p: string)
    ensures IsLower(RouteKey(p))
    ensures LookupKey(RouteKey(p)) == RouteKey(p)
  {
    ToLowerIsLower(Clean(ToSlash(p)));
    TrimKeepsLower(Pattern(p));
    RootedKeepsLower(Trim(Pattern(p)));
    ToLowerKeepsLower(RouteKey(p));
  }

  /** `s` holds no slash. */
  predicate NoSlash(s: string)
  {
    forall i :: 0 <= i < |s| ==> s[i] != '/'
  }

  /** A path element followed by a slash splits off as one piece. */
  lemma {:induction false} SplitElement(w: string, rest: string)
    requires NoSlash(w)
    ensures Split(w + "/" + rest) == [w] + Split(rest)
    decreases |w|
  {
    var s := w + "/" + rest;
    if w == [] {
      assert s[1..] == rest;
    } else {
      assert s[1..] == w[1..] + "/" + rest;
      SplitElement(w[1..], rest);
      assert [s[0]] + w[1..] == w;
    }
  }

  /** A string without slashes is a single piece. */
  lemma {:induction false} SplitWord(w: string)
    requires NoSlash(w)
    ensures Split(w) == [w]
    decreases |w|
  {
    if w != [] {
      SplitWord(w[1..]);
      assert [w[0]] + w[1..] == w;
    }
  }

  // Concrete evaluations, one small step each, for the examples below.

  lemma SplitAB()
    ensures Split("a/b") == ["a", "b"] && Split("/a/b") == ["", "a", "b"]
  {
    SplitWord("b");
    SplitElement("a", "b");
    assert "a" + "/" + "b" == "a/b";
    SplitElement("", "a/b");
    assert "" + "/" + "a/b" == "/a/b";
  }

  lemma SplitUpperAB()
    ensures Split("/A/B/") == ["", "A", "B", ""]
  {
    SplitWord("");
    SplitElement("B", "");
    assert "B" + "/" + "" == "B/";
    SplitElement("A", "B/");
    assert "A" + "/" + "B/" == "A/B/";
    SplitElement("", "A/B/");
    assert "" + "/" + "A/B/" == "/A/B/";
  }

  lemma ResolveAB()
    ensures ResolveAll(["a", "b"], false) == ["a", "b"]
    ensures ResolveAll(["", "a", "b"], true) == ["a", "b"]
  {
    assert ["a", "b"][..1] == ["a"];
    assert ["", "a", "b"][..2] == ["", "a"];
    assert ["", "a"][..1] == [""];
  }

  lemma ResolveUpperAB()
    ensures ResolveAll(["", "A", "B", ""], true) == ["A", "B"]
  {
    assert ["", "A", "B", ""][..3] == ["", "A", "B"];
    assert ["", "A", "B"][..2] == ["", "A"];
    assert ["", "A"][..1] == [""];
  }

  lemma CleanRelativeAB()
    ensures Clean("a/b") == "a/b"
  {
    SplitAB();
    ResolveAB();
    assert Join(["a", "b"]) == "a/b";
  }

  lemma CleanRootedAB()
    ensures Clean("/a/b") == "/a/b"
  {
    SplitAB();
    ResolveAB();
    assert Join(["a", "b"]) == "a/b";
  }

  lemma CleanUpperAB()
    ensures Clean("/A/B/") == "/A/B"
  {
    SplitUpperAB();
    ResolveUpperAB();
    assert Join(["A", "B"]) == "A/B";
  }

  lemma LowerAB()
    ensures ToLower("a/b") == "a/b" && ToLower("/a/b") == "/a/b" && ToLower("/A/B") == "/a/b"
  {
  }

  lemma TrimAB()
    ensures Trim("a/b") == "a/b" && Trim("/a/b") == "a/b"
  {
  }

  lemma KeysOfAB()
    ensures RouteKey("/a/b") == "/a/b" && RouteKey("/A/B/") == "/a/b" && RouteKey("a/b") == "/a/b"
  {
    CleanRelativeAB();
    CleanRootedAB();
    CleanUpperAB();
    LowerAB();
    TrimAB();
    assert Pattern("/a/b") == "/a/b" && Pattern("/A/B/") == "/a/b" && Pattern("a/b") == "a/b";
  }

  /** Registering "/a/b", "/A/B/" or "a/b" stores the same key, the one a request
      for "/a/b" looks up. */
  lemma EquivalentRegistrations()
    ensures RouteKey("/a/b") == RouteKey("/A/B/") == RouteKey("a/b") == LookupKey("/a/b")
  {
    KeysOfAB();
    LowerAB();
  }

  lemma CleanTest()
    ensures Clean("/test") == "/test"
  {
    SplitWord("test");
    SplitElement("", "test");
    assert "" + "/" + "test" == "/test";
    assert ResolveAll(["", "test"], true) == ["test"] by {
      assert ["", "test"][..1] == [""];
    }
  }

  lemma RouteKeyTest()
    ensures RouteKey("/test") == "/test"
  {
    CleanTest();
    assert ToLower("/test") == "/test";
    assert Trim("/test") == "test";
  }

  /** A request path is only lower-cased, so a trailing slash or a repeated slash
      misses a key that registration cleaned away: "/TEST" finds the key of
      "/test", "/TEST/" and "//test" do not. */
  lemma LookupDoesNotClean()
    ensures RouteKey("/test") == "/test"
    ensures LookupKey("/TEST") == RouteKey("/test")
    ensures LookupKey("/TEST/") != RouteKey("/test")
    ensures LookupKey("//test") != RouteKey("/test")
  {
    RouteKeyTest();
    assert ToLower("/TEST") == "/test";
  }
}
