/** The window-title program name computed at the top of `main` in scene-start.cpp:
    `argv[0]` with everything up to its last `/` or `\` removed. A string here is the
    characters of the C string before its terminating NUL. */
module ProgramName {

  /** The two directory separators the loop recognises. */
  predicate IsSep(c: char) {
    c == '/' || c == '\\'
  }

  predicate NoSep(s: string) {
    forall k :: 0 <= k < |s| ==> !IsSep(s[k])
  }

  /** `t` is a suffix of `s` that starts right after a separator, or is all of `s`. */
  predicate IsLastComponent(t: string, s: string) {
    && |t| <= |s|
    && t == s[|s| - |t|..]
    && NoSep(t)
    && (|t| < |s| ==> IsSep(s[|s| - |t| - 1]))
  }

  /** The reference definition: the longest separator-free suffix. */
  function Basename(s: string): (r: string)
    ensures IsLastComponent(r, s)
  {
    if s == [] then []
    else if IsSep(s[|s| - 1]) then []
    else Basename(s[..|s| - 1]) + [s[|s| - 1]]
  }

  /** The loop of `main`: walk `argv[0]` and restart the name after each separator. */
  method ProgramNameOf(argv0: string) returns (name: string)
    ensures IsLastComponent(name, argv0)
    ensures name == Basename(argv0)
  {
    var start := 0;
    var p := 0;
    while p < |argv0|
      invariant 0 <= start <= p <= |argv0|
      invariant argv0[start..p] == Basename(argv0[..p])
    {
      BasenameStep(argv0, p);
      if IsSep(argv0[p]) {
        start := p + 1;
      } else {
        assert argv0[start..p + 1] == argv0[start..p] + [argv0[p]];
      }
      p := p + 1;
    }
    assert argv0[..p] == argv0;
    name := argv0[start..];
  }

  /** One more character either restarts the name or extends it. */
  lemma BasenameStep(s: string, p: int)
    requires 0 <= p < |s|
    ensures Basename(s[..p + 1]) == if IsSep(s[p]) then [] else Basename(s[..p]) + [s[p]]
  {
    assert s[..p + 1][..p] == s[..p];
  }

  /** The last component is determined by the string: any candidate is `Basename`. */
  lemma {:induction false} BasenameUnique(s: string, t: string)
    requires IsLastComponent(t, s)
    ensures t == Basename(s)
  {
    if s != [] && !IsSep(s[|s| - 1]) {
      LastComponentNonEmpty(t, s);
      var init := s[..|s| - 1];
      var u := t[..|t| - 1];
      LastComponentInit(t, s);
      BasenameUnique(init, u);
      assert t == u + [s[|s| - 1]];
    } else {
      LastComponentEmpty(t, s);
    }
  }

  /** Nothing follows a trailing separator. */
  lemma LastComponentEmpty(t: string, s: string)
    requires IsLastComponent(t, s) && (s == [] || IsSep(s[|s| - 1]))
    ensures t == []
  {
  }

  /** Dropping the last character of a non-empty name gives the name of the rest. */
  lemma LastComponentInit(t: string, s: string)
    requires IsLastComponent(t, s) && t != []
    ensures IsLastComponent(t[..|t| - 1], s[..|s| - 1])
    ensures t[|t| - 1] == s[|s| - 1]
  {
    var init := s[..|s| - 1];
    var u := t[..|t| - 1];
    assert u == init[|init| - |u|..];
    if |u| < |init| {
      assert init[|init| - |u| - 1] == s[|s| - |t| - 1];
    }
    forall k | 0 <= k < |u| ensures !IsSep(u[k]) { assert u[k] == t[k]; }
  }

  /** A name ending in a non-separator is not empty. */
  lemma LastComponentNonEmpty(t: string, s: string)
    requires IsLastComponent(t, s) && s != [] && !IsSep(s[|s| - 1])
    ensures t != []
  {
  }

  /** Taking the name of a name changes nothing. */
  lemma BasenameIdempotent(s: string)
    ensures Basename(Basename(s)) == Basename(s)
  {
    var b := Basename(s);
    assert b[0..] == b;
    BasenameUnique(b, b);
  }

  /** Directories in front of a separator do not affect the name. */
  lemma BasenameAfterSep(dir: string, sep: char, s: string)
    requires IsSep(sep)
    ensures Basename(dir + [sep] + s) == Basename(s)
  {
    var whole := dir + [sep] + s;
    var b := Basename(s);
    assert whole[|whole| - |s|..] == s;
    assert whole[|whole| - |b|..] == s[|s| - |b|..];
    if |b| == |s| {
      assert whole[|whole| - |b| - 1] == sep;
    } else {
      assert whole[|whole| - |b| - 1] == s[|s| - |b| - 1];
    }
    BasenameUnique(whole, b);
  }
}
