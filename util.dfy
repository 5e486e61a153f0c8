/** String and path helpers of the shell's utility component: trimming,
    newline termination and `~` expansion. Each helper that edits a string
    in place is a method that returns the edited string; the function it is
    proved against states what the edit means. */
module Util {
  import opened Wrappers
  import opened CType

  // ---------------------------------------------------------------------
  // Trimming
  // ---------------------------------------------------------------------

  /** The string without its leading whitespace. */
  function LTrimmed(s: string): string
    decreases |s|
  {
    if s != [] && IsSpace(s[0]) then LTrimmed(s[1..]) else s
  }

  /** The string without its trailing whitespace. */
  function RTrimmed(s: string): string
    decreases |s|
  {
    if s != [] && IsSpace(s[|s| - 1]) then RTrimmed(s[..|s| - 1]) else s
  }

  /** Left trimming removes exactly the maximal leading run of whitespace:
      the result is a suffix of the input, everything removed is
      whitespace, and the result is empty or starts with a non-space. */
  lemma {:induction false} LTrimmedShape(s: string)
    ensures var r := LTrimmed(s);
      && |r| <= |s| && r == s[|s| - |r|..]
      && AllSpace(s[..|s| - |r|])
      && (r == [] || !IsSpace(r[0]))
    decreases |s|
  {
    if s != [] && IsSpace(s[0]) {
      var t := s[1..];
      var r := LTrimmed(t);
      LTrimmedShape(t);
      assert t[|t| - |r|..] == s[|s| - |r|..];
      var gone, gone' := s[..|s| - |r|], t[..|t| - |r|];
      assert AllSpace(gone) by {
        forall k | 0 <= k < |gone|
          ensures IsSpace(gone[k])
        {
          if k > 0 {
            assert gone[k] == gone'[k - 1];
          }
        }
      }
    }
  }

  /** Right trimming removes exactly the maximal trailing run of whitespace:
      the result is a prefix of the input, everything removed is whitespace,
      and the result is empty or ends in a non-space. */
  lemma {:induction false} RTrimmedShape(s: string)
    ensures var r := RTrimmed(s);
      && |r| <= |s| && r == s[..|r|]
      && AllSpace(s[|r|..])
      && (r == [] || !IsSpace(r[|r| - 1]))
    decreases |s|
  {
    if s != [] && IsSpace(s[|s| - 1]) {
      var t := s[..|s| - 1];
      var r := RTrimmed(t);
      RTrimmedShape(t);
      assert t[..|r|] == s[..|r|];
      var gone, gone' := s[|r|..], t[|r|..];
      assert AllSpace(gone) by {
        forall k | 0 <= k < |gone|
          ensures IsSpace(gone[k])
        {
          if k < |gone'| {
            assert gone[k] == gone'[k];
          }
        }
      }
    }
  }

  /** Both ends trimmed; the source trims the right end first. */
  function Trimmed(s: string): string
  {
    LTrimmed(RTrimmed(s))
  }

  /** `ltrim`: advances past leading whitespace, then erases that prefix. */
  method LTrim(s: string) returns (r: string)
    ensures r == LTrimmed(s)
  {
    var start := 0;
    while start < |s| && IsSpace(s[start])
      invariant 0 <= start <= |s|
      invariant LTrimmed(s[start..]) == LTrimmed(s)
    {
      assert s[start..][1..] == s[start + 1..];
      start := start + 1;
    }
    r := s[start..];
  }

  /** `rtrim`: moves back over trailing whitespace, then erases that suffix. */
  method RTrim(s: string) returns (r: string)
    ensures r == RTrimmed(s)
  {
    var end := |s|;
    assert s[..end] == s;
    while end > 0 && IsSpace(s[end - 1])
      invariant 0 <= end <= |s|
      invariant RTrimmed(s[..end]) == RTrimmed(s)
    {
      assert s[..end][..end - 1] == s[..end - 1];
      end := end - 1;
    }
    assert s[..|s|] == s;
    r := s[..end];
  }

  /** `trim`: right trim, then left trim. */
  method Trim(s: string) returns (r: string)
    ensures r == Trimmed(s)
  {
    r := RTrim(s);
    r := LTrim(r);
  }

  /** Trimming leaves no whitespace at either end, and what it keeps is one
      contiguous slice of the input with only whitespace around it. */
  lemma TrimmedSlice(s: string)
    ensures var r := Trimmed(s);
      && (r == [] || (!IsSpace(r[0]) && !IsSpace(r[|r| - 1])))
      && exists i :: 0 <= i <= |s| - |r| && r == s[i..i + |r|]
                     && AllSpace(s[..i]) && AllSpace(s[i + |r|..])
  {
    var m := RTrimmed(s);
    var r := LTrimmed(m);
    RTrimmedShape(s);
    LTrimmedShape(m);
    var i := |m| - |r|;
    assert i + |r| == |m|;
    assert r == s[i..i + |r|];
    assert AllSpace(s[..i]) by {
      assert forall k :: 0 <= k < i ==> s[..i][k] == m[..i][k];
    }
    if r != [] {
      assert r[|r| - 1] == m[|m| - 1];
    }
  }

  /** Trimming gives "" exactly for an all-whitespace string. */
  lemma TrimmedEmpty(s: string)
    ensures Trimmed(s) == [] <==> AllSpace(s)
  {
    var m := RTrimmed(s);
    RTrimmedShape(s);
    LTrimmedShape(m);
    if Trimmed(s) == [] {
      assert m[..|m| - 0] == m;
      assert s[|m|..] == s;
    }
  }

  /** Trimming is idempotent. */
  lemma TrimmedIdempotent(s: string)
    ensures Trimmed(Trimmed(s)) == Trimmed(s)
  {
    var r := Trimmed(s);
    TrimmedSlice(s);
    if r != [] {
      assert RTrimmed(r) == r;
      assert LTrimmed(r) == r;
    }
  }

  // ---------------------------------------------------------------------
  // Newline termination
  // ---------------------------------------------------------------------

  /** The string made to end in a newline: "" stays "", a string already
      ending in '\n' is kept, and any other gets exactly one '\n' appended. */
  function NewlineTerminated(s: string): (r: string)
    ensures r == s || r == s + "\n"
    ensures r != [] <==> s != []
    ensures r != [] ==> r[|r| - 1] == '\n'
    ensures r == s + "\n" ==> s[|s| - 1] != '\n'
  {
    if s != [] && s[|s| - 1] != '\n' then s + "\n" else s
  }

  /** `newline`: pushes a '\n' onto a non-empty string that lacks one. */
  method Newline(s: string) returns (r: string)
    ensures r == NewlineTerminated(s)
  {
    r := s;
    if r != [] && r[|r| - 1] != '\n' {
      r := r + "\n";
    }
  }

  /** Newline termination is idempotent. */
  lemma NewlineIdempotent(s: string)
    ensures NewlineTerminated(NewlineTerminated(s)) == NewlineTerminated(s)
  {
  }

  // ---------------------------------------------------------------------
  // Home-directory expansion
  // ---------------------------------------------------------------------

  predicate IsAbsolute(p: string)
  {
    p != [] && p[0] == '/'
  }

  /** `std::filesystem::path` `operator/` on POSIX: an absolute right-hand side
      replaces the base; otherwise a '/' is inserted only when the base has a
      file name (is non-empty and does not end in '/'). */
  function PathAppend(base: string, p: string): (r: string)
    ensures IsAbsolute(p) ==> r == p
    ensures !IsAbsolute(p) ==>
      && |base| + |p| <= |r| <= |base| + |p| + 1
      && r[..|base|] == base && r[|r| - |p|..] == p
      && (base != [] ==> r[|r| - |p| - 1] == '/')
  {
    if IsAbsolute(p) then p
    else if base != [] && base[|base| - 1] != '/' then base + "/" + p
    else base + p
  }

  /** `expand_user_path` with the value of HOME passed in: "~" becomes HOME,
      "~/rest" becomes HOME joined with rest, and every other path (empty,
      not starting with '~', "~user", or HOME unset) is returned unchanged. */
  function ExpandUserPath(path: string, home: Option<string>): (r: string)
    ensures home.Some? && path == "~" ==> r == home.value
    ensures home.Some? && |path| >= 2 && path[..2] == "~/" ==> r == PathAppend(home.value, path[2..])
    ensures !(home.Some? && (path == "~" || (|path| >= 2 && path[..2] == "~/"))) ==> r == path
  {
    if path == [] || path[0] != '~' then path
    else if home.None? then path
    else if |path| == 1 then home.value
    else if path[1] == '/' then PathAppend(home.value, path[2..])
    else path
  }

  /** Expanding an already expanded path changes nothing, provided HOME is a
      non-empty path that does not itself start with '~'. */
  lemma ExpandIdempotent(path: string, home: Option<string>)
    requires home.Some? ==> home.value != [] && home.value[0] != '~'
    ensures ExpandUserPath(ExpandUserPath(path, home), home) == ExpandUserPath(path, home)
  {
    var r := ExpandUserPath(path, home);
    if home.Some? && |path| >= 2 && path[..2] == "~/" {
      var rest := path[2..];
      if !IsAbsolute(rest) {
        assert r[0] == home.value[0];
      }
    }
  }
}
