/**
  The Python string and path operations the installer plugins rely on:
  `str.split` with a one-character separator, `str.join`, `str.strip()`,
  `str.endswith`, the substring test `t in s`, and `os.path.join` /
  `os.path.split(p)[1]` on POSIX paths.
*/
module Text {

  /** The characters Python 2's `str.strip()` removes: space and '\t' .. '\r'. */
  predicate IsSpace(c: char) {
    c == ' ' || '\t' <= c <= '\r'
  }

  /** `s.split(sep)`: the maximal separator-free pieces, always at least one. */
  function Split(s: string, sep: char): (parts: seq<string>)
    ensures |parts| >= 1
    ensures forall i :: 0 <= i < |parts| ==> sep !in parts[i]
    decreases |s|
  {
    if |s| == 0 then [""]
    else
      var rest := Split(s[1..], sep);
      if s[0] == sep then [""] + rest
      else [[s[0]] + rest[0]] + rest[1..]
  }

  /** `sep.join(parts)` */
  function Join(parts: seq<string>, sep: char): string
    decreases |parts|
  {
    if |parts| == 0 then ""
    else if |parts| == 1 then parts[0]
    else parts[0] + [sep] + Join(parts[1..], sep)
  }

  /** Joining the pieces of a split gives back the original string. */
  lemma {:induction false} SplitJoin(s: string, sep: char)
    ensures Join(Split(s, sep), sep) == s
    decreases |s|
  {
    if |s| > 0 {
      var rest := Split(s[1..], sep);
      SplitJoin(s[1..], sep);
      if s[0] == sep {
        assert Split(s, sep) == [""] + rest;
        assert Join([""] + rest, sep) == "" + [sep] + Join(rest, sep);
        assert s == [s[0]] + s[1..];
      } else if |rest| == 1 {
        assert Split(s, sep) == [[s[0]] + rest[0]];
        assert s == [s[0]] + s[1..];
      } else {
        var parts := Split(s, sep);
        assert parts == [[s[0]] + rest[0]] + rest[1..];
        assert parts[1..] == rest[1..];
        assert Join(rest, sep) == rest[0] + [sep] + Join(rest[1..], sep);
        assert s == [s[0]] + s[1..];
      }
    }
  }

  /** A string without the separator splits into itself. */
  lemma {:induction false} SplitNoSeparator(p: string, sep: char)
    requires sep !in p
    ensures Split(p, sep) == [p]
    decreases |p|
  {
    if |p| > 0 {
      SplitNoSeparator(p[1..], sep);
      assert [p[0]] + p[1..] == p;
    }
  }

  /** Splitting `p + sep + t` splits off exactly `p` when `p` has no separator. */
  lemma {:induction false} SplitAfterPiece(p: string, t: string, sep: char)
    requires sep !in p
    ensures Split(p + [sep] + t, sep) == [p] + Split(t, sep)
    decreases |p|
  {
    var s := p + [sep] + t;
    if |p| == 0 {
      assert s[0] == sep && s[1..] == t;
    } else {
      SplitAfterPiece(p[1..], t, sep);
      assert s[0] == p[0] && s[1..] == p[1..] + [sep] + t;
      assert [p[0]] + p[1..] == p;
    }
  }

  /** Splitting a join of separator-free pieces gives back the pieces. */
  lemma {:induction false} JoinSplit(parts: seq<string>, sep: char)
    requires |parts| >= 1
    requires forall i :: 0 <= i < |parts| ==> sep !in parts[i]
    ensures Split(Join(parts, sep), sep) == parts
    decreases |parts|
  {
    if |parts| == 1 {
      SplitNoSeparator(parts[0], sep);
    } else {
      JoinSplit(parts[1..], sep);
      SplitAfterPiece(parts[0], Join(parts[1..], sep), sep);
      assert [parts[0]] + parts[1..] == parts;
    }
  }

  /** `value.split('/')[0]`: the part of a host value before any '/' qualifier. */
  function Cut(value: string): string {
    Split(value, '/')[0]
  }

  /** The first piece of a split is the prefix before the first separator. */
  lemma {:induction false} SplitHead(s: string, sep: char)
    ensures Split(s, sep)[0] <= s
    ensures |Split(s, sep)[0]| < |s| ==> s[|Split(s, sep)[0]|] == sep
    decreases |s|
  {
    if |s| > 0 && s[0] != sep {
      SplitHead(s[1..], sep);
    }
  }

  /** `Cut` keeps exactly the text before the first '/', or all of it. */
  lemma {:induction false} CutIsPrefixBeforeSlash(value: string)
    ensures '/' !in Cut(value)
    ensures Cut(value) <= value
    ensures Cut(value) == value <==> '/' !in value
    ensures Cut(value) != value ==> value[|Cut(value)|] == '/'
  {
    SplitHead(value, '/');
    var h := Cut(value);
    if '/' in value && h == value {
      assert false;
    }
    if h != value {
      assert |h| < |value|;
    }
  }

  function StripLeft(s: string): string
    decreases |s|
  {
    if |s| > 0 && IsSpace(s[0]) then StripLeft(s[1..]) else s
  }

  function StripRight(s: string): string
    decreases |s|
  {
    if |s| > 0 && IsSpace(s[|s| - 1]) then StripRight(s[..|s| - 1]) else s
  }

  /** `s.strip()` */
  function Strip(s: string): string {
    StripRight(StripLeft(s))
  }

  /** `StripLeft` drops exactly the leading whitespace. */
  lemma {:induction false} StripLeftIsSuffix(s: string)
    ensures |StripLeft(s)| <= |s| && StripLeft(s) == s[|s| - |StripLeft(s)|..]
    ensures forall i :: 0 <= i < |s| - |StripLeft(s)| ==> IsSpace(s[i])
    ensures StripLeft(s) == [] || !IsSpace(StripLeft(s)[0])
    decreases |s|
  {
    if |s| > 0 && IsSpace(s[0]) {
      StripLeftIsSuffix(s[1..]);
      forall i | 1 <= i < |s| - |StripLeft(s)| ensures IsSpace(s[i]) {
        assert s[i] == s[1..][i - 1];
      }
    }
  }

  /** `StripRight` drops exactly the trailing whitespace. */
  lemma {:induction false} StripRightIsPrefix(s: string)
    ensures |StripRight(s)| <= |s| && StripRight(s) == s[..|StripRight(s)|]
    ensures forall i :: |StripRight(s)| <= i < |s| ==> IsSpace(s[i])
    ensures StripRight(s) == [] || !IsSpace(StripRight(s)[|StripRight(s)| - 1])
    decreases |s|
  {
    if |s| > 0 && IsSpace(s[|s| - 1]) {
      var init := s[..|s| - 1];
      StripRightIsPrefix(init);
      forall i | |StripRight(s)| <= i < |s| - 1 ensures IsSpace(s[i]) {
        assert s[i] == init[i];
      }
    }
  }

  /** `Strip` removes exactly the leading and trailing whitespace: the result is
      the slice `s[i..j]`, everything outside it is whitespace, and the result
      neither starts nor ends with whitespace. */
  lemma {:induction false} StripIsTrimmedSlice(s: string) returns (i: nat, j: nat)
    ensures i <= j <= |s| && Strip(s) == s[i..j]
    ensures forall k :: 0 <= k < i ==> IsSpace(s[k])
    ensures forall k :: j <= k < |s| ==> IsSpace(s[k])
    ensures Strip(s) == [] || (!IsSpace(Strip(s)[0]) && !IsSpace(Strip(s)[|Strip(s)| - 1]))
  {
    var l := StripLeft(s);
    var r := StripRight(l);
    StripLeftIsSuffix(s);
    StripRightIsPrefix(l);
    i := |s| - |l|;
    j := i + |r|;
    assert Strip(s) == s[i..j] by {
      assert l == s[i..];
      assert r == l[..|r|];
    }
    forall k | j <= k < |s| ensures IsSpace(s[k]) {
      assert s[k] == l[k - i];
    }
    assert r != [] ==> r[0] == l[0];
  }

  /** Concatenation regroups freely; stated over plain sequences so that callers whose
      pieces are long literals need not prove it element by element. */
  lemma {:induction false} ConcatAssoc<T>(a: seq<T>, b: seq<T>, c: seq<T>)
    ensures (a + b) + c == a + (b + c)
  {
  }

  /** `s.endswith(suffix)` */
  predicate EndsWith(s: string, suffix: string) {
    |suffix| <= |s| && s[|s| - |suffix|..] == suffix
  }

  /** Python's substring test `t in s`. */
  predicate IsInfix(t: string, s: string)
    decreases |s|
  {
    t <= s || (|s| > 0 && IsInfix(t, s[1..]))
  }

  lemma {:induction false} InfixOfConcat(a: string, t: string, b: string)
    ensures IsInfix(t, a + t + b)
    decreases |a|
  {
    if |a| > 0 {
      InfixOfConcat(a[1..], t, b);
      assert (a + t + b)[1..] == a[1..] + t + b;
    }
  }

  /** A substring of `s` is a substring of `x + s + y`. */
  lemma {:induction false} InfixWithin(t: string, s: string, x: string, y: string)
    requires IsInfix(t, s)
    ensures IsInfix(t, x + s + y)
    decreases |x| + |s|
  {
    if |x| > 0 {
      InfixWithin(t, s, x[1..], y);
      assert (x + s + y)[1..] == x[1..] + s + y;
    } else if t <= s {
      assert x + s + y == s + y;
    } else {
      InfixWithin(t, s[1..], x, y);
      assert x + s[1..] + y == s[1..] + y;
      assert x + s + y == s + y;
      assert (s + y)[1..] == s[1..] + y;
    }
  }

  /** `os.path.split(p)[1]`: everything after the last '/'. */
  function Basename(p: string): string
    decreases |p|
  {
    if |p| == 0 || p[|p| - 1] == '/' then "" else Basename(p[..|p| - 1]) + [p[|p| - 1]]
  }

  /** The basename is the '/'-free tail of the path, and it starts right after a '/'
      unless it is the whole path. */
  lemma {:induction false} BasenameIsLastSegment(p: string)
    ensures '/' !in Basename(p)
    ensures |Basename(p)| <= |p| && Basename(p) == p[|p| - |Basename(p)|..]
    ensures |Basename(p)| < |p| ==> p[|p| - |Basename(p)| - 1] == '/'
    decreases |p|
  {
    if |p| > 0 && p[|p| - 1] != '/' {
      var init := p[..|p| - 1];
      BasenameIsLastSegment(init);
      var b := Basename(init);
      assert Basename(p) == b + [p[|p| - 1]];
      assert init[|init| - |b|..] + [p[|p| - 1]] == p[|p| - |b| - 1..];
    }
  }

  /** `os.path.join(a, b)` on POSIX. */
  function PathJoin(a: string, b: string): string {
    if |b| > 0 && b[0] == '/' then b
    else if a == "" || a[|a| - 1] == '/' then a + b
    else a + "/" + b
  }

  /** The basename of `dir + b`, where `dir` is empty or ends in '/', is `b`. */
  lemma {:induction false} BasenameAfterSlash(dir: string, b: string)
    requires dir == "" || dir[|dir| - 1] == '/'
    requires '/' !in b
    ensures Basename(dir + b) == b
  {
    var p := dir + b;
    var r := Basename(p);
    BasenameIsLastSegment(p);
    assert forall k :: |dir| <= k < |p| ==> p[k] == b[k - |dir|];
    assert dir != "" ==> p[|dir| - 1] == '/';
    assert forall k :: 0 <= k < |r| ==> r[k] == p[|p| - |r| + k];
    if |r| != |b| {
      assert false;
    }
    assert r == p[|dir|..] == b;
  }

  /** Splitting a joined path gives back a '/'-free name. */
  lemma {:induction false} BasenameOfPathJoin(dir: string, name: string)
    requires '/' !in name
    ensures Basename(PathJoin(dir, name)) == name
  {
    if dir == "" || dir[|dir| - 1] == '/' {
      BasenameAfterSlash(dir, name);
    } else {
      assert PathJoin(dir, name) == (dir + "/") + name;
      BasenameAfterSlash(dir + "/", name);
    }
  }
}
