/** The few Python string operations the pipeline relies on, over `seq<char>`:
    `s.startswith(p)`, `s.find(sub)`, `sub in s`, `s.split(sep)` and
    `os.path.basename(p)`. */
module PyStr {
  import opened Outcomes

  /** `s.startswith(p)` */
  predicate StartsWith(s: string, p: string) {
    |p| <= |s| && s[..|p|] == p
  }

  /** `sub` occurs in `s` starting at index `j`. */
  predicate OccursAt(s: string, sub: string, j: int) {
    0 <= j && j + |sub| <= |s| && s[j..j + |sub|] == sub
  }

  /** An occurrence begins with the first character of `sub`. */
  lemma OccursAtHead(s: string, sub: string, j: int)
    ensures OccursAt(s, sub, j) && sub != [] ==> s[j] == sub[0]
  {
    if OccursAt(s, sub, j) && sub != [] { assert s[j..j + |sub|][0] == s[j]; }
  }

  /** A prefix holds no character its string does not. */
  lemma CharNotInPrefix(s: string, p: string, c: char)
    requires StartsWith(s, p) && c !in s
    ensures c !in p
  {
    forall i | 0 <= i < |p| ensures p[i] != c {
      assert p[i] == s[..|p|][i] == s[i];
    }
  }

  /** A character in neither part is not in the concatenation. */
  lemma CharNotInConcat(a: string, b: string, c: char)
    requires c !in a && c !in b
    ensures c !in a + b
  {
    forall i | 0 <= i < |a + b| ensures (a + b)[i] != c {
      if i < |a| { assert (a + b)[i] == a[i]; } else { assert (a + b)[i] == b[i - |a|]; }
    }
  }

  lemma OccursAtStart(s: string, sub: string)
    ensures OccursAt(s, sub, 0) <==> StartsWith(s, sub)
  {
    if |sub| <= |s| { assert s[0..|sub|] == s[..|sub|]; }
  }

  lemma SliceOfTail(s: string, j: nat, n: nat)
    requires s != [] && j + 1 + n <= |s|
    ensures s[j + 1..j + 1 + n] == s[1..][j..j + n]
  {
    var a, b := s[j + 1..j + 1 + n], s[1..][j..j + n];
    assert forall k :: 0 <= k < n ==> a[k] == b[k];
  }

  lemma OccursAtTail(s: string, sub: string)
    requires s != []
    ensures forall j :: 0 <= j ==> (OccursAt(s, sub, j + 1) <==> OccursAt(s[1..], sub, j))
    ensures forall j :: 1 <= j ==> (OccursAt(s, sub, j) <==> OccursAt(s[1..], sub, j - 1))
  {
    forall j | 0 <= j
      ensures OccursAt(s, sub, j + 1) <==> OccursAt(s[1..], sub, j)
    {
      if j + 1 + |sub| <= |s| {
        SliceOfTail(s, j, |sub|);
      }
    }
  }

  /** `s.find(sub)`: the index of the first occurrence, None where Python gives -1. */
  function Find(s: string, sub: string): (r: Option<nat>)
    ensures r.Some? ==> r.value + |sub| <= |s|
    decreases |s|
  {
    if StartsWith(s, sub) then Some(0)
    else if s == [] then None
    else match Find(s[1..], sub)
      case None => None
      case Some(i) => Some(i + 1)
  }

  /** Find returns the first index at which `sub` occurs, and None exactly
      when it occurs nowhere. */
  lemma {:induction false} FindIsFirst(s: string, sub: string)
    ensures Find(s, sub).Some? ==> OccursAt(s, sub, Find(s, sub).value)
    ensures Find(s, sub).Some? ==> forall j :: 0 <= j < Find(s, sub).value ==> !OccursAt(s, sub, j)
    ensures Find(s, sub).None? ==> forall j :: 0 <= j <= |s| ==> !OccursAt(s, sub, j)
    decreases |s|
  {
    OccursAtStart(s, sub);
    if !StartsWith(s, sub) && s != [] {
      FindIsFirst(s[1..], sub);
      OccursAtTail(s, sub);
    }
  }

  /** Python's `sub in s` for strings. */
  predicate Contains(s: string, sub: string) {
    Find(s, sub).Some?
  }

  lemma ContainsIff(s: string, sub: string)
    ensures Contains(s, sub) <==> exists j :: 0 <= j <= |s| && OccursAt(s, sub, j)
  {
    FindIsFirst(s, sub);
  }

  /** A string contains whatever any of its suffixes starts with. */
  lemma ContainsPrefixOfSuffix(s: string, j: nat, k: string)
    requires j <= |s| && StartsWith(s[j..], k)
    ensures Contains(s, k)
  {
    assert s[j..][..|k|] == s[j..j + |k|];
    assert OccursAt(s, k, j);
    FindIsFirst(s, k);
  }

  /** `s.split(sep)` for a non-empty separator: the pieces between the
      non-overlapping occurrences of `sep`, scanning left to right. */
  function Split(s: string, sep: string): (parts: seq<string>)
    requires sep != []
    ensures |parts| >= 1
    decreases |s|
  {
    match Find(s, sep)
    case None => [s]
    case Some(i) => [s[..i]] + Split(s[i + |sep|..], sep)
  }

  /** `sep.join(parts)` */
  function Join(parts: seq<string>, sep: string): string
    requires |parts| >= 1
  {
    if |parts| == 1 then parts[0] else parts[0] + sep + Join(parts[1..], sep)
  }

  /** Splitting and joining again gives the string back: the pieces are exactly
      the text between the occurrences of `sep`. */
  lemma {:induction false} SplitJoin(s: string, sep: string)
    requires sep != []
    ensures Join(Split(s, sep), sep) == s
    decreases |s|
  {
    FindIsFirst(s, sep);
    match Find(s, sep)
    case None =>
    case Some(i) =>
      var rest := s[i + |sep|..];
      SplitJoin(rest, sep);
      assert s == s[..i] + sep + rest by { assert OccursAt(s, sep, i); }
      SplitAtFirst(s, sep, i);
  }

  /** No piece of a split contains the separator. */
  lemma {:induction false} SplitPiecesFree(s: string, sep: string)
    requires sep != []
    ensures forall k :: 0 <= k < |Split(s, sep)| ==> !Contains(Split(s, sep)[k], sep)
    decreases |s|
  {
    FindIsFirst(s, sep);
    match Find(s, sep)
    case None =>
    case Some(i) =>
      var rest := s[i + |sep|..];
      SplitPiecesFree(rest, sep);
      SplitAtFirst(s, sep, i);
      PieceBeforeFirstIsFree(s, sep, i);
      var parts := Split(s, sep);
      forall k | 1 <= k < |parts|
        ensures !Contains(parts[k], sep)
      {
        assert parts[k] == parts[1..][k - 1];
      }
  }

  /** Where the separator occurs first at `i`, the first piece of a split is
      the text before it and the other pieces are the split of what follows it. */
  lemma SplitAtFirst(s: string, sep: string, i: nat)
    requires sep != [] && Find(s, sep) == Some(i)
    ensures |Split(s, sep)| >= 2 && Split(s, sep)[0] == s[..i]
    ensures Split(s, sep)[1..] == Split(s[i + |sep|..], sep)
  {
    SplitUnfold(s, sep, i);
  }

  lemma SplitUnfold(s: string, sep: string, i: nat)
    requires sep != [] && Find(s, sep) == Some(i)
    ensures Split(s, sep) == [s[..i]] + Split(s[i + |sep|..], sep)
  {
  }

  /** The text before the first occurrence of `sep` does not contain `sep`. */
  lemma PieceBeforeFirstIsFree(s: string, sep: string, i: nat)
    requires sep != [] && Find(s, sep) == Some(i)
    ensures !Contains(s[..i], sep)
  {
    FindIsFirst(s, sep);
    var p := s[..i];
    FindIsFirst(p, sep);
    if Contains(p, sep) {
      OccursInPrefix(s, sep, i, Find(p, sep).value);
    }
  }

  lemma OccursInPrefix(s: string, sub: string, i: nat, j: nat)
    requires i <= |s| && OccursAt(s[..i], sub, j)
    ensures OccursAt(s, sub, j)
  {
    assert s[..i][j..j + |sub|] == s[j..j + |sub|];
  }

  /** The first piece of `s.split(sep)` is a prefix of `s` free of `sep`, and
      it is followed in `s` by `sep` unless it is all of `s`. */
  lemma FirstPieceShape(s: string, sep: string)
    requires sep != []
    ensures StartsWith(s, Split(s, sep)[0])
    ensures !Contains(Split(s, sep)[0], sep)
    ensures |Split(s, sep)[0]| < |s| ==> OccursAt(s, sep, |Split(s, sep)[0]|)
  {
    FindIsFirst(s, sep);
    match Find(s, sep)
    case None =>
      assert Split(s, sep) == [s];
      assert s[..|s|] == s;
    case Some(i) =>
      SplitAtFirst(s, sep, i);
      PieceBeforeFirstIsFree(s, sep, i);
  }

  /** The first piece of the split is a prefix of the text. */
  lemma FirstPiecePrefix(s: string, sep: string)
    requires sep != []
    ensures StartsWith(s, Split(s, sep)[0])
  {
    match Find(s, sep)
    case None =>
      assert Split(s, sep) == [s];
      assert s[..|s|] == s;
    case Some(i) =>
      SplitAtFirst(s, sep, i);
  }

  /** The first piece is empty exactly when `s` is empty or starts with the separator. */
  lemma FirstPieceEmpty(s: string, sep: string)
    requires sep != []
    ensures Split(s, sep)[0] == [] <==> s == [] || StartsWith(s, sep)
  {
    FindIsFirst(s, sep);
    OccursAtStart(s, sep);
    match Find(s, sep)
    case None =>
      assert Split(s, sep) == [s];
    case Some(i) =>
      SplitAtFirst(s, sep, i);
  }

  /** `os.path.basename(p)`: the text after the last '/'. */
  function Basename(p: string): string
    decreases |p|
  {
    if p == [] || p[|p| - 1] == '/' then []
    else Basename(p[..|p| - 1]) + [p[|p| - 1]]
  }

  /** The basename is the longest suffix of `p` without a '/': a suffix, free
      of '/', and preceded by a '/' whenever it is not all of `p`. */
  lemma {:induction false} BasenameIsLastSegment(p: string)
    ensures '/' !in Basename(p)
    ensures |Basename(p)| <= |p| && p[|p| - |Basename(p)|..] == Basename(p)
    ensures |Basename(p)| < |p| ==> p[|p| - |Basename(p)| - 1] == '/'
    decreases |p|
  {
    if p != [] && p[|p| - 1] != '/' {
      var q := p[..|p| - 1];
      var b' := Basename(q);
      BasenameIsLastSegment(q);
      assert Basename(p) == b' + [p[|p| - 1]];
      LastSegmentStep(p, q, b', Basename(p));
    }
  }

  /** The step of BasenameIsLastSegment: a last segment `b` of `q`, `p`
      without its last character, extended by that character (not a '/'),
      is one of `p`. */
  lemma LastSegmentStep(p: string, q: string, b: string, e: string)
    requires p != [] && p[|p| - 1] != '/' && q == p[..|p| - 1] && e == b + [p[|p| - 1]]
    requires '/' !in b && |b| <= |q| && q[|q| - |b|..] == b
    requires |b| < |q| ==> q[|q| - |b| - 1] == '/'
    ensures '/' !in e && |e| <= |p| && p[|p| - |e|..] == e
    ensures |e| < |p| ==> p[|p| - |e| - 1] == '/'
  {
    assert p[|p| - |b| - 1..] == q[|q| - |b|..] + [p[|p| - 1]];
    if |b| < |q| {
      assert p[|p| - |b| - 2] == q[|q| - |b| - 1];
    }
  }

  /** Everything up to and including the last '/', so that `p == Head(p) + Basename(p)`. */
  function Head(p: string): (h: string)
    ensures p == h + Basename(p)
    ensures h == [] || h[|h| - 1] == '/'
  {
    BasenameIsLastSegment(p);
    var h := p[..|p| - |Basename(p)|];
    assert p == h + p[|p| - |Basename(p)|..];
    h
  }

  /** The basename of `dir + "/" + name` is `name` when `name` has no '/'. */
  lemma {:induction false} BasenameOfJoin(dir: string, name: string)
    requires '/' !in name
    ensures Basename(dir + "/" + name) == name
    decreases |name|
  {
    var p := dir + "/" + name;
    if name == [] {
      assert p[|p| - 1] == '/';
    } else {
      var init := name[..|name| - 1];
      assert name == init + [name[|name| - 1]];
      assert p[..|p| - 1] == dir + "/" + init;
      assert p[|p| - 1] == name[|name| - 1];
      assert '/' !in init by {
        forall k | 0 <= k < |init| ensures init[k] != '/' {
          assert init[k] == name[k];
        }
      }
      BasenameOfJoin(dir, init);
    }
  }
  /** A path without '/' is its own basename. */
  lemma {:induction false} BasenameWithoutSlash(p: string)
    requires '/' !in p
    ensures Basename(p) == p
    decreases |p|
  {
    if p != [] {
      BasenameWithoutSlash(p[..|p| - 1]);
      assert p[..|p| - 1] + [p[|p| - 1]] == p;
    }
  }

  /** `os.path.join(a, b)` with two arguments: an absolute `b` replaces `a`,
      otherwise a '/' is put between them unless `a` is empty or ends with one. */
  function PathJoin(a: string, b: string): string {
    if StartsWith(b, "/") then b
    else if a == [] || a[|a| - 1] == '/' then a + b
    else a + "/" + b
  }

  /** Joining a plain file name onto a directory keeps the name as the basename. */
  lemma BasenameOfPathJoin(a: string, b: string)
    requires '/' !in b
    ensures Basename(PathJoin(a, b)) == b
  {
    if |b| >= 1 { assert b[..1][0] == b[0]; }
    if a == [] {
      assert PathJoin(a, b) == b;
      BasenameWithoutSlash(b);
    } else if a[|a| - 1] == '/' {
      BasenameOfJoin(a[..|a| - 1], b);
      assert a[..|a| - 1] + "/" == a;
    } else {
      BasenameOfJoin(a, b);
    }
  }
}
