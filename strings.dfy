/**
 * The few Python string operations the synchronisation code relies on,
 * with Python's own semantics: `str.split(sep)` (always at least one piece,
 * empty pieces kept), `str.replace` on a single character, `startswith`,
 * `endswith`, the `in` substring test, `'/'.join` and `os.path.dirname`
 * (POSIX flavour, on paths whose separators were already turned into '/').
 */
module Strings {

  datatype Option<T> = None | Some(value: T)

  /** `s.replace(from, to)` for one-character arguments. */
  function Replace(s: string, from: char, to: char): (r: string)
    ensures |r| == |s|
    ensures forall i :: 0 <= i < |s| ==> r[i] == (if s[i] == from then to else s[i])
    ensures from != to ==> from !in r
  {
    if s == [] then [] else [if s[0] == from then to else s[0]] + Replace(s[1..], from, to)
  }

  /** `sep.join(parts)` */
  function Join(parts: seq<string>, sep: char): string
  {
    if parts == [] then "" else parts[0] + JoinTail(parts[1..], sep)
  }

  function JoinTail(parts: seq<string>, sep: char): string
  {
    if parts == [] then "" else [sep] + parts[0] + JoinTail(parts[1..], sep)
  }

  /** `s.split(sep)`: the pieces between separators, empty ones included. */
  function Split(s: string, sep: char): (r: seq<string>)
    ensures |r| >= 1
    ensures forall i :: 0 <= i < |r| ==> sep !in r[i]
    ensures Join(r, sep) == s
    decreases |s|
  {
    if s == [] then [""]
    else
      var rest := Split(s[1..], sep);
      if s[0] == sep then
        assert Join([""] + rest, sep) == [sep] + Join(rest, sep);
        [""] + rest
      else
        assert Join([[s[0]] + rest[0]] + rest[1..], sep) == [s[0]] + Join(rest, sep);
        [[s[0]] + rest[0]] + rest[1..]
  }

  /**
   * Split is the only way of cutting `s` at its separators: any non-empty
   * list of separator-free pieces that joins back to `s` is `Split(s, sep)`.
   */
  lemma {:induction false} SplitUnique(parts: seq<string>, sep: char, s: string)
    requires |parts| >= 1
    requires forall i :: 0 <= i < |parts| ==> sep !in parts[i]
    requires Join(parts, sep) == s
    ensures Split(s, sep) == parts
    decreases |s|
  {
    if parts[0] == [] {
      if |parts| == 1 {
        assert s == "";
      } else {
        var tail := parts[1..];
        assert Join(parts, sep) == [sep] + Join(tail, sep);
        assert s[0] == sep && s[1..] == Join(tail, sep);
        SplitUnique(tail, sep, s[1..]);
        assert parts == [""] + tail;
      }
    } else {
      var c := parts[0][0];
      var shorter := [parts[0][1..]] + parts[1..];
      assert parts[0] == [c] + parts[0][1..];
      assert Join(parts, sep) == [c] + Join(shorter, sep);
      assert c != sep by { assert parts[0][0] in parts[0]; }
      forall i | 0 <= i < |shorter| ensures sep !in shorter[i] {
        if i == 0 {
          assert forall x :: x in parts[0][1..] ==> x in parts[0];
        } else {
          assert shorter[i] == parts[i];
        }
      }
      SplitUnique(shorter, sep, s[1..]);
      assert parts == [[c] + shorter[0]] + shorter[1..];
    }
  }

  /** `x` occurs in `s` at index `i` with a separator or an end of `s` on both sides. */
  predicate Delimited(s: string, x: string, i: int, sep: char)
  {
    && 0 <= i && i + |x| <= |s| && s[i..i + |x|] == x
    && (i == 0 || s[i - 1] == sep)
    && (i + |x| == |s| || s[i + |x|] == sep)
  }

  /** Every element of `s` between `a` and `b` is an element of the slice `s[a..b]`. */
  lemma SliceElements(s: string, a: int, b: int)
    requires 0 <= a <= b <= |s|
    ensures forall k :: a <= k < b ==> s[k] in s[a..b]
  {
    forall k | a <= k < b ensures s[k] in s[a..b] {
      assert s[a..b][k - a] == s[k];
    }
  }

  /** Inside one separator-free piece the only delimited occurrence is the whole piece. */
  lemma DelimitedInPiece(p: string, sep: char, x: string, i: int)
    requires sep !in p && sep !in x
    ensures Delimited(p, x, i, sep) <==> i == 0 && x == p
  {
    if Delimited(p, x, i, sep) {
      assert forall k :: 0 <= k < |p| ==> p[k] != sep;
      assert i == 0 && |x| == |p|;
    }
    if i == 0 && x == p {
      assert p[..|p|] == p;
    }
  }

  /** In `p + [sep] + t`, a delimited occurrence starting within `p` is `p` itself. */
  lemma DelimitedInHead(p: string, t: string, sep: char, x: string, i: int)
    requires sep !in p && sep !in x && 0 <= i <= |p|
    ensures Delimited(p + [sep] + t, x, i, sep) <==> i == 0 && x == p
  {
    var s := p + [sep] + t;
    assert forall k :: 0 <= k < |p| ==> s[k] == p[k] && p[k] != sep;
    assert s[|p|] == sep;
    if Delimited(s, x, i, sep) {
      SliceElements(s, i, i + |x|);
      assert i == 0;
      assert |x| == |p|;
      assert x == s[..|p|];
    }
    if i == 0 && x == p {
      assert s[..|p|] == p;
    }
  }

  /** In `p + [sep] + t`, a delimited occurrence past `p` is one in `t`, shifted. */
  lemma DelimitedInTail(p: string, t: string, sep: char, x: string, i: int)
    requires i > |p|
    ensures Delimited(p + [sep] + t, x, i, sep) <==> Delimited(t, x, i - |p| - 1, sep)
  {
    var s := p + [sep] + t;
    var j := i - |p| - 1;
    if 0 <= j && j + |x| <= |t| {
      assert t[j..j + |x|] == s[i..i + |x|];
      assert j > 0 ==> t[j - 1] == s[i - 1];
      assert j + |x| < |t| ==> t[j + |x|] == s[i + |x|];
    }
  }

  /** The separator-free pieces of a joined string are exactly its delimited occurrences. */
  lemma {:induction false} JoinSegmentsDelimited(parts: seq<string>, sep: char, x: string)
    requires |parts| >= 1
    requires forall i :: 0 <= i < |parts| ==> sep !in parts[i]
    requires sep !in x
    ensures x in parts <==> exists i :: Delimited(Join(parts, sep), x, i, sep)
    decreases |parts|
  {
    var p := parts[0];
    var s := Join(parts, sep);
    if |parts| == 1 {
      assert s == p;
      if x in parts {
        DelimitedInPiece(p, sep, x, 0);
      }
      if exists i :: Delimited(s, x, i, sep) {
        var i :| Delimited(s, x, i, sep);
        DelimitedInPiece(p, sep, x, i);
      }
    } else {
      var tail := parts[1..];
      var t := Join(tail, sep);
      assert JoinTail(tail, sep) == [sep] + t;
      assert s == p + [sep] + t;
      assert forall i :: 0 <= i < |tail| ==> tail[i] == parts[i + 1];
      JoinSegmentsDelimited(tail, sep, x);
      assert x in parts <==> x == p || x in tail by {
        assert parts == [p] + tail;
      }
      ConsDelimited(p, t, sep, x, x in tail);
    }
  }

  /** One more piece in front: its delimited occurrences are it and those of the rest, shifted. */
  lemma ConsDelimited(p: string, t: string, sep: char, x: string, inTail: bool)
    requires sep !in p && sep !in x
    requires inTail <==> exists j :: Delimited(t, x, j, sep)
    ensures (x == p || inTail) <==> exists i :: Delimited(p + [sep] + t, x, i, sep)
  {
    var s := p + [sep] + t;
    if x == p {
      DelimitedInHead(p, t, sep, x, 0);
    } else if inTail {
      var j :| Delimited(t, x, j, sep);
      DelimitedInTail(p, t, sep, x, j + |p| + 1);
    }
    if exists i :: Delimited(s, x, i, sep) {
      var i :| Delimited(s, x, i, sep);
      if i <= |p| {
        DelimitedInHead(p, t, sep, x, i);
      } else {
        DelimitedInTail(p, t, sep, x, i);
      }
    }
  }

  /**
   * `x in s.split(sep)`, for a separator-free `x`, means `x` occurs in `s`
   * between separators or the ends of `s`.
   */
  lemma SplitSegmentsDelimited(s: string, sep: char, x: string)
    requires sep !in x
    ensures x in Split(s, sep) <==> exists i :: Delimited(s, x, i, sep)
  {
    JoinSegmentsDelimited(Split(s, sep), sep, x);
  }

  /** The non-empty pieces of a split, in order (Python's `if not part: continue`). */
  function NonEmpty(parts: seq<string>): (r: seq<string>)
    ensures |r| <= |parts|
    ensures forall i :: 0 <= i < |r| ==> r[i] != "" && r[i] in parts
    ensures forall x :: x in parts && x != "" ==> x in r
  {
    if parts == [] then []
    else if parts[0] == "" then NonEmpty(parts[1..])
    else [parts[0]] + NonEmpty(parts[1..])
  }

  /** The non-empty '/'-separated components of a path. */
  function Components(p: string): seq<string>
  {
    NonEmpty(Split(p, '/'))
  }

  function StartsWith(s: string, prefix: string): bool
  {
    |prefix| <= |s| && s[..|prefix|] == prefix
  }

  function EndsWith(s: string, suffix: string): bool
  {
    |suffix| <= |s| && s[|s| - |suffix|..] == suffix
  }

  /** `sub` occurs in `s` starting at index `i`. */
  predicate OccursAt(s: string, sub: string, i: int)
  {
    0 <= i && i + |sub| <= |s| && s[i..i + |sub|] == sub
  }

  /** Python's `sub in s`. */
  function Contains(s: string, sub: string): (r: bool)
    ensures r <==> exists i :: OccursAt(s, sub, i)
    decreases |s|
  {
    if StartsWith(s, sub) then
      assert OccursAt(s, sub, 0);
      true
    else if |s| <= |sub| then
      NoRoomLeft(s, sub);
      false
    else
      ShiftOccurrences(s, sub);
      Contains(s[1..], sub)
  }

  /** With no room past the start, `sub` can only occur at the start. */
  lemma NoRoomLeft(s: string, sub: string)
    requires !StartsWith(s, sub) && |s| <= |sub|
    ensures !exists i :: OccursAt(s, sub, i)
  {
    assert forall i :: OccursAt(s, sub, i) ==> i == 0;
  }

  /** Off the start, the occurrences of `sub` in `s` are those in `s[1..]`, one place later. */
  lemma ShiftOccurrences(s: string, sub: string)
    requires !StartsWith(s, sub) && |s| > 0
    ensures (exists i :: OccursAt(s, sub, i)) <==> (exists i :: OccursAt(s[1..], sub, i))
  {
    if exists i :: OccursAt(s[1..], sub, i) {
      var i :| OccursAt(s[1..], sub, i);
      assert s[i + 1..i + 1 + |sub|] == s[1..][i..i + |sub|];
      assert OccursAt(s, sub, i + 1);
    }
    if exists i :: OccursAt(s, sub, i) {
      var i :| OccursAt(s, sub, i);
      assert i != 0;
      assert s[1..][i - 1..i - 1 + |sub|] == s[i..i + |sub|];
      assert OccursAt(s[1..], sub, i - 1);
    }
  }

  /** Containment is transitive: whatever is inside a piece of `s` is inside `s`. */
  lemma ContainsTrans(s: string, mid: string, sub: string)
    requires Contains(s, mid) && Contains(mid, sub)
    ensures Contains(s, sub)
  {
    var i :| OccursAt(s, mid, i);
    var j :| OccursAt(mid, sub, j);
    forall k | 0 <= k < |sub| ensures s[i + j + k] == sub[k] {
      assert sub[k] == mid[j + k] == s[i + j + k];
    }
    assert s[i + j..i + j + |sub|] == sub;
    assert OccursAt(s, sub, i + j);
  }

  /** Index of the last `c` in `s`, or -1 (Python's `rfind`). */
  function RFind(s: string, c: char): (r: int)
    ensures -1 <= r < |s|
    ensures r >= 0 ==> s[r] == c
    ensures forall i :: r < i < |s| ==> s[i] != c
  {
    if s == [] then -1
    else if s[|s| - 1] == c then |s| - 1
    else RFind(s[..|s| - 1], c)
  }

  /** `s.rstrip(c)` */
  function RStrip(s: string, c: char): (r: string)
    ensures |r| <= |s| && r == s[..|r|]
    ensures r == [] || r[|r| - 1] != c
    ensures forall i :: |r| <= i < |s| ==> s[i] == c
  {
    if s == [] || s[|s| - 1] != c then s else RStrip(s[..|s| - 1], c)
  }

  /**
   * `posixpath.dirname(p)`: everything up to the last '/', with the
   * trailing slashes removed unless the head consists of slashes only.
   */
  function Dirname(p: string): (r: string)
    ensures r == [] <==> '/' !in p
    ensures |r| <= |p| && r == p[..|r|]
  {
    var head := p[..RFind(p, '/') + 1];
    if head != [] && exists i :: 0 <= i < |head| && head[i] != '/' then
      var r := RStrip(head, '/');
      assert r != [] by {
        var i :| 0 <= i < |head| && head[i] != '/';
        assert |r| > i;
      }
      r
    else
      assert '/' in p ==> head != [] by {
        if '/' in p {
          var k :| 0 <= k < |p| && p[k] == '/';
          assert RFind(p, '/') >= k;
        }
      }
      assert head != [] ==> '/' in p by {
        if head != [] { assert p[RFind(p, '/')] == '/'; }
      }
      head
  }
}
