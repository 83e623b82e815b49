/** The two JavaScript string primitives the page relies on, over `seq<char>`:
    `s.split(' ')` and `s.includes(sub)`. */
module Text {

  /** `s.split(' ')`: the pieces of `s` between its spaces, in order.
      There is always at least one piece, and no piece holds a space.
      The first piece is the text of `s` up to (not including) its first
      space, or all of `s` when it has none. */
  function SplitOnSpace(s: string): (parts: seq<string>)
    ensures |parts| >= 1
    ensures forall k :: 0 <= k < |parts| ==> ' ' !in parts[k]
    ensures parts[0] <= s
    ensures |parts[0]| < |s| ==> s[|parts[0]|] == ' '
    decreases |s|
  {
    if s == [] then [""]
    else
      var rest := SplitOnSpace(s[1..]);
      if s[0] == ' ' then [""] + rest
      else [[s[0]] + rest[0]] + rest[1..]
  }

  /** `parts.join(' ')`, the inverse of `SplitOnSpace` */
  function JoinWithSpace(parts: seq<string>): string
    requires |parts| >= 1
    decreases |parts|
  {
    if |parts| == 1 then parts[0]
    else parts[0] + " " + JoinWithSpace(parts[1..])
  }

  /** Splitting loses nothing: joining the pieces back with single spaces
      gives the original string. */
  lemma {:induction false} JoinSplit(s: string)
    ensures JoinWithSpace(SplitOnSpace(s)) == s
    decreases |s|
  {
    if s != [] {
      var rest := SplitOnSpace(s[1..]);
      JoinSplit(s[1..]);
      if s[0] == ' ' {
        assert ([""] + rest)[1..] == rest;
      } else {
        var parts := [[s[0]] + rest[0]] + rest[1..];
        if |rest| == 1 {
          assert parts == [[s[0]] + rest[0]];
        } else {
          assert parts[1..] == rest[1..];
          assert JoinWithSpace(rest) == rest[0] + " " + JoinWithSpace(rest[1..]);
        }
      }
    }
  }

  /** A string without spaces splits into itself alone. */
  lemma {:induction false} SplitSpaceFree(p: string)
    requires ' ' !in p
    ensures SplitOnSpace(p) == [p]
    decreases |p|
  {
    if p != [] {
      assert ' ' !in p[1..] by {
        forall k | 0 <= k < |p[1..]| ensures p[1..][k] != ' ' {
          assert p[1..][k] == p[k + 1];
        }
      }
      SplitSpaceFree(p[1..]);
      assert [p[0]] + p[1..] == p;
    }
  }

  /** Splitting `p + " " + t` for a space-free `p` yields `p` followed by
      the pieces of `t`. */
  lemma {:induction false} SplitAfterWord(p: string, t: string)
    requires ' ' !in p
    ensures SplitOnSpace(p + " " + t) == [p] + SplitOnSpace(t)
    decreases |p|
  {
    var s := p + " " + t;
    if p == [] {
      assert s[0] == ' ' && s[1..] == t;
    } else {
      assert s[0] == p[0];
      assert s[1..] == p[1..] + " " + t;
      assert ' ' !in p[1..] by {
        forall k | 0 <= k < |p[1..]| ensures p[1..][k] != ' ' {
          assert p[1..][k] == p[k + 1];
        }
      }
      SplitAfterWord(p[1..], t);
      assert [p[0]] + p[1..] == p;
    }
  }

  /** Joining space-free pieces and splitting again gives the pieces back. */
  lemma {:induction false} SplitJoin(parts: seq<string>)
    requires |parts| >= 1
    requires forall k :: 0 <= k < |parts| ==> ' ' !in parts[k]
    ensures SplitOnSpace(JoinWithSpace(parts)) == parts
    decreases |parts|
  {
    if |parts| == 1 {
      SplitSpaceFree(parts[0]);
    } else {
      SplitJoin(parts[1..]);
      SplitAfterWord(parts[0], JoinWithSpace(parts[1..]));
      assert [parts[0]] + parts[1..] == parts;
    }
  }

  /** `sub` appears in `s` starting at index `i` */
  predicate OccursAt(s: string, sub: string, i: int) {
    0 <= i && i + |sub| <= |s| && s[i..i + |sub|] == sub
  }

  /** `s.includes(sub)` */
  predicate Includes(s: string, sub: string) {
    exists i | 0 <= i <= |s| - |sub| :: OccursAt(s, sub, i)
  }

  /** Each character of an occurrence is the matching character of `s`. */
  lemma OccurrenceChar(s: string, sub: string, i: int, k: int)
    requires OccursAt(s, sub, i)
    requires 0 <= k < |sub|
    ensures s[i + k] == sub[k]
  {
  }
}
