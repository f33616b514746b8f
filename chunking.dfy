/**
 * The two regular-expression chunkings the voucher and token displays use:
 * `s.replace(/(.{4})/g, '$1 ')` (a space after every four-character group) and
 * `t.match(/.{1,4}/g)` (groups of one to four characters), with the inverse of the first
 * and the plain four-character split both agree with on ordinary text.
 */
module Chunking {
  import opened Text

  /** `/(.{4})/` matches at the start of `s`: four characters, none a line terminator. */
  predicate FourAt(s: string) {
    |s| >= 4 && NoLineTerminators(s[..4])
  }

  /**
   * `s.replace(/(.{4})/g, '$1 ')`: scanning left to right, each group of four characters that
   * `.` matches is copied followed by one space; a character where no group starts is copied as is.
   */
  function GroupFours(s: string): (r: string)
    ensures |r| >= |s|
    decreases |s|
  {
    if FourAt(s) then s[..4] + " " + GroupFours(s[4..])
    else if s == [] then []
    else [s[0]] + GroupFours(s[1..])
  }

  /** Removes the space GroupFours puts after each group it matched, scanning the same way. */
  function Ungroup(t: string): (r: string)
    decreases |t|
  {
    if |t| >= 5 && FourAt(t) && t[4] == ' ' then t[..4] + Ungroup(t[5..])
    else if t == [] then []
    else [t[0]] + Ungroup(t[1..])
  }

  lemma {:induction false} GroupFoursShort(s: string)
    requires |s| < 4
    ensures GroupFours(s) == s
    decreases |s|
  {
    if s != [] {
      GroupFoursShort(s[1..]);
    }
  }

  lemma {:induction false} UngroupShort(t: string)
    requires |t| < 5
    ensures Ungroup(t) == t
    decreases |t|
  {
    if t != [] {
      UngroupShort(t[1..]);
    }
  }

  /**
   * No group can start before a line terminator among the next four characters: a prefix of at
   * most four characters ending in one is copied as is.
   */
  lemma {:induction false} GroupFoursLiteral(p: string, x: string)
    requires 1 <= |p| <= 4 && IsLineTerminator(p[|p| - 1])
    ensures GroupFours(p + x) == p + GroupFours(x)
    decreases |p|
  {
    var t := p + x;
    assert !FourAt(t) by {
      if |t| >= 4 {
        assert t[..4][|p| - 1] == p[|p| - 1];
      }
    }
    assert GroupFours(t) == [p[0]] + GroupFours(t[1..]);
    if |p| > 1 {
      assert t[1..] == p[1..] + x;
      GroupFoursLiteral(p[1..], x);
      ConsAppend(p, GroupFours(x));
    } else {
      assert t[1..] == x && [p[0]] == p;
    }
  }

  lemma {:induction false} UngroupLiteral(p: string, x: string)
    requires 1 <= |p| <= 4 && IsLineTerminator(p[|p| - 1])
    ensures Ungroup(p + x) == p + Ungroup(x)
    decreases |p|
  {
    var t := p + x;
    assert !FourAt(t) by {
      if |t| >= 4 {
        assert t[..4][|p| - 1] == p[|p| - 1];
      }
    }
    assert Ungroup(t) == [p[0]] + Ungroup(t[1..]);
    if |p| > 1 {
      assert t[1..] == p[1..] + x;
      UngroupLiteral(p[1..], x);
      ConsAppend(p, Ungroup(x));
    } else {
      assert t[1..] == x && [p[0]] == p;
    }
  }

  /** A matched group followed by its space loses the space. */
  lemma UngroupAfterGroup(a: string, rest: string)
    requires |a| == 4 && NoLineTerminators(a)
    ensures Ungroup(a + " " + rest) == a + Ungroup(rest)
  {
    var t := a + " " + rest;
    assert t[..4] == a && t[4] == ' ' && t[5..] == rest;
  }

  /** Removing the inserted spaces gives the original text back, whatever it contains. */
  lemma {:induction false} UngroupGroupFours(s: string)
    ensures Ungroup(GroupFours(s)) == s
    decreases |s|
  {
    if FourAt(s) {
      assert GroupFours(s) == s[..4] + " " + GroupFours(s[4..]);
      UngroupAfterGroup(s[..4], GroupFours(s[4..]));
      UngroupGroupFours(s[4..]);
      assert s[..4] + s[4..] == s;
    } else if |s| < 4 {
      GroupFoursShort(s);
      UngroupShort(s);
    } else {
      var k :| 0 <= k < 4 && IsLineTerminator(s[..4][k]);
      assert IsLineTerminator(s[k]);
      var p, x := s[..k + 1], s[k + 1..];
      assert p[k] == s[k] && p + x == s;
      GroupFoursLiteral(p, x);
      UngroupLiteral(p, GroupFours(x));
      UngroupGroupFours(x);
    }
  }

  /** The plain split of `s` into groups of four, the last holding the remaining one to four characters. */
  function Chunks(s: string): (cs: seq<string>)
    ensures Concat(cs) == s
    ensures |cs| == 0 <==> s == []
    ensures forall i :: 0 <= i < |cs| ==> 1 <= |cs[i]| <= 4
    ensures forall i :: 0 <= i < |cs| - 1 ==> |cs[i]| == 4
    decreases |s|
  {
    if s == [] then []
    else if |s| <= 4 then
      assert Concat([s]) == s + Concat([]);
      [s]
    else
      var cs := [s[..4]] + Chunks(s[4..]);
      assert cs[1..] == Chunks(s[4..]);
      assert s[..4] + s[4..] == s;
      cs
  }

  lemma JoinCons(a: string, rest: seq<string>, sep: string)
    requires rest != []
    ensures JoinWith([a] + rest, sep) == a + sep + JoinWith(rest, sep)
  {
    assert ([a] + rest)[1..] == rest;
  }

  /** The chunks of a text of four or more characters, joined by spaces: its first four characters, then the rest's. */
  lemma JoinChunksHead(s: string)
    requires |s| >= 4
    ensures JoinWith(Chunks(s), " ") == s[..4] + (if |s| > 4 then " " + JoinWith(Chunks(s[4..]), " ") else "")
  {
    if |s| > 4 {
      assert Chunks(s) == [s[..4]] + Chunks(s[4..]);
      JoinCons(s[..4], Chunks(s[4..]), " ");
      AppendAssoc(s[..4], " ", JoinWith(Chunks(s[4..]), " "));
    } else {
      assert s[..4] == s && Chunks(s) == [s];
      assert JoinWith([s], " ") == s == s + "";
    }
  }

  /** The joined chunks of a text of twelve or more characters begin with its first three groups of four. */
  lemma JoinChunksFirstGroups(q: string)
    requires |q| >= 12
    ensures var j, head := JoinWith(Chunks(q), " "), q[..4] + " " + q[4..8] + " " + q[8..12];
      |j| >= 14 && j[..14] == head
  {
    var a, b, c := q[..4], q[4..8], q[8..12];
    var j2 := JoinWith(Chunks(q[8..]), " ");
    var r := j2[4..];
    JoinChunksHead(q[8..]);
    assert q[8..][..4] == c;
    assert j2 == c + r;
    JoinChunksHead(q[4..]);
    assert q[4..][4..] == q[8..] && q[4..][..4] == b;
    JoinChunksHead(q);
    assert JoinWith(Chunks(q), " ") == a + (" " + (b + (" " + (c + r))));
    NestedGroups(a, b, c, r);
  }

  /** Three groups with spaces between them, nested to the right, then anything. */
  lemma NestedGroups(a: string, b: string, c: string, r: string)
    ensures a + (" " + (b + (" " + (c + r)))) == (a + " " + b + " " + c) + r
    ensures |a + " " + b + " " + c| == |a| + |b| + |c| + 2
    ensures ((a + " " + b + " " + c) + r)[..|a| + |b| + |c| + 2] == a + " " + b + " " + c
  {
    AppendAssoc(" ", c, r);
    AppendAssoc(b, " " + c, r);
    AppendAssoc(" ", b + (" " + c), r);
    AppendAssoc(a, " " + (b + (" " + c)), r);
    AppendAssoc(a, " ", b + (" " + c));
    AppendAssoc(a + " ", b, " " + c);
    AppendAssoc(a + " " + b, " ", c);
  }

  /** Joined with any separator, the chunks of a non-empty text begin and end with its first and last characters. */
  lemma {:induction false} JoinChunksEnds(s: string, sep: string)
    ensures var j := JoinWith(Chunks(s), sep);
      (j == [] <==> s == []) && (s != [] ==> j[0] == s[0] && j[|j| - 1] == s[|s| - 1])
    decreases |s|
  {
    if |s| > 4 {
      JoinChunksEnds(s[4..], sep);
      JoinCons(s[..4], Chunks(s[4..]), sep);
    }
  }

  /** On text without line terminators, GroupFours is the chunks joined by spaces, plus one trailing space when the length is a positive multiple of four. */
  lemma {:induction false} GroupFoursIsJoinedChunks(s: string)
    requires NoLineTerminators(s)
    ensures GroupFours(s) == JoinWith(Chunks(s), " ") + (if s != [] && |s| % 4 == 0 then " " else "")
    decreases |s|
  {
    if s == [] {
    } else if |s| < 4 {
      GroupFoursShort(s);
      assert Chunks(s) == [s] && JoinWith([s], " ") == s;
    } else if |s| == 4 {
      assert FourAt(s);
      assert s[..4] == s && s[4..] == [];
      assert GroupFours(s) == s + " " + GroupFours([]);
      assert Chunks(s) == [s] && JoinWith([s], " ") == s;
    } else {
      var head, tail := s[..4], s[4..];
      assert FourAt(s);
      assert GroupFours(s) == head + " " + GroupFours(tail);
      assert NoLineTerminators(tail) by {
        forall k | 0 <= k < |tail| ensures !IsLineTerminator(tail[k]) {
          assert tail[k] == s[k + 4];
        }
      }
      GroupFoursIsJoinedChunks(tail);
      assert Chunks(s) == [head] + Chunks(tail);
      JoinCons(head, Chunks(tail), " ");
      AppendAssoc(head + " ", JoinWith(Chunks(tail), " "), if |tail| % 4 == 0 then " " else "");
    }
  }

  /** Removing white space from chunks joined by spaces gives back the space-free text. */
  lemma {:induction false} StripJoinedChunks(s: string)
    requires NoSpaces(s)
    ensures StripSpaces(JoinWith(Chunks(s), " ")) == s
    decreases |s|
  {
    if |s| > 4 {
      var tail := s[4..];
      assert Chunks(s) == [s[..4]] + Chunks(tail);
      NoSpacesSlice(s, 4, |s|);
      assert s[4..|s|] == tail;
      StripJoinedChunks(tail);
      JoinCons(s[..4], Chunks(tail), " ");
      NoSpacesSlice(s, 0, 4);
      assert s[0..4] == s[..4];
      StripAfterSpace(s[..4], JoinWith(Chunks(tail), " "));
      assert s[..4] + tail == s;
    } else {
      StripSpacesNoSpaces(s);
    }
  }

  /** How many characters from the start of `t`, at most `n`, `.` matches before a line terminator. */
  function RunLength(t: string, n: nat): (k: nat)
    ensures k <= n && k <= |t|
    ensures forall i :: 0 <= i < k ==> !IsLineTerminator(t[i])
    ensures k < n && k < |t| ==> IsLineTerminator(t[k])
    decreases n
  {
    if n == 0 || t == [] || IsLineTerminator(t[0]) then 0 else 1 + RunLength(t[1..], n - 1)
  }

  /**
   * `t.match(/.{1,4}/g)`: the greedy matches of one to four non-line-terminator characters, in
   * order; empty when nothing matches (where JavaScript returns `null`).
   */
  function TokenGroups(t: string): (gs: seq<string>)
    ensures forall i :: 0 <= i < |gs| ==> 1 <= |gs[i]| <= 4 && NoLineTerminators(gs[i])
    ensures NoLineTerminators(t) ==> (gs == [] <==> t == [])
    decreases |t|
  {
    if t == [] then []
    else if IsLineTerminator(t[0]) then TokenGroups(t[1..])
    else
      var k := RunLength(t, 4);
      [t[..k]] + TokenGroups(t[k..])
  }

  /** On text without line terminators the regex groups are exactly the four-character chunks. */
  lemma {:induction false} TokenGroupsAreChunks(t: string)
    requires NoLineTerminators(t)
    ensures TokenGroups(t) == Chunks(t)
    decreases |t|
  {
    if t != [] {
      var k := RunLength(t, 4);
      assert k == if |t| <= 4 then |t| else 4;
      TokenGroupsAreChunks(t[k..]);
      if |t| <= 4 {
        assert t[k..] == [];
      }
    }
  }
}
