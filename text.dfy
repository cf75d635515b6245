/** String helpers the scripts take from Python's `str` and `re`: the
    whitespace and word-character classes, `strip`, removing one
    character everywhere, `" ".join`, `split(" ")`, `lower` and substring
    search. Character classes are restricted to ASCII. */
module Text {
  import opened Common

  /** Python's `str.isspace` (and the regex class `\s`) on ASCII: tab, line
      feed, vertical tab, form feed, carriage return, the four information
      separators 0x1C-0x1F and the space. */
  predicate IsSpace(c: char) {
    c == ' ' || (9 <= c as int <= 13) || (28 <= c as int <= 31)
  }

  /** The regex class `\w` on ASCII: letters, digits and underscore. */
  predicate IsWordChar(c: char) {
    ('a' <= c <= 'z') || ('A' <= c <= 'Z') || ('0' <= c <= '9') || c == '_'
  }

  function StripLeft(s: string): (r: string)
    ensures |r| <= |s|
  {
    if |s| > 0 && IsSpace(s[0]) then StripLeft(s[1..]) else s
  }

  function StripRight(s: string): (r: string)
    ensures |r| <= |s|
  {
    if |s| > 0 && IsSpace(s[|s| - 1]) then StripRight(s[..|s| - 1]) else s
  }

  /** Python's `str.strip()`: no whitespace is left at either end. */
  function Strip(s: string): (r: string)
    ensures |r| <= |s|
    ensures |r| > 0 ==> !IsSpace(r[0]) && !IsSpace(r[|r| - 1])
  {
    StripLeftShape(s);
    StripRightShape(StripLeft(s));
    StripRight(StripLeft(s))
  }

  lemma {:induction false} StripLeftShape(s: string)
    ensures var r := StripLeft(s);
      && |r| <= |s| && r == s[|s| - |r|..]
      && (|r| > 0 ==> !IsSpace(r[0]))
      && (forall i :: 0 <= i < |s| - |r| ==> IsSpace(s[i]))
  {
    if |s| > 0 && IsSpace(s[0]) {
      StripLeftShape(s[1..]);
    }
  }

  lemma {:induction false} StripRightShape(s: string)
    ensures var r := StripRight(s);
      && |r| <= |s| && r == s[..|r|]
      && (|r| > 0 ==> !IsSpace(r[|r| - 1]))
      && (forall i :: |r| <= i < |s| ==> IsSpace(s[i]))
  {
    if |s| > 0 && IsSpace(s[|s| - 1]) {
      StripRightShape(s[..|s| - 1]);
    }
  }

  /** What `strip` returns has no leading and no trailing whitespace, and is
      the contiguous piece of its argument left after removing whitespace
      from both ends. */
  lemma StripShape(s: string)
    ensures var r := Strip(s);
      && (|r| > 0 ==> !IsSpace(r[0]) && !IsSpace(r[|r| - 1]))
      && (var k := |s| - |StripLeft(s)|;
          && k + |r| <= |s| && r == s[k..k + |r|]
          && (forall i :: 0 <= i < k ==> IsSpace(s[i]))
          && (forall i :: k + |r| <= i < |s| ==> IsSpace(s[i])))
  {
    var l := StripLeft(s);
    StripLeftShape(s);
    StripRightShape(l);
    var k := |s| - |l|;
    forall i | k + |Strip(s)| <= i < |s|
      ensures IsSpace(s[i])
    {
      assert s[i] == l[i - k];
    }
  }

  /** A string with no leading or trailing whitespace is its own strip. */
  lemma StripFixed(s: string)
    requires |s| > 0 ==> !IsSpace(s[0]) && !IsSpace(s[|s| - 1])
    ensures Strip(s) == s
  {
  }

  lemma StripIdempotent(s: string)
    ensures Strip(Strip(s)) == Strip(s)
  {
    StripShape(s);
    StripFixed(Strip(s));
  }

  /** The test "is not `c`", as a mask for `Filter`. */
  function NotChar(c: char): char -> bool {
    x => x != c
  }

  /** Python's `s.replace(c, '')` for a one-character `c`. */
  function RemoveChar(s: string, c: char): (r: string)
    ensures |r| <= |s|
    ensures forall i :: 0 <= i < |r| ==> r[i] != c
    ensures forall x :: x in r <==> x in s && x != c
  {
    if |s| == 0 then ""
    else if s[0] == c then RemoveChar(s[1..], c)
    else [s[0]] + RemoveChar(s[1..], c)
  }

  /** Removal keeps exactly the characters other than `c`, in order and
      with their multiplicity: it is the mask selection of them. */
  lemma {:induction false} RemoveCharIsFilter(s: string, c: char)
    ensures RemoveChar(s, c) == Filter(s, NotChar(c))
  {
    if |s| > 0 {
      RemoveCharIsFilter(s[1..], c);
      assert s == [s[0]] + s[1..];
      FilterCons(s[0], s[1..], NotChar(c));
    }
  }

  /** Removing a character that is not there changes nothing. */
  lemma {:induction false} RemoveAbsent(s: string, c: char)
    requires c !in s
    ensures RemoveChar(s, c) == s
  {
    if |s| > 0 {
      RemoveAbsent(s[1..], c);
    }
  }

  /** Removal keeps the first and last surviving characters of the input:
      if the input starts (ends) with a character other than `c`, so does
      the result. */
  lemma {:induction false} RemoveKeepsEnds(s: string, c: char)
    requires |s| > 0
    ensures s[0] != c ==> |RemoveChar(s, c)| > 0 && RemoveChar(s, c)[0] == s[0]
    ensures s[|s| - 1] != c ==>
      |RemoveChar(s, c)| > 0 && RemoveChar(s, c)[|RemoveChar(s, c)| - 1] == s[|s| - 1]
  {
    if |s| > 1 {
      RemoveKeepsEnds(s[1..], c);
    }
  }

  /** The parts' total length. */
  function TotalLength(parts: seq<string>): nat {
    if |parts| == 0 then 0 else |parts[0]| + TotalLength(parts[1..])
  }

  /** Python's `" ".join(parts)`: its length is the parts' total plus one
      space per gap. */
  function Join(parts: seq<string>): (r: string)
    ensures |parts| == 0 ==> r == ""
    ensures |parts| > 0 ==> |r| == TotalLength(parts) + |parts| - 1
  {
    if |parts| == 0 then ""
    else if |parts| == 1 then parts[0]
    else parts[0] + " " + Join(parts[1..])
  }

  /** In `text`, part `i` sits right after the earlier parts and one space
      after each of them, and is followed by a space unless it is the
      last. */
  predicate PlacedAt(text: string, parts: seq<string>, i: int)
    requires 0 <= i < |parts|
  {
    var o := TotalLength(parts[..i]) + i;
    && o + |parts[i]| <= |text|
    && text[o..o + |parts[i]|] == parts[i]
    && (i < |parts| - 1 ==> o + |parts[i]| < |text| && text[o + |parts[i]|] == ' ')
  }

  /** Every part sits in the joined text at its place, with a single space
      after it unless it is the last; with the length in `Join`'s contract
      this fixes every character of the joined text. */
  lemma {:induction false} JoinPlaces(parts: seq<string>, i: int)
    requires 0 <= i < |parts|
    ensures PlacedAt(Join(parts), parts, i)
  {
    var text, p := Join(parts), parts[i];
    if |parts| == 1 {
      assert parts[..0] == [] && text == p;
      assert text[0..|p|] == p;
    } else {
      var tail := Join(parts[1..]);
      assert text == parts[0] + " " + tail;
      if i == 0 {
        assert parts[..0] == [];
        assert text[0..|p|] == p;
        assert text[|p|] == ' ';
      } else {
        JoinPlaces(parts[1..], i - 1);
        PlacedAfterHead(text, tail, parts, i);
      }
    }
  }

  /** A part placed in the join of the later parts is placed in the join
      of all of them, shifted by the first part and its space. */
  lemma PlacedAfterHead(text: string, tail: string, parts: seq<string>, i: int)
    requires 0 < i < |parts| && text == parts[0] + " " + tail
    requires PlacedAt(tail, parts[1..], i - 1)
    ensures PlacedAt(text, parts, i)
  {
    var p := parts[i];
    assert parts[..i][1..] == parts[1..][..i - 1];
    var o' := TotalLength(parts[1..][..i - 1]) + i - 1;
    var o := TotalLength(parts[..i]) + i;
    assert o == |parts[0]| + 1 + o';
    assert text[o..o + |p|] == tail[o'..o' + |p|];
    if i < |parts| - 1 {
      assert text[o + |p|] == tail[o' + |p|];
    }
  }

  /** Joining two non-empty lists is joining each and putting one space
      between them. */
  lemma {:induction false} JoinAppend(a: seq<string>, b: seq<string>)
    requires |a| > 0 && |b| > 0
    ensures Join(a + b) == Join(a) + " " + Join(b)
  {
    if |a| == 1 {
      assert (a + b)[1..] == b;
    } else {
      JoinAppend(a[1..], b);
      assert (a + b)[1..] == a[1..] + b;
    }
  }

  /** Python's `s.split(" ")`: always at least one field. */
  function SplitOnSpace(s: string): (r: seq<string>)
    ensures |r| >= 1
  {
    if |s| == 0 then [""]
    else if s[0] == ' ' then [""] + SplitOnSpace(s[1..])
    else var rest := SplitOnSpace(s[1..]); [[s[0]] + rest[0]] + rest[1..]
  }

  lemma {:induction false} SplitAfterWord(p: string, rest: string)
    requires ' ' !in p
    ensures SplitOnSpace(p + " " + rest) == [p] + SplitOnSpace(rest)
  {
    if |p| == 0 {
      assert p + " " + rest == [' '] + rest;
      assert (p + " " + rest)[1..] == rest;
    } else {
      assert (p + " " + rest)[1..] == p[1..] + " " + rest;
      SplitAfterWord(p[1..], rest);
      assert [p[0]] + p[1..] == p;
    }
  }

  lemma {:induction false} SplitWord(p: string)
    requires ' ' !in p
    ensures SplitOnSpace(p) == [p]
  {
    if |p| > 0 {
      SplitWord(p[1..]);
      assert [p[0]] + p[1..] == p;
    }
  }

  /** Joining with single spaces loses nothing when no part holds a space:
      splitting the joined text on spaces gives the parts back. */
  lemma {:induction false} SplitJoin(parts: seq<string>)
    requires |parts| > 0
    requires forall i :: 0 <= i < |parts| ==> ' ' !in parts[i]
    ensures SplitOnSpace(Join(parts)) == parts
  {
    if |parts| == 1 {
      SplitWord(parts[0]);
    } else {
      SplitJoin(parts[1..]);
      SplitAfterWord(parts[0], Join(parts[1..]));
    }
  }

  /** Python's `str.lower()` on ASCII letters. */
  function LowerChar(c: char): (r: char)
    ensures 'A' <= c <= 'Z' ==> r as int == c as int + 32
    ensures !('A' <= c <= 'Z') ==> r == c
  {
    if 'A' <= c <= 'Z' then (c as int + 32) as char else c
  }

  function Lower(s: string): (r: string)
    ensures |r| == |s|
    ensures forall i :: 0 <= i < |s| ==> r[i] == LowerChar(s[i])
  {
    if |s| == 0 then "" else [LowerChar(s[0])] + Lower(s[1..])
  }

  /** `k` occurs in `s` starting at index `i`. */
  predicate OccursAt(s: string, k: string, i: nat) {
    i + |k| <= |s| && s[i..i + |k|] == k
  }

  /** Python's `k in s` for strings, searched window by window. */
  predicate Contains(s: string, k: string)
    decreases |s|
  {
    if |s| < |k| then false
    else s[..|k|] == k || (|s| > 0 && Contains(s[1..], k))
  }

  /** The window search finds `k` exactly when it occurs somewhere. */
  lemma {:induction false} ContainsIff(s: string, k: string)
    ensures Contains(s, k) <==> exists i: nat :: OccursAt(s, k, i)
    decreases |s|
  {
    if |s| >= |k| && s[..|k|] != k && |s| > 0 {
      ContainsIff(s[1..], k);
      if Contains(s[1..], k) {
        var i: nat :| OccursAt(s[1..], k, i);
        assert OccursAt(s, k, i + 1);
      }
      if i: nat :| OccursAt(s, k, i) {
        assert i > 0;
        assert s[1..][i - 1..i - 1 + |k|] == s[i..i + |k|];
        assert OccursAt(s[1..], k, i - 1);
      }
    } else if |s| >= |k| && s[..|k|] == k {
      assert OccursAt(s, k, 0);
    } else if |s| < |k| {
      assert forall i: nat :: !OccursAt(s, k, i);
    }
  }
}
