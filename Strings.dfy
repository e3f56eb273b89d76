/**
  The few JavaScript string operations the application relies on, written out over
  `seq<char>`: `includes`, `indexOf`, `split` and `join` with a non-empty separator,
  `trim`, `replace` of the first occurrence of one character, ASCII `toLowerCase`, and
  the decimal rendering of an integer inside a template literal.
*/
module Strings {
  import opened Wrappers

  /** `sub` occurs in `t` starting at index `i`. */
  predicate OccursAt(t: string, sub: string, i: int) {
    0 <= i && i + |sub| <= |t| && t[i..i + |sub|] == sub
  }

  /** The first index at or after `from` where `sub` occurs (`String.prototype.indexOf`). */
  function IndexOfFrom(t: string, sub: string, from: nat): Option<nat>
    decreases |t| - from
  {
    if from + |sub| > |t| then None
    else if t[from..from + |sub|] == sub then Some(from)
    else IndexOfFrom(t, sub, from + 1)
  }

  /** `indexOf` finds the first occurrence at or after `from`, and finds none only when
      there is none. */
  lemma {:induction false} IndexOfFromSpec(t: string, sub: string, from: nat)
    decreases |t| - from
    ensures IndexOfFrom(t, sub, from).Some? ==>
              from <= IndexOfFrom(t, sub, from).value && OccursAt(t, sub, IndexOfFrom(t, sub, from).value)
    ensures IndexOfFrom(t, sub, from).Some? ==>
              forall j :: from <= j < IndexOfFrom(t, sub, from).value ==> !OccursAt(t, sub, j)
    ensures IndexOfFrom(t, sub, from).None? ==> forall j :: from <= j ==> !OccursAt(t, sub, j)
  {
    if from + |sub| <= |t| && t[from..from + |sub|] != sub {
      IndexOfFromSpec(t, sub, from + 1);
    }
  }

  /** `String.prototype.includes`. */
  predicate Contains(t: string, sub: string) {
    IndexOfFrom(t, sub, 0).Some?
  }

  /** `includes` holds exactly when there is an occurrence somewhere. */
  lemma ContainsIff(t: string, sub: string)
    ensures Contains(t, sub) <==> exists i :: OccursAt(t, sub, i)
  {
    IndexOfFromSpec(t, sub, 0);
    if exists i :: OccursAt(t, sub, i) {
      var i :| OccursAt(t, sub, i);
      assert 0 <= i;
    }
  }

  /** A witness position proves `includes`. */
  lemma ContainsAt(t: string, sub: string, i: nat)
    requires OccursAt(t, sub, i)
    ensures Contains(t, sub)
  {
    IndexOfFromSpec(t, sub, 0);
  }

  /** `s.split(sep)` for a non-empty separator: the pieces between non-overlapping
      occurrences of `sep`, scanning left to right. */
  function Split(s: string, sep: string): (parts: seq<string>)
    requires |sep| > 0
    decreases |s|
    ensures |parts| >= 1
  {
    match IndexOfFrom(s, sep, 0)
    case None => [s]
    case Some(i) =>
      IndexOfFromSpec(s, sep, 0);
      [s[..i]] + Split(s[i + |sep|..], sep)
  }

  /** `parts.join(sep)`. */
  function Join(parts: seq<string>, sep: string): string {
    if |parts| == 0 then ""
    else if |parts| == 1 then parts[0]
    else parts[0] + sep + Join(parts[1..], sep)
  }

  /** Joining the pieces of a split with the same separator gives back the string. */
  lemma {:induction false} JoinSplit(s: string, sep: string)
    requires |sep| > 0
    ensures Join(Split(s, sep), sep) == s
    decreases |s|
  {
    var r := IndexOfFrom(s, sep, 0);
    if r.Some? {
      var i := r.value;
      IndexOfFromSpec(s, sep, 0);
      JoinSplit(s[i + |sep|..], sep);
      JoinSplitStep(s, sep, i);
    }
  }

  lemma JoinSplitStep(s: string, sep: string, i: nat)
    requires |sep| > 0 && IndexOfFrom(s, sep, 0) == Some(i) && OccursAt(s, sep, i)
    requires Join(Split(s[i + |sep|..], sep), sep) == s[i + |sep|..]
    ensures Join(Split(s, sep), sep) == s
  {
    var head, rest := s[..i], s[i + |sep|..];
    var tail := Split(rest, sep);
    assert Split(s, sep) == [head] + tail;
    JoinCons(head, tail, sep);
    Reassemble(s, sep, i);
  }

  lemma Reassemble(s: string, sep: string, i: nat)
    requires OccursAt(s, sep, i)
    ensures s == s[..i] + sep + s[i + |sep|..]
  {
    assert s == s[..i] + s[i..i + |sep|] + s[i + |sep|..];
  }

  lemma JoinCons(head: string, tail: seq<string>, sep: string)
    requires |tail| >= 1
    ensures Join([head] + tail, sep) == head + sep + Join(tail, sep)
  {
    assert ([head] + tail)[1..] == tail;
  }

  /** An occurrence inside a prefix is an occurrence in the whole string. */
  lemma OccursInPrefix(s: string, sub: string, n: nat, j: int)
    requires n <= |s|
    ensures OccursAt(s[..n], sub, j) ==> OccursAt(s, sub, j)
  {
    if OccursAt(s[..n], sub, j) {
      assert s[..n][j..j + |sub|] == s[j..j + |sub|];
    }
  }

  /** A one-character occurrence is that character at that index. */
  lemma OccursChar(t: string, c: char, j: int)
    ensures OccursAt(t, [c], j) <==> 0 <= j < |t| && t[j] == c
  {
    if 0 <= j < |t| {
      assert t[j..j + 1] == [t[j]];
    }
  }

  /** No piece of a split contains the separator. */
  lemma {:induction false} SplitPiecesFree(s: string, sep: string)
    requires |sep| > 0
    ensures forall p :: p in Split(s, sep) ==> !Contains(p, sep)
    decreases |s|
  {
    IndexOfFromSpec(s, sep, 0);
    match IndexOfFrom(s, sep, 0)
    case None =>
      assert Split(s, sep) == [s];
    case Some(i) =>
      SplitPiecesFree(s[i + |sep|..], sep);
      HeadPieceFree(s, sep, i);
      assert Split(s, sep) == [s[..i]] + Split(s[i + |sep|..], sep);
  }

  /** The text before the first occurrence of `sep` does not contain it. */
  lemma HeadPieceFree(s: string, sep: string, i: nat)
    requires |sep| > 0 && i <= |s|
    requires forall j :: 0 <= j < i ==> !OccursAt(s, sep, j)
    ensures !Contains(s[..i], sep)
  {
    forall j ensures !OccursAt(s[..i], sep, j) {
      OccursInPrefix(s, sep, i, j);
    }
    NoOccurrenceNotContains(s[..i], sep);
  }

  lemma NoOccurrenceNotContains(t: string, sub: string)
    requires forall j :: !OccursAt(t, sub, j)
    ensures !Contains(t, sub)
  {
    IndexOfFromSpec(t, sub, 0);
  }

  /** `includes` of a one-character string is membership of that character. */
  lemma ContainsChar(t: string, c: char)
    ensures Contains(t, [c]) <==> c in t
  {
    forall j ensures OccursAt(t, [c], j) <==> 0 <= j < |t| && t[j] == c {
      OccursChar(t, c, j);
    }
    ContainsIff(t, [c]);
  }

  /** With a one-character separator that occurs in none of the parts, splitting the
      join gives back the parts. */
  lemma {:induction false} SplitJoin(parts: seq<string>, c: char)
    requires |parts| >= 1
    requires forall p :: p in parts ==> c !in p
    ensures Split(Join(parts, [c]), [c]) == parts
    decreases |parts|
  {
    var sep := [c];
    assert parts[0] in parts;
    if |parts| == 1 {
      forall j ensures !OccursAt(parts[0], sep, j) {
        OccursChar(parts[0], c, j);
      }
      IndexOfFromSpec(parts[0], sep, 0);
    } else {
      var p := parts[0];
      var rest := Join(parts[1..], sep);
      var s := p + sep + rest;
      assert Join(parts, sep) == s;
      OccursChar(s, c, |p|);
      forall j | 0 <= j < |p| ensures !OccursAt(s, sep, j) {
        assert s[j] == p[j] && p[j] != c;
        OccursChar(s, c, j);
      }
      IndexOfFromSpec(s, sep, 0);
      assert IndexOfFrom(s, sep, 0) == Some(|p|);
      assert s[..|p|] == p;
      assert s[|p| + 1..] == rest;
      SplitJoin(parts[1..], c);
      assert parts == [p] + parts[1..];
    }
  }

  /** JavaScript white space and line terminators: the characters `\s` matches in a
      regular expression and that `trim` removes (ECMA-262, sections 12.2 and 12.3). */
  predicate IsSpace(c: char) {
    c == '\t' || c == '\n' || c == '\U{000B}' || c == '\U{000C}' || c == '\r' || c == ' '
    || c == '\U{00A0}' || c == '\U{1680}' || ('\U{2000}' <= c <= '\U{200A}')
    || c == '\U{2028}' || c == '\U{2029}' || c == '\U{202F}' || c == '\U{205F}'
    || c == '\U{3000}' || c == '\U{FEFF}'
  }

  function TrimStart(s: string): (r: string)
    ensures |r| <= |s| && r == s[|s| - |r|..]
    ensures |r| > 0 ==> !IsSpace(r[0])
    ensures forall i :: 0 <= i < |s| - |r| ==> IsSpace(s[i])
  {
    if |s| > 0 && IsSpace(s[0]) then TrimStart(s[1..]) else s
  }

  function TrimEnd(s: string): (r: string)
    ensures |r| <= |s| && r == s[..|r|]
    ensures |r| > 0 ==> !IsSpace(r[|r| - 1])
    ensures forall i :: |r| <= i < |s| ==> IsSpace(s[i])
  {
    if |s| > 0 && IsSpace(s[|s| - 1]) then TrimEnd(s[..|s| - 1]) else s
  }

  /** `String.prototype.trim`. */
  function Trim(s: string): string {
    TrimEnd(TrimStart(s))
  }

  /** A string trims to nothing exactly when every character is white space. */
  lemma TrimEmptyIff(s: string)
    ensures Trim(s) == "" <==> forall i :: 0 <= i < |s| ==> IsSpace(s[i])
  {
    var t := TrimStart(s);
    if forall i :: 0 <= i < |s| ==> IsSpace(s[i]) {
      if t != "" {
        assert t[0] == s[|s| - |t|];
      }
    } else {
      var i :| 0 <= i < |s| && !IsSpace(s[i]);
      var k := i - (|s| - |t|);
      assert 0 <= k < |t| && t[k] == s[i];
      assert |TrimEnd(t)| > k;
    }
  }

  /** `s.replace(c, '')` with a one-character pattern: drops the first `c` only. */
  function RemoveFirst(s: string, c: char): (r: string)
    ensures c in s ==> |r| == |s| - 1
    ensures c !in s ==> r == s
  {
    if s == [] then []
    else if s[0] == c then s[1..]
    else [s[0]] + RemoveFirst(s[1..], c)
  }

  /** The first `c` is dropped: what comes before it is kept, and so is all that follows. */
  lemma {:induction false} RemoveFirstAt(s: string, c: char, i: nat)
    requires i < |s| && s[i] == c && c !in s[..i]
    ensures RemoveFirst(s, c) == s[..i] + s[i + 1..]
  {
    if i > 0 {
      assert s[0] in s[..i];
      var t := s[1..];
      assert t[..i - 1] == s[1..i];
      assert forall x :: x in s[1..i] ==> x in s[..i];
      RemoveFirstAt(t, c, i - 1);
      assert s[..i] == [s[0]] + t[..i - 1];
      assert s[i + 1..] == t[i..];
    }
  }

  /** ASCII case mapping of `toLowerCase`. */
  function LowerChar(c: char): char {
    if 'A' <= c <= 'Z' then (c as int + 32) as char else c
  }

  function ToLower(s: string): (r: string)
    ensures |r| == |s| && forall i :: 0 <= i < |s| ==> r[i] == LowerChar(s[i])
  {
    if s == [] then [] else [LowerChar(s[0])] + ToLower(s[1..])
  }

  function DigitChar(d: nat): char
    requires d < 10
  {
    ('0' as int + d) as char
  }

  /** The decimal digits of a natural number, as `${n}` renders it. */
  function NatToString(n: nat): (r: string)
    ensures |r| >= 1 && forall i :: 0 <= i < |r| ==> '0' <= r[i] <= '9'
    ensures n < 10 ==> r == [DigitChar(n)]
  {
    if n < 10 then [DigitChar(n)] else NatToString(n / 10) + [DigitChar(n % 10)]
  }

  /** An integer as a template literal renders it. */
  function IntToString(n: int): (r: string)
    ensures |r| >= 1
  {
    if n < 0 then "-" + NatToString(-n) else NatToString(n)
  }
}
