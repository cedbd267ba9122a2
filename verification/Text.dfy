/** String operations of the source language that the grammars below are built from. */
module Text {

  /** Position of the first `c`, or -1. */
  function IndexOf(s: string, c: char): (i: int)
    ensures -1 <= i < |s|
    ensures i >= 0 ==> s[i] == c && c !in s[..i]
    ensures i < 0 <==> c !in s
  {
    if s == "" then -1
    else if s[0] == c then 0
    else
      var i := IndexOf(s[1..], c);
      assert s == [s[0]] + s[1..];
      if i < 0 then -1 else
      assert s[..i + 1] == [s[0]] + s[1..][..i];
      i + 1
  }

  function Split(s: string, c: char): (parts: seq<string>)
    ensures |parts| >= 1
    ensures forall p | p in parts :: c !in p
    decreases |s|
  {
    var i := IndexOf(s, c);
    if i < 0 then [s] else [s[..i]] + Split(s[i + 1..], c)
  }

  function Join(parts: seq<string>, c: char): string
    requires parts != []
  {
    if |parts| == 1 then parts[0] else parts[0] + [c] + Join(parts[1..], c)
  }

  lemma FirstSeparator(head: string, c: char, tail: string)
    requires c !in head
    ensures IndexOf(head + [c] + tail, c) == |head|
  {
    var s := head + [c] + tail;
    assert s[|head|] == c && s[..|head|] == head;
  }

  lemma JoinCons(head: string, tail: seq<string>, c: char)
    requires tail != []
    ensures Join([head] + tail, c) == head + [c] + Join(tail, c)
  {
    assert ([head] + tail)[1..] == tail;
  }

  lemma CutAt(s: string, i: nat, c: char)
    requires i < |s| && s[i] == c
    ensures s == s[..i] + [c] + s[i + 1..]
  {
  }

  lemma SplitAtFirst(s: string, c: char)
    ensures var i := IndexOf(s, c);
      if i < 0 then Split(s, c) == [s]
      else Split(s, c) == [s[..i]] + Split(s[i + 1..], c) && s == s[..i] + [c] + s[i + 1..]
  {
    hide IndexOf;
    var i := IndexOf(s, c);
    if i >= 0 {
      CutAt(s, i, c);
    }
  }

  lemma {:induction false} JoinSnoc(init: seq<string>, last: string, c: char)
    requires init != []
    ensures Join(init + [last], c) == Join(init, c) + [c] + last
  {
    if |init| > 1 {
      JoinSnoc(init[1..], last, c);
      assert (init + [last])[1..] == init[1..] + [last];
    } else {
      assert (init + [last])[1..] == [last];
    }
  }

  lemma {:induction false} JoinOfSplit(s: string, c: char)
    ensures Join(Split(s, c), c) == s
    decreases |s|
  {
    hide Split, IndexOf;
    SplitAtFirst(s, c);
    var i := IndexOf(s, c);
    if i >= 0 {
      JoinOfSplit(s[i + 1..], c);
      JoinCons(s[..i], Split(s[i + 1..], c), c);
    }
  }

  lemma SplitPrefixed(head: string, c: char, tail: string)
    requires c !in head
    ensures Split(head + [c] + tail, c) == [head] + Split(tail, c)
  {
    hide Split, IndexOf;
    var s := head + [c] + tail;
    FirstSeparator(head, c, tail);
    SplitAtFirst(s, c);
    assert s[..|head|] == head && s[|head| + 1..] == tail;
  }

  lemma {:induction false} SplitOfJoin(parts: seq<string>, c: char)
    requires parts != [] && forall p | p in parts :: c !in p
    ensures Split(Join(parts, c), c) == parts
  {
    hide Split, Join;
    assert c !in parts[0];
    if |parts| == 1 {
      assert parts == [parts[0]];
      SingleJoin(parts[0], c);
      SplitAtFirst(parts[0], c);
    } else {
      SplitOfJoin(parts[1..], c);
      assert parts == [parts[0]] + parts[1..];
      JoinCons(parts[0], parts[1..], c);
      SplitPrefixed(parts[0], c, Join(parts[1..], c));
    }
  }

  lemma SingleJoin(part: string, c: char)
    ensures Join([part], c) == part
  {
  }

  /** The parts of a string without `d` have none. */
  lemma {:induction false} PartsHaveNone(s: string, c: char, d: char)
    requires d !in s
    ensures forall p | p in Split(s, c) :: d !in p
    decreases |s|
  {
    hide IndexOf;
    var i := IndexOf(s, c);
    SplitAtFirst(s, c);
    if i >= 0 {
      PartsHaveNone(s[i + 1..], c, d);
    }
  }

  /** White space and line terminators, as String.prototype.trim removes them. */
  predicate IsSpace(c: char) {
    var n := c as int;
    || 0x9 <= n <= 0xD || n == 0x20 || n == 0xA0 || n == 0x1680 || 0x2000 <= n <= 0x200A
    || n == 0x2028 || n == 0x2029 || n == 0x202F || n == 0x205F || n == 0x3000 || n == 0xFEFF
  }

  function TrimStart(s: string): (t: string)
    ensures |t| <= |s| && (t != "" ==> !IsSpace(t[0]))
  {
    if s != "" && IsSpace(s[0]) then TrimStart(s[1..]) else s
  }

  function TrimEnd(s: string): (t: string)
    ensures t <= s && (t != "" ==> !IsSpace(t[|t| - 1]))
  {
    if s != "" && IsSpace(s[|s| - 1]) then TrimEnd(s[..|s| - 1]) else s
  }

  function Trim(s: string): (t: string)
    ensures |t| <= |s| && (t != "" ==> !IsSpace(t[0]) && !IsSpace(t[|t| - 1]))
  {
    TrimEnd(TrimStart(s))
  }

  predicate AllSpace(s: string) {
    forall i | 0 <= i < |s| :: IsSpace(s[i])
  }

  /** `t` is what is left of `s` between white space, and has none at its own ends. */
  ghost predicate Between(s: string, front: string, t: string, back: string) {
    && s == front + t + back && AllSpace(front) && AllSpace(back)
    && (t != "" ==> !IsSpace(t[0]) && !IsSpace(t[|t| - 1]))
  }

  lemma {:induction false} StartIsCut(s: string) returns (front: string)
    ensures s == front + TrimStart(s) && AllSpace(front)
  {
    hide IsSpace;
    front := "";
    if s != "" && IsSpace(s[0]) {
      var rest := StartIsCut(s[1..]);
      front := [s[0]] + rest;
    }
  }

  lemma {:induction false} EndIsCut(s: string) returns (back: string)
    ensures s == TrimEnd(s) + back && AllSpace(back)
  {
    hide IsSpace;
    back := "";
    if s != "" && IsSpace(s[|s| - 1]) {
      var rest := EndIsCut(s[..|s| - 1]);
      back := rest + [s[|s| - 1]];
    }
  }

  /** Trimming cuts white space at both ends and nothing else; its result is the only string that is left so. */
  lemma TrimIsBetween(s: string, t: string)
    ensures Trim(s) == t <==> exists front, back :: Between(s, front, t, back)
  {
    hide IsSpace;
    var front := StartIsCut(s);
    var back := EndIsCut(TrimStart(s));
    assert s == front + Trim(s) + back;
    assert Between(s, front, Trim(s), back);
    if exists f, b :: Between(s, f, t, b) {
      var f, b :| Between(s, f, t, b);
      SameBetween(s, front, Trim(s), back, f, t, b);
    }
  }

  lemma SameBetween(s: string, front: string, t: string, back: string, f: string, u: string, b: string)
    requires Between(s, front, t, back) && Between(s, f, u, b)
    ensures t == u
  {
    hide IsSpace;
    if t == "" || u == "" {
      if t != "" {
        assert s == f + b;
        NotAllSpace(s, front, t, back);
      }
      if u != "" {
        assert s == front + back;
        NotAllSpace(s, f, u, b);
      }
    } else {
      Ends(s, front, t, back);
      Ends(s, f, u, b);
    }
  }

  lemma Ends(s: string, front: string, t: string, back: string)
    requires Between(s, front, t, back) && t != ""
    ensures |front| + |t| <= |s| && t == s[|front|..|front| + |t|]
    ensures (forall i | 0 <= i < |front| :: IsSpace(s[i])) && !IsSpace(s[|front|])
    ensures (forall i | |front| + |t| <= i < |s| :: IsSpace(s[i])) && !IsSpace(s[|front| + |t| - 1])
  {
    hide IsSpace;
    assert s[|front|] == t[0] && s[|front| + |t| - 1] == t[|t| - 1];
    forall i | |front| + |t| <= i < |s|
      ensures IsSpace(s[i])
    {
      assert s[i] == back[i - |front| - |t|];
    }
  }

  lemma NotAllSpace(s: string, front: string, t: string, back: string)
    requires Between(s, front, t, back) && t != ""
    ensures !AllSpace(s)
  {
    assert s[|front|] == t[0];
  }

  lemma TrimmedIsKept(s: string)
    requires s != "" ==> !IsSpace(s[0]) && !IsSpace(s[|s| - 1])
    ensures Trim(s) == s
  {
  }
}
