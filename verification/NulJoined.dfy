// Texts joined by NUL characters, as fingerprints and coupon cursors are.
module NulJoined {
  import opened Text

  predicate NulFree(s: string)
  {
    '\0' !in s
  }

  // Where the first part ends is where the next NUL stands.
  lemma FirstPart(a: string, b: string, x: string, y: string)
    requires NulFree(a) && NulFree(b) && a + "\0" + x == b + "\0" + y
    ensures a == b && x == y
  {
    var s := a + "\0" + x;
    assert s == b + "\0" + y;
    assert s[|a|] == '\0' && s[|b|] == '\0';
    assert (forall i | 0 <= i < |a| :: s[i] == a[i]) && forall i | 0 <= i < |b| :: s[i] == b[i];
    assert s[..|a|] == a && s[..|b|] == b;
    assert s[|a| + 1..] == x && s[|b| + 1..] == y;
  }

  // NUL characters in a text.
  function Nuls(s: string): nat
  {
    if s == "" then 0 else (if s[0] == '\0' then 1 else 0) + Nuls(s[1..])
  }

  lemma {:induction false} NulsAppend(a: string, b: string)
    ensures Nuls(a + b) == Nuls(a) + Nuls(b)
  {
    if a == "" {
      assert a + b == b;
    } else {
      assert (a + b)[1..] == a[1..] + b;
      NulsAppend(a[1..], b);
    }
  }

  lemma {:induction false} NulsZero(a: string)
    ensures Nuls(a) == 0 <==> NulFree(a)
  {
    if a != "" {
      NulsZero(a[1..]);
      assert a == [a[0]] + a[1..];
    }
  }

  // strings.Join(parts, "\x00")
  function Join(parts: seq<string>): string
  {
    if parts == [] then "" else if |parts| == 1 then parts[0] else parts[0] + "\0" + Join(parts[1..])
  }

  // The text up to the first NUL, and the parts after it: strings.Split(s, "\x00").
  function Split(s: string): (parts: seq<string>)
    ensures |parts| >= 1
  {
    var n := Before(s);
    if n == |s| then [s] else [s[..n]] + Split(s[n + 1..])
  }

  // Where the first NUL stands, or the length without one.
  function Before(s: string): (n: nat)
    ensures n <= |s| && NulFree(s[..n]) && (n < |s| ==> s[n] == '\0')
  {
    if s == "" || s[0] == '\0' then 0
    else
      var n := Before(s[1..]);
      assert s[..n + 1] == [s[0]] + s[1..][..n];
      n + 1
  }

  lemma BeforeIs(s: string, n: nat)
    requires n <= |s| && NulFree(s[..n]) && (n < |s| ==> s[n] == '\0')
    ensures Before(s) == n
  {
    var m := Before(s);
    assert forall i | 0 <= i < n :: s[..n][i] == s[i];
    assert forall i | 0 <= i < m :: s[..m][i] == s[i];
  }

  // Parts without NUL survive joining and splitting; the number of parts is kept.
  lemma {:induction false} SplitJoin(parts: seq<string>)
    requires |parts| >= 1 && forall i | 0 <= i < |parts| :: NulFree(parts[i])
    ensures Split(Join(parts)) == parts
  {
    var s := Join(parts);
    if |parts| == 1 {
      assert s[..|s|] == s;
      BeforeIs(s, |s|);
    } else {
      var rest := Join(parts[1..]);
      assert s[..|parts[0]|] == parts[0] && s[|parts[0]|] == '\0' && s[|parts[0]| + 1..] == rest;
      BeforeIs(s, |parts[0]|);
      SplitJoin(parts[1..]);
    }
  }

  // Any text is the join of what it splits into, and no part holds a NUL.
  lemma {:induction false} JoinSplit(s: string)
    ensures Join(Split(s)) == s && forall i | 0 <= i < |Split(s)| :: NulFree(Split(s)[i])
    decreases |s|
  {
    var n := Before(s);
    if n == |s| {
      assert s[..n] == s;
    } else {
      JoinSplit(s[n + 1..]);
      var rest := Split(s[n + 1..]);
      assert ([s[..n]] + rest)[1..] == rest;
      assert s == s[..n] + "\0" + s[n + 1..];
    }
  }

  lemma {:induction false} ByteLenAppend(a: string, b: string)
    ensures ByteLen(a + b) == ByteLen(a) + ByteLen(b)
  {
    if a == "" {
      assert a + b == b;
    } else {
      assert (a + b)[1..] == a[1..] + b;
      ByteLenAppend(a[1..], b);
    }
  }
}
