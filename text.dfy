/** String operations with the meaning of the Go standard-library calls the backend makes. */
module Text {

  /** strings.HasPrefix */
  function HasPrefix(s: string, prefix: string): (b: bool)
    ensures b <==> |prefix| <= |s| && forall k :: 0 <= k < |prefix| ==> s[k] == prefix[k]
  {
    |prefix| <= |s| && s[..|prefix|] == prefix
  }

  /** strings.TrimPrefix: drops one leading copy of `prefix`, if there is one. */
  function TrimPrefix(s: string, prefix: string): (r: string)
    ensures HasPrefix(s, prefix) ==> prefix + r == s
    ensures !HasPrefix(s, prefix) ==> r == s
  {
    if HasPrefix(s, prefix) then
      assert s == s[..|prefix|] + s[|prefix|..];
      s[|prefix|..]
    else s
  }

  /** Position of the first `c` in `s`, or |s| when `c` does not occur. */
  function IndexOf(s: string, c: char): (i: nat)
    ensures i <= |s|
    ensures i < |s| ==> s[i] == c
    ensures forall k :: 0 <= k < i ==> s[k] != c
  {
    if s == [] then 0
    else if s[0] == c then 0
    else 1 + IndexOf(s[1..], c)
  }

  /** strings.Split with a one-character separator: the pieces between consecutive
      separators, so a string with n separators yields n + 1 pieces ("" yields [""]). */
  function Split(s: string, sep: char): (parts: seq<string>)
    ensures |parts| >= 1
    decreases |s|
  {
    var i := IndexOf(s, sep);
    if i == |s| then [s] else [s[..i]] + Split(s[i + 1..], sep)
  }

  /** strings.Join with a one-character separator. */
  function Join(parts: seq<string>, sep: char): string
  {
    if |parts| == 0 then ""
    else if |parts| == 1 then parts[0]
    else parts[0] + [sep] + Join(parts[1..], sep)
  }

  /** The string comes back as one piece exactly when it holds no separator. */
  lemma SplitSingle(s: string, sep: char)
    ensures |Split(s, sep)| == 1 <==> sep !in s
  {
    var i := IndexOf(s, sep);
    if i < |s| {
      assert Split(s, sep) == [s[..i]] + Split(s[i + 1..], sep);
    } else {
      assert sep !in s by {
        forall k | 0 <= k < |s| ensures s[k] != sep { }
      }
    }
  }

  /** Splitting loses nothing: joining the pieces gives the string back. */
  lemma {:induction false} JoinSplit(s: string, sep: char)
    ensures Join(Split(s, sep), sep) == s
    decreases |s|
  {
    var i := IndexOf(s, sep);
    if i < |s| {
      var a, rest := s[..i], s[i + 1..];
      var pieces := Split(rest, sep);
      assert Split(s, sep) == [a] + pieces;
      JoinSplit(rest, sep);
      JoinCons(a, pieces, sep);
      assert Join(Split(s, sep), sep) == a + [sep] + rest;
      Reassemble(s, i);
    }
  }

  /** Cutting a string around position i and gluing the parts back gives it again. */
  lemma Reassemble(s: string, i: nat)
    requires i < |s|
    ensures s[..i] + [s[i]] + s[i + 1..] == s
  {
  }

  /** Joining a piece in front of at least one more piece puts a separator between them. */
  lemma JoinCons(a: string, parts: seq<string>, sep: char)
    requires |parts| >= 1
    ensures Join([a] + parts, sep) == a + [sep] + Join(parts, sep)
  {
    var all := [a] + parts;
    assert all[0] == a && all[1..] == parts;
  }

  /** No piece contains the separator. */
  lemma {:induction false} SplitPiecesFree(s: string, sep: char)
    ensures forall k :: 0 <= k < |Split(s, sep)| ==> sep !in Split(s, sep)[k]
    decreases |s|
  {
    var i := IndexOf(s, sep);
    var parts := Split(s, sep);
    if i < |s| {
      var first, rest := s[..i], Split(s[i + 1..], sep);
      SplitPiecesFree(s[i + 1..], sep);
      assert parts == [first] + rest;
      assert sep !in first by {
        forall k | 0 <= k < |first| ensures first[k] != sep {
          assert first[k] == s[k];
        }
      }
      forall k | 0 <= k < |parts| ensures sep !in parts[k] {
        if k > 0 { assert parts[k] == rest[k - 1]; }
      }
    } else {
      assert parts == [s];
    }
  }

  /** A string without the separator splits into itself alone. */
  lemma SplitFree(a: string, sep: char)
    requires sep !in a
    ensures Split(a, sep) == [a]
  {
    assert IndexOf(a, sep) == |a|;
  }

  /** Splitting peels off a separator-free first piece. */
  lemma SplitCons(a: string, rest: string, sep: char)
    requires sep !in a
    ensures Split(a + [sep] + rest, sep) == [a] + Split(rest, sep)
  {
    var s := a + [sep] + rest;
    IndexOfCons(a, rest, sep);
    assert s[..|a|] == a;
    assert s[|a| + 1..] == rest;
  }

  lemma {:induction false} IndexOfCons(a: string, rest: string, sep: char)
    requires sep !in a
    ensures IndexOf(a + [sep] + rest, sep) == |a|
  {
    var s := a + [sep] + rest;
    if a != [] {
      assert s[1..] == a[1..] + [sep] + rest;
      IndexOfCons(a[1..], rest, sep);
    }
  }

  /** Four separator-free pieces joined by the separator split back into those four. */
  lemma SplitFour(a: string, b: string, c: string, d: string, sep: char)
    requires sep !in a && sep !in b && sep !in c && sep !in d
    ensures var p := Split(a + [sep] + (b + [sep] + (c + [sep] + d)), sep);
      |p| == 4 && p[0] == a && p[1] == b && p[2] == c && p[3] == d
  {
    var rest := b + [sep] + (c + [sep] + d);
    SplitThree(b, c, d, sep);
    SplitCons(a, rest, sep);
    var q, p := Split(rest, sep), Split(a + [sep] + rest, sep);
    assert |p| == 4 && p[0] == a && p[1..] == q;
  }

  /** Three separator-free pieces joined by the separator split back into those three. */
  lemma SplitThree(b: string, c: string, d: string, sep: char)
    requires sep !in b && sep !in c && sep !in d
    ensures var p := Split(b + [sep] + (c + [sep] + d), sep);
      |p| == 3 && p[0] == b && p[1] == c && p[2] == d
  {
    var rest := c + [sep] + d;
    SplitFree(d, sep);
    SplitCons(c, d, sep);
    SplitCons(b, rest, sep);
    var q, p := Split(rest, sep), Split(b + [sep] + rest, sep);
    assert |q| == 2 && q[0] == c && q[1] == d;
    assert |p| == 3 && p[0] == b && p[1..] == q;
  }

  /** Regrouping a four-piece join to the right. */
  lemma ConcatAssoc6(a: string, sep: string, b: string, c: string, d: string)
    ensures a + sep + b + sep + c + sep + d == a + sep + (b + sep + (c + sep + d))
  {
  }

  /** Joining exactly four pieces, written out. */
  lemma JoinFour(p: seq<string>, sep: char)
    requires |p| == 4
    ensures Join(p, sep) == p[0] + [sep] + (p[1] + [sep] + (p[2] + [sep] + p[3]))
  {
    var t1, t2, t3 := p[1..], p[2..], p[3..];
    assert t1[1..] == t2 && t2[1..] == t3;
    assert Join(t3, sep) == p[3];
    assert Join(t2, sep) == p[2] + [sep] + p[3];
    assert Join(t1, sep) == p[1] + [sep] + (p[2] + [sep] + p[3]);
  }

  /** Code-point lexicographic order on strings (the C collation). */
  predicate LexLe(a: string, b: string)
  {
    if a == [] then true
    else if b == [] then false
    else if a[0] != b[0] then a[0] < b[0]
    else LexLe(a[1..], b[1..])
  }

  lemma {:induction false} LexTotal(a: string, b: string)
    ensures LexLe(a, b) || LexLe(b, a)
  {
    if a != [] && b != [] && a[0] == b[0] {
      LexTotal(a[1..], b[1..]);
    }
  }

  lemma {:induction false} LexTrans(a: string, b: string, c: string)
    requires LexLe(a, b) && LexLe(b, c)
    ensures LexLe(a, c)
  {
    if a != [] && b != [] && c != [] && a[0] == b[0] && b[0] == c[0] {
      LexTrans(a[1..], b[1..], c[1..]);
    }
  }

  function DigitChar(d: nat): char
    requires d < 10
  {
    "0123456789"[d]
  }

  function NatToString(n: nat): string
  {
    if n < 10 then [DigitChar(n)] else NatToString(n / 10) + [DigitChar(n % 10)]
  }

  /** strconv.Itoa and strconv.FormatInt(_, 10): decimal, with a leading '-' when negative. */
  function Itoa(n: int): string
  {
    if n < 0 then "-" + NatToString(-n) else NatToString(n)
  }
}
