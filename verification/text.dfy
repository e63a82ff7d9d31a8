/**
  String operations the server applies to its text: `String.prototype.includes`,
  the global `\n` to `<br>` replacement that derives the HTML mail body, and
  the ASCII upper-casing of a first letter.
 */
module Text {

  /** `sub` occurs in `s` starting at index `i`. */
  predicate OccursAt(s: string, sub: string, i: int) {
    0 <= i && i + |sub| <= |s| && s[i..i + |sub|] == sub
  }

  /** The specification of a substring test. */
  ghost predicate Contains(s: string, sub: string) {
    exists i :: OccursAt(s, sub, i)
  }

  /** Scans `s` from index `from` for an occurrence of `sub`. */
  function IncludesFrom(s: string, sub: string, from: nat): (r: bool)
    ensures r <==> exists i :: from <= i && OccursAt(s, sub, i)
    decreases |s| - from
  {
    if from + |sub| > |s| then false
    else if s[from..from + |sub|] == sub then assert OccursAt(s, sub, from); true
    else IncludesFrom(s, sub, from + 1)
  }

  /** `s.includes(sub)`: true exactly when `sub` occurs somewhere in `s`. */
  function Includes(s: string, sub: string): (r: bool)
    ensures r <==> Contains(s, sub)
  {
    IncludesFrom(s, sub, 0)
  }

  /** A string placed between two others is contained in the concatenation. */
  lemma ContainsInMiddle(a: string, sub: string, b: string)
    ensures Contains(a + sub + b, sub)
  {
    assert (a + sub + b)[|a|..|a| + |sub|] == sub;
    assert OccursAt(a + sub + b, sub, |a|);
  }

  /** An occurrence in a suffix is an occurrence in the whole string. */
  lemma ContainsSuffix(s: string, sub: string, k: nat)
    requires k <= |s|
    requires Contains(s[k..], sub)
    ensures Contains(s, sub)
  {
    var i :| OccursAt(s[k..], sub, i);
    assert s[k + i..k + i + |sub|] == s[k..][i..i + |sub|];
    assert OccursAt(s, sub, k + i);
  }

  /** Containment carries over from a part to the whole. */
  lemma ContainsTransitive(a: string, b: string, c: string)
    requires Contains(a, b) && Contains(b, c)
    ensures Contains(a, c)
  {
    var i :| OccursAt(a, b, i);
    var j :| OccursAt(b, c, j);
    forall t | 0 <= t < |c|
      ensures a[i + j + t] == c[t]
    {
      assert b[j..j + |c|][t] == c[t];
      assert a[i..i + |b|][j + t] == b[j + t];
    }
    assert a[i + j..i + j + |c|] == c;
    assert OccursAt(a, c, i + j);
  }

  /** A string cannot occur where its first character never appears. */
  lemma AbsentFirstCharNotContained(s: string, sub: string)
    requires |sub| > 0 && sub[0] !in s
    ensures !Contains(s, sub)
  {
  }

  const Br: string := "<br>"

  /** `s.replace(/\n/g, '<br>')`. */
  function ReplaceNewlines(s: string): (r: string)
    ensures '\n' !in r
    ensures |r| >= |s|
    ensures '\n' !in s ==> r == s
    ensures |s| == 1 ==> r == (if s[0] == '\n' then Br else s)
  {
    if s == [] then []
    else (if s[0] == '\n' then Br else [s[0]]) + ReplaceNewlines(s[1..])
  }

  /** The replacement works character by character: it distributes over concatenation. */
  lemma {:induction false} ReplaceNewlinesAppend(a: string, b: string)
    ensures ReplaceNewlines(a + b) == ReplaceNewlines(a) + ReplaceNewlines(b)
    decreases |a|
  {
    if a == [] {
      assert a + b == b;
    } else {
      var head := if a[0] == '\n' then Br else [a[0]];
      assert (a + b)[0] == a[0] && (a + b)[1..] == a[1..] + b;
      ReplaceNewlinesAppend(a[1..], b);
      calc {
        ReplaceNewlines(a + b);
        head + ReplaceNewlines(a[1..] + b);
        head + (ReplaceNewlines(a[1..]) + ReplaceNewlines(b));
        (head + ReplaceNewlines(a[1..])) + ReplaceNewlines(b);
        ReplaceNewlines(a) + ReplaceNewlines(b);
      }
    }
  }

  /** The inverse rewriting: every `<br>`, read left to right, becomes a newline. */
  function RestoreNewlines(r: string): string
    decreases |r|
  {
    if |r| >= 4 && r[..4] == Br then "\n" + RestoreNewlines(r[4..])
    else if r == [] then []
    else [r[0]] + RestoreNewlines(r[1..])
  }

  /** A prefix of the replaced text free of `<` is already a prefix of the original. */
  lemma {:induction false} ReplacedPrefix(t: string, p: string)
    requires '<' !in p
    requires |p| <= |ReplaceNewlines(t)| && ReplaceNewlines(t)[..|p|] == p
    ensures |p| <= |t| && t[..|p|] == p
    decreases |p|
  {
    if p != [] {
      var x := ReplaceNewlines(t);
      assert t != [];
      assert x[0] == p[0];
      assert t[0] != '\n';
      assert x == [t[0]] + ReplaceNewlines(t[1..]);
      assert ReplaceNewlines(t[1..])[..|p| - 1] == p[1..];
      ReplacedPrefix(t[1..], p[1..]);
      assert t[..|p|] == [t[0]] + t[1..][..|p| - 1];
    }
  }

  lemma RestoreAfterBr(x: string)
    ensures RestoreNewlines(Br + x) == "\n" + RestoreNewlines(x)
  {
  }

  lemma RestoreAfterChar(c: char, x: string)
    requires !(|x| >= 3 && ([c] + x)[..4] == Br)
    ensures RestoreNewlines([c] + x) == [c] + RestoreNewlines(x)
  {
  }

  /** A `<br>` at the head of the replaced text, after a character other than a newline, was already in the original. */
  lemma BrAtHeadOnlyIfContained(s: string)
    requires s != [] && s[0] != '\n'
    ensures |ReplaceNewlines(s[1..])| >= 3 && ([s[0]] + ReplaceNewlines(s[1..]))[..4] == Br ==> Contains(s, Br)
  {
    var x := ReplaceNewlines(s[1..]);
    if |x| >= 3 && ([s[0]] + x)[..4] == Br {
      var y := [s[0]] + x;
      assert x[0] == y[1] == 'b' && x[1] == y[2] == 'r' && x[2] == y[3] == '>';
      assert x[..3] == "br>";
      ReplacedPrefix(s[1..], "br>");
      assert s[..4] == Br;
      assert OccursAt(s, Br, 0);
    }
  }

  /**
    When the text holds no literal `<br>`, the HTML body determines the text:
    turning each `<br>` back into a newline recovers it exactly.
   */
  lemma {:induction false} RestoreAfterReplace(s: string)
    requires !Contains(s, Br)
    ensures RestoreNewlines(ReplaceNewlines(s)) == s
    decreases |s|
  {
    if s != [] {
      var x := ReplaceNewlines(s[1..]);
      if Contains(s[1..], Br) {
        ContainsSuffix(s, Br, 1);
      }
      RestoreAfterReplace(s[1..]);
      if s[0] == '\n' {
        assert ReplaceNewlines(s) == Br + x;
        RestoreAfterBr(x);
      } else {
        assert ReplaceNewlines(s) == [s[0]] + x;
        BrAtHeadOnlyIfContained(s);
        RestoreAfterChar(s[0], x);
      }
      assert s == [s[0]] + s[1..];
    }
  }

  lemma RestoreWhenNoBr(s: string)
    ensures !Contains(s, Br) ==> RestoreNewlines(ReplaceNewlines(s)) == s
  {
    if !Contains(s, Br) {
      RestoreAfterReplace(s);
    }
  }

  predicate IsLowerAscii(c: char) {
    'a' <= c <= 'z'
  }

  /** `toUpperCase` on one character, for the ASCII letters. */
  function UpperChar(c: char): (u: char)
    ensures !IsLowerAscii(u)
    ensures IsLowerAscii(c) ==> 'A' <= u <= 'Z' && (c as int) - (u as int) == 32
    ensures !IsLowerAscii(c) ==> u == c
  {
    if IsLowerAscii(c) then ((c as int) - 32) as char else c
  }

  /** `s.charAt(0).toUpperCase() + s.slice(1)`. */
  function Capitalize(s: string): (r: string)
    ensures |r| == |s|
    ensures forall i :: 1 <= i < |s| ==> r[i] == s[i]
    ensures |s| > 0 ==> r[0] == UpperChar(s[0]) && !IsLowerAscii(r[0])
    ensures |s| > 0 && !IsLowerAscii(s[0]) ==> r == s
  {
    if s == [] then [] else [UpperChar(s[0])] + s[1..]
  }

  /** `toLowerCase` on one character, for the ASCII letters. */
  function LowerChar(c: char): char {
    if 'A' <= c <= 'Z' then ((c as int) + 32) as char else c
  }

  /** Lower-casing the first character again: the partner of `Capitalize`. */
  function Decapitalize(s: string): string {
    if s == [] then [] else [LowerChar(s[0])] + s[1..]
  }

  /** A name starting with a lower-case ASCII letter, such as every sign name, is recovered from its capitalized form. */
  lemma DecapitalizeRecovers(s: string)
    requires s == [] || IsLowerAscii(s[0])
    ensures Decapitalize(Capitalize(s)) == s
  {
    if s != [] {
      assert Capitalize(s) == [UpperChar(s[0])] + s[1..];
      assert LowerChar(UpperChar(s[0])) == s[0];
      assert ([LowerChar(UpperChar(s[0]))] + s[1..]) == s;
    }
  }

  /** Capitalizing twice is the same as capitalizing once. */
  lemma CapitalizeIdempotent(s: string)
    ensures Capitalize(Capitalize(s)) == Capitalize(s)
  {
  }
}
