// The string built-ins the workers rely on: ASCII case mapping, `strip`,
// substring search, `replace`, code-point order and `sorted(set(...))`.

module Text {

  /** `str.lower()` on one character (ASCII letters only). */
  function LowerChar(c: char): char
  {
    if 'A' <= c <= 'Z' then (c as int + 32) as char else c
  }

  /** `str.upper()` on one character (ASCII letters only). */
  function UpperChar(c: char): char
  {
    if 'a' <= c <= 'z' then (c as int - 32) as char else c
  }

  function Lower(s: string): string
  {
    seq(|s|, i requires 0 <= i < |s| => LowerChar(s[i]))
  }

  function Upper(s: string): string
  {
    seq(|s|, i requires 0 <= i < |s| => UpperChar(s[i]))
  }

  /** The characters `str.isspace()` accepts that `str.strip()` removes. */
  predicate IsSpace(c: char)
  {
    var n := c as int;
    9 <= n <= 13 || 28 <= n <= 32 || n == 0x85 || n == 0xA0 || n == 0x1680
    || 0x2000 <= n <= 0x200A || n == 0x2028 || n == 0x2029 || n == 0x202F
    || n == 0x205F || n == 0x3000
  }

  predicate IsBacktick(c: char)
  {
    c == '`'
  }

  /** Removes the leading characters that `drop` accepts. */
  function TrimLeft(s: string, drop: char -> bool): (r: string)
    ensures |r| <= |s| && r == s[|s| - |r|..]
    ensures r != [] ==> !drop(r[0])
    ensures forall i :: 0 <= i < |s| - |r| ==> drop(s[i])
  {
    if s != [] && drop(s[0]) then TrimLeft(s[1..], drop) else s
  }

  /** Removes the trailing characters that `drop` accepts. */
  function TrimRight(s: string, drop: char -> bool): (r: string)
    ensures |r| <= |s| && r == s[..|r|]
    ensures r != [] ==> !drop(r[|r| - 1])
    ensures forall i :: |r| <= i < |s| ==> drop(s[i])
  {
    if s != [] && drop(s[|s| - 1]) then TrimRight(s[..|s| - 1], drop) else s
  }

  /** Trimming stops where the first kept character stands. */
  lemma TrimLeftAt(p: string, t: string, drop: char -> bool)
    requires forall i :: 0 <= i < |p| ==> drop(p[i])
    requires t != [] ==> !drop(t[0])
    ensures TrimLeft(p + t, drop) == t
  {
    var s := p + t;
    assert s[|p|..] == t;
  }

  /** Trimming from the right stops at the last kept character. */
  lemma TrimRightAt(t: string, p: string, drop: char -> bool)
    requires forall i :: 0 <= i < |p| ==> drop(p[i])
    requires t != [] ==> !drop(t[|t| - 1])
    ensures TrimRight(t + p, drop) == t
  {
    var s := t + p;
    assert s[..|t|] == t;
  }

  /** `s.strip()`. */
  function Strip(s: string): string
  {
    TrimRight(TrimLeft(s, IsSpace), IsSpace)
  }

  /** `s.strip("`")`. */
  function StripBackticks(s: string): string
  {
    TrimRight(TrimLeft(s, IsBacktick), IsBacktick)
  }

  /** Whatever `strip` removes, what is left is one contiguous piece of the
      input whose ends are not whitespace. */
  lemma StripIsSlice(s: string)
    ensures exists a, b :: 0 <= a <= b <= |s| && Strip(s) == s[a..b]
    ensures Strip(s) != [] ==> !IsSpace(Strip(s)[0]) && !IsSpace(Strip(s)[|Strip(s)| - 1])
  {
    var l := TrimLeft(s, IsSpace);
    var a := |s| - |l|;
    var r := TrimRight(l, IsSpace);
    assert r == s[a..a + |r|];
  }

  predicate StartsWith(s: string, p: string)
  {
    |p| <= |s| && s[..|p|] == p
  }

  /** `sub` occurs in `s` starting at index `i`. */
  predicate OccursAt(s: string, sub: string, i: int)
  {
    0 <= i <= |s| - |sub| && s[i..i + |sub|] == sub
  }

  /** Python `sub in s`. */
  predicate Contains(s: string, sub: string)
  {
    exists i | 0 <= i <= |s| - |sub| :: OccursAt(s, sub, i)
  }

  /** Python `any(k in text for k in keywords)`. */
  predicate ContainsAny(text: string, keywords: seq<string>)
  {
    keywords != [] && (Contains(text, keywords[0]) || ContainsAny(text, keywords[1..]))
  }

  /** `ContainsAny` holds exactly when one of the keywords occurs. */
  lemma {:induction false} ContainsAnyIff(text: string, keywords: seq<string>)
    ensures ContainsAny(text, keywords) <==> exists k :: k in keywords && Contains(text, k)
  {
    if keywords != [] {
      ContainsAnyIff(text, keywords[1..]);
      assert forall k :: k in keywords <==> k == keywords[0] || k in keywords[1..];
    }
  }

  /** An occurrence inside a piece of `s` is an occurrence in `s`. */
  lemma ContainsInSlice(s: string, a: nat, b: nat, sub: string)
    requires a <= b <= |s|
    requires Contains(s[a..b], sub)
    ensures Contains(s, sub)
  {
    var i :| 0 <= i <= (b - a) - |sub| && OccursAt(s[a..b], sub, i);
    forall k | 0 <= k < |sub| ensures s[a + i..a + i + |sub|][k] == sub[k] {
      assert s[a..b][i..i + |sub|][k] == s[a + i + k];
    }
    assert s[a + i..a + i + |sub|] == sub;
    assert OccursAt(s, sub, a + i);
  }

  /** Python `s.replace(pat, rep)`: left to right, non-overlapping. */
  function ReplaceAll(s: string, pat: string, rep: string): string
    requires pat != []
    decreases |s|
  {
    if |s| < |pat| then s
    else if s[..|pat|] == pat then rep + ReplaceAll(s[|pat|..], pat, rep)
    else [s[0]] + ReplaceAll(s[1..], pat, rep)
  }

  /** Replacing a one-character pattern works character by character, so it
      distributes over concatenation. */
  lemma {:induction false} ReplaceCharConcat(s: string, t: string, c: char, rep: string)
    ensures ReplaceAll(s + t, [c], rep) == ReplaceAll(s, [c], rep) + ReplaceAll(t, [c], rep)
    decreases |s|
  {
    if s != [] {
      assert (s + t)[..1] == s[..1] && (s + t)[1..] == s[1..] + t && (s + t)[0] == s[0];
      ReplaceCharConcat(s[1..], t, c, rep);
    } else {
      assert s + t == t;
    }
  }

  /** A string without the character is left as it is. */
  lemma {:induction false} ReplaceAbsentChar(s: string, c: char, rep: string)
    requires c !in s
    ensures ReplaceAll(s, [c], rep) == s
    decreases |s|
  {
    if s != [] {
      assert s[..1] == [s[0]] && s[0] != c;
      ReplaceAbsentChar(s[1..], c, rep);
      assert [s[0]] + s[1..] == s;
    }
  }

  const Fence: string := "```"

  /** Removing the fence does not touch a leading character that is not a
      backtick. */
  lemma KeepsLeadingNonTick(s: string)
    requires s != [] && s[0] != '`'
    ensures ReplaceAll(s, Fence, "") != [] && ReplaceAll(s, Fence, "")[0] == s[0]
  {
    if |s| >= 3 {
      assert s[..3][0] == s[0];
    }
  }

  /** `s.replace("```", "")` leaves no "```" behind: a run of backticks is cut
      to fewer than three and runs never merge. */
  lemma {:induction false} NoFenceLeft(s: string)
    ensures !Contains(ReplaceAll(s, Fence, ""), Fence)
    decreases |s|
  {
    var r := ReplaceAll(s, Fence, "");
    if |s| < 3 {
      assert r == s;
    } else if s[..3] == Fence {
      NoFenceLeft(s[3..]);
      assert r == ReplaceAll(s[3..], Fence, "");
    } else {
      var x := ReplaceAll(s[1..], Fence, "");
      NoFenceLeft(s[1..]);
      assert r == [s[0]] + x;
      forall j | 0 <= j <= |r| - 3 ensures !OccursAt(r, Fence, j) {
        if j > 0 {
          assert r[j..j + 3] == x[j - 1..j - 1 + 3];
          assert !OccursAt(x, Fence, j - 1);
        } else {
          assert Fence[0] == '`' && Fence[1] == '`' && Fence[2] == '`';
          assert r[0..3][0] == r[0] && r[0..3][1] == r[1] && r[0..3][2] == r[2];
          if s[0] == '`' {
            if s[1] != '`' {
              KeepsLeadingNonTick(s[1..]);
              assert r[1] != '`';
            } else {
              assert s[2] != '`' by { assert s[..3][2] == s[2]; }
              if |s| == 3 {
                assert x == s[1..];
              } else {
                assert s[1..][..3][1] == s[2];
                assert x == [s[1]] + ReplaceAll(s[2..], Fence, "");
                KeepsLeadingNonTick(s[2..]);
              }
              assert r[2] != '`';
            }
          }
        }
      }
    }
  }

  /** Python's string order: code points compared left to right, a proper
      prefix first. */
  predicate LexLt(a: string, b: string)
    decreases |a|
  {
    if a == [] then b != []
    else if b == [] then false
    else a[0] < b[0] || (a[0] == b[0] && LexLt(a[1..], b[1..]))
  }

  predicate LexLe(a: string, b: string)
  {
    a == b || LexLt(a, b)
  }

  lemma {:induction false} LexLtIrreflexive(a: string)
    ensures !LexLt(a, a)
    decreases |a|
  {
    if a != [] {
      LexLtIrreflexive(a[1..]);
    }
  }

  lemma {:induction false} LexLtTransitive(a: string, b: string, c: string)
    requires LexLt(a, b) && LexLt(b, c)
    ensures LexLt(a, c)
    decreases |a|
  {
    if a != [] && a[0] == b[0] && b[0] == c[0] {
      LexLtTransitive(a[1..], b[1..], c[1..]);
    }
  }

  lemma {:induction false} LexLtTotal(a: string, b: string)
    requires a != b
    ensures LexLt(a, b) || LexLt(b, a)
    decreases |a|
  {
    if a != [] && b != [] && a[0] == b[0] {
      assert a == [a[0]] + a[1..] && b == [b[0]] + b[1..];
      LexLtTotal(a[1..], b[1..]);
    }
  }

  lemma LexLtAsymmetric(a: string, b: string)
    requires LexLt(a, b)
    ensures !LexLt(b, a)
  {
    if LexLt(b, a) {
      LexLtTransitive(a, b, a);
      LexLtIrreflexive(a);
    }
  }

  lemma LexLeTransitive(a: string, b: string, c: string)
    requires LexLe(a, b) && LexLe(b, c)
    ensures LexLe(a, c)
  {
    if a != b && b != c {
      LexLtTransitive(a, b, c);
    }
  }

  /** Two strings are in order one way or the other. */
  lemma LexLeTotal(a: string, b: string)
    ensures LexLe(a, b) || LexLt(b, a)
  {
    if a != b {
      LexLtTotal(a, b);
    }
  }

  predicate StrictlyAscending(s: seq<string>)
  {
    forall i, j :: 0 <= i < j < |s| ==> LexLt(s[i], s[j])
  }

  /** Adds `x` to an ascending duplicate-free list, keeping it so. */
  function InsertUnique(x: string, s: seq<string>): (r: seq<string>)
    requires StrictlyAscending(s)
    ensures StrictlyAscending(r)
    ensures forall y :: y in r <==> y == x || y in s
  {
    if s == [] then [x]
    else if x == s[0] then s
    else if LexLt(x, s[0]) then
      assert forall j :: 0 < j < |s| ==> LexLt(x, s[j]) by {
        forall j | 0 < j < |s| ensures LexLt(x, s[j]) {
          LexLtTransitive(x, s[0], s[j]);
        }
      }
      [x] + s
    else
      LexLtTotal(x, s[0]);
      var t := InsertUnique(x, s[1..]);
      assert forall y :: y in t ==> LexLt(s[0], y);
      [s[0]] + t
  }

  /** `sorted(set(xs))`: ascending, without duplicates, same members. */
  function SortedUnique(xs: seq<string>): (r: seq<string>)
    ensures StrictlyAscending(r)
    ensures forall y :: y in r <==> y in xs
  {
    if xs == [] then [] else InsertUnique(xs[0], SortedUnique(xs[1..]))
  }

  /** An ascending list has no repeated element. */
  lemma AscendingDistinct(s: seq<string>, i: nat, j: nat)
    requires StrictlyAscending(s)
    requires i < j < |s|
    ensures s[i] != s[j]
  {
    LexLtIrreflexive(s[i]);
  }

  /** `str(n)` of a non-negative integer. */
  function NatToString(n: nat): (r: string)
    ensures r != []
    ensures forall i :: 0 <= i < |r| ==> '0' <= r[i] <= '9'
  {
    var d := ['0' + (n % 10) as char];
    if n < 10 then d else NatToString(n / 10) + d
  }

  /** `sep.join(parts)`. */
  function Join(parts: seq<string>, sep: string): string
  {
    if parts == [] then ""
    else if |parts| == 1 then parts[0]
    else parts[0] + sep + Join(parts[1..], sep)
  }
}
