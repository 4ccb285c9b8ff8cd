/**
 * The java.lang.String operations the core relies on. Case mapping covers the
 * ASCII letters and the Latin-1 letters used in Portuguese (À..Þ ↔ à..þ).
 */
module Texto {
  import opened Wrappers

  /** `Character.isWhitespace`: the ASCII separators and the Unicode space separators except the no-break spaces. */
  predicate IsWhitespace(c: char)
  {
    c == ' ' || c == '\t' || c == '\n' || c == '\U{000B}' || c == '\U{000C}' || c == '\r'
    || ('\U{001C}' <= c <= '\U{001F}') || c == '\U{1680}'
    || ('\U{2000}' <= c <= '\U{2006}') || ('\U{2008}' <= c <= '\U{200A}')
    || c == '\U{2028}' || c == '\U{2029}' || c == '\U{205F}' || c == '\U{3000}'
  }

  /** `String.isBlank`: empty, or whitespace only. */
  predicate IsBlank(s: string)
  {
    forall i :: 0 <= i < |s| ==> IsWhitespace(s[i])
  }

  /** A Java string that is neither null nor blank (`s != null && !s.isBlank()`). */
  predicate HasText(s: Option<string>)
  {
    s.Some? && !IsBlank(s.value)
  }

  /**
   * `String.trim`: drops leading and trailing characters up to U+0020. The
   * result is a slice whose ends are above U+0020 and outside which every
   * character is at most U+0020, so it is the longest such slice.
   */
  function Trim(s: string): (r: string)
    ensures |r| <= |s|
    ensures r == [] || (r[0] > ' ' && r[|r| - 1] > ' ')
    ensures exists i, j :: 0 <= i <= j <= |s| && r == s[i..j]
                        && (forall k :: 0 <= k < i ==> s[k] <= ' ')
                        && (forall k :: j <= k < |s| ==> s[k] <= ' ')
  {
    var t := TrimStart(s);
    var r := TrimEnd(t);
    FimDaFatia(s, t, r);
    r
  }

  /** A prefix `r` of a suffix `t` of `s`: what `t` has after `r` is what `s` has after the slice. */
  lemma {:induction false} FimDaFatia(s: string, t: string, r: string)
    requires |t| <= |s| && t == s[|s| - |t|..]
    requires |r| <= |t| && r == t[..|r|]
    requires forall k :: |r| <= k < |t| ==> t[k] <= ' '
    ensures r == s[|s| - |t|..|s| - |t| + |r|]
    ensures forall k :: |s| - |t| + |r| <= k < |s| ==> s[k] <= ' '
  {
    var i := |s| - |t|;
    forall k | i + |r| <= k < |s| ensures s[k] <= ' ' {
      assert s[k] == t[k - i];
    }
  }

  /** The text after its leading characters up to U+0020. */
  function TrimStart(s: string): (r: string)
    ensures r == [] || r[0] > ' '
    ensures |r| <= |s| && r == s[|s| - |r|..]
    ensures forall k :: 0 <= k < |s| - |r| ==> s[k] <= ' '
  {
    if s == [] then s
    else if s[0] <= ' ' then TrimStart(s[1..])
    else s
  }

  /** The text before its trailing characters up to U+0020. */
  function TrimEnd(s: string): (r: string)
    ensures r == [] || r[|r| - 1] > ' '
    ensures |r| <= |s| && r == s[..|r|]
    ensures forall k :: |r| <= k < |s| ==> s[k] <= ' '
    ensures s != [] && s[0] > ' ' ==> r != [] && r[0] == s[0]
  {
    if s == [] then s
    else if s[|s| - 1] <= ' ' then
      var r := TrimEnd(s[..|s| - 1]);
      assert s[..|s| - 1][..|r|] == s[..|r|];
      r
    else s
  }

  predicate IsUpperLetter(c: char)
  {
    ('A' <= c <= 'Z') || ('À' <= c <= 'Þ' && c != '×')
  }

  predicate IsLowerLetter(c: char)
  {
    ('a' <= c <= 'z') || ('à' <= c <= 'þ' && c != '÷')
  }

  /** `Character.toLowerCase` on the letters above; every other character is kept. */
  function ToLowerChar(c: char): (r: char)
    ensures IsUpperLetter(c) ==> IsLowerLetter(r)
    ensures !IsUpperLetter(c) ==> r == c
  {
    if IsUpperLetter(c) then (c as int + 32) as char else c
  }

  /** `Character.toUpperCase` on the letters above; every other character is kept. */
  function ToUpperChar(c: char): (r: char)
    ensures IsLowerLetter(c) ==> IsUpperLetter(r)
    ensures !IsLowerLetter(c) ==> r == c
  {
    if IsLowerLetter(c) then (c as int - 32) as char else c
  }

  /** `String.toLowerCase`. */
  function ToLower(s: string): (r: string)
    ensures |r| == |s|
    ensures forall i :: 0 <= i < |s| ==> r[i] == ToLowerChar(s[i])
  {
    if s == [] then [] else [ToLowerChar(s[0])] + ToLower(s[1..])
  }

  /** `String.toUpperCase`. */
  function ToUpper(s: string): (r: string)
    ensures |r| == |s|
    ensures forall i :: 0 <= i < |s| ==> r[i] == ToUpperChar(s[i])
  {
    if s == [] then [] else [ToUpperChar(s[0])] + ToUpper(s[1..])
  }

  /** `String.equalsIgnoreCase` on a non-null argument. */
  predicate EqualsIgnoreCase(a: string, b: string)
  {
    ToLower(a) == ToLower(b)
  }

  predicate StartsWith(s: string, prefix: string)
  {
    |prefix| <= |s| && s[..|prefix|] == prefix
  }

  predicate EndsWith(s: string, suffix: string)
  {
    |suffix| <= |s| && s[|s| - |suffix|..] == suffix
  }

  /** `String.contains`: `sub` occurs at some position of `s`. */
  predicate Contains(s: string, sub: string)
  {
    exists i :: 0 <= i <= |s| - |sub| && OccursAt(s, sub, i)
  }

  predicate OccursAt(s: string, sub: string, i: int)
  {
    0 <= i <= |s| - |sub| && s[i..i + |sub|] == sub
  }

  /** `String.replace(char, char)`. */
  function ReplaceChar(s: string, from: char, to: char): (r: string)
    ensures |r| == |s|
    ensures forall i :: 0 <= i < |s| ==> r[i] == (if s[i] == from then to else s[i])
  {
    if s == [] then [] else [if s[0] == from then to else s[0]] + ReplaceChar(s[1..], from, to)
  }

  /** `String.lastIndexOf(char)`: the last position holding `c`, or -1. */
  function LastIndexOf(s: string, c: char): (r: int)
    ensures -1 <= r < |s|
    ensures r >= 0 ==> s[r] == c
    ensures forall k :: r < k < |s| ==> s[k] != c
  {
    if s == [] then -1
    else if s[|s| - 1] == c then |s| - 1
    else LastIndexOf(s[..|s| - 1], c)
  }

  /** The first `n` copies of `c`. */
  function Repeat(c: char, n: nat): (r: string)
    ensures |r| == n
    ensures forall i :: 0 <= i < n ==> r[i] == c
  {
    if n == 0 then [] else [c] + Repeat(c, n - 1)
  }

  /** `Array.prototype.join` / `String.join`: the parts separated by `sep`. */
  function Join(parts: seq<string>, sep: string): string
  {
    if parts == [] then ""
    else if |parts| == 1 then parts[0]
    else parts[0] + sep + Join(parts[1..], sep)
  }

  /** The text before the first `c` (all of `s` when there is none). */
  function BeforeFirst(s: string, c: char): (r: string)
    ensures |r| <= |s| && r == s[..|r|]
    ensures c !in r
    ensures |r| < |s| ==> s[|r|] == c
  {
    if s == [] then []
    else if s[0] == c then []
    else [s[0]] + BeforeFirst(s[1..], c)
  }

  /** The text after the first `c` ("" when there is none). */
  function AfterFirst(s: string, c: char): (r: string)
    ensures c in s ==> s == BeforeFirst(s, c) + [c] + r
    ensures c !in s ==> r == ""
  {
    if s == [] then []
    else if s[0] == c then
      assert s == [c] + s[1..];
      s[1..]
    else
      var r := AfterFirst(s[1..], c);
      assert s == [s[0]] + s[1..];
      assert c in s ==> c in s[1..];
      assert BeforeFirst(s, c) == [s[0]] + BeforeFirst(s[1..], c);
      r
  }

  /** The pieces of `s` between occurrences of `c`, empty ones included. */
  function Pedacos(s: string, c: char): (r: seq<string>)
    ensures |r| >= 1
    ensures r[0] == BeforeFirst(s, c)
    decreases |s|
  {
    if c !in s then
      assert BeforeFirst(s, c) == s;
      [s]
    else [BeforeFirst(s, c)] + Pedacos(AfterFirst(s, c), c)
  }

  /** A list of pieces with its trailing empty ones removed. */
  function SemVaziosNoFim(p: seq<string>): (r: seq<string>)
    ensures |r| <= |p| && r == p[..|r|]
    ensures r != [] ==> r[|r| - 1] != ""
    ensures forall i :: |r| <= i < |p| ==> p[i] == ""
  {
    if p == [] then []
    else if p[|p| - 1] == "" then
      var r := SemVaziosNoFim(p[..|p| - 1]);
      assert p[..|p| - 1][..|r|] == p[..|r|];
      assert forall i :: |r| <= i < |p| - 1 ==> p[..|p| - 1][i] == p[i];
      r
    else p
  }

  /** Every piece is empty. */
  predicate TodosVazios(p: seq<string>)
  {
    forall i :: 0 <= i < |p| ==> p[i] == ""
  }

  /** Only a list of empty pieces loses everything. */
  lemma {:induction false} SemVaziosNoFimVazio(p: seq<string>)
    ensures SemVaziosNoFim(p) == [] <==> TodosVazios(p)
  {
    if p != [] && p[|p| - 1] == "" {
      SemVaziosNoFimVazio(p[..|p| - 1]);
      assert forall i :: 0 <= i < |p| - 1 ==> p[..|p| - 1][i] == p[i];
    }
  }

  /** `String.split(String.valueOf(c))`: the string itself when `c` does not occur. */
  function Split(s: string, c: char): seq<string>
  {
    if c !in s then [s] else SemVaziosNoFim(Pedacos(s, c))
  }

  /** Every character of `s` is `c`. */
  predicate SoCom(s: string, c: char)
  {
    forall i :: 0 <= i < |s| ==> s[i] == c
  }

  lemma TodosVaziosCons(x: string, q: seq<string>)
    ensures TodosVazios([x] + q) <==> x == "" && TodosVazios(q)
  {
    var p := [x] + q;
    assert p[0] == x;
    assert forall i :: 0 <= i < |q| ==> q[i] == p[i + 1];
    assert forall i :: 1 <= i < |p| ==> p[i] == q[i - 1];
  }

  lemma SoComCons(c: char, a: string)
    ensures SoCom([c] + a, c) <==> SoCom(a, c)
  {
    var s := [c] + a;
    assert forall i :: 0 <= i < |a| ==> a[i] == s[i + 1];
  }

  lemma {:induction false} PedacosVazios(s: string, c: char)
    ensures TodosVazios(Pedacos(s, c)) <==> SoCom(s, c)
    decreases |s|
  {
    if c in s {
      var x, a := BeforeFirst(s, c), AfterFirst(s, c);
      PedacosVazios(a, c);
      assert Pedacos(s, c) == [x] + Pedacos(a, c);
      TodosVaziosCons(x, Pedacos(a, c));
      if x == "" {
        assert s == [c] + a;
        SoComCons(c, a);
      } else {
        assert s[0] == x[0] != c;
      }
    } else {
      assert Pedacos(s, c) == [s];
      TodosVaziosCons(s, []);
      assert [s] + [] == [s];
      if s != [] {
        assert s[0] != c;
      }
    }
  }

  /**
   * The split comes back empty exactly when the text is made of the
   * separator alone, and otherwise starts with the text before the first separator.
   */
  lemma SplitVazio(s: string, c: char)
    ensures Split(s, c) == [] <==> s != [] && SoCom(s, c)
    ensures Split(s, c) != [] ==> Split(s, c)[0] == BeforeFirst(s, c)
  {
    if c in s {
      PedacosVazios(s, c);
      SemVaziosNoFimVazio(Pedacos(s, c));
    } else if s != [] {
      assert s[0] != c;
    }
  }

  lemma {:induction false} BeforeFirstConcat(a: string, b: string, c: char)
    requires c !in a && b != [] && b[0] == c
    ensures BeforeFirst(a + b, c) == a
  {
    if a != [] {
      assert (a + b)[1..] == a[1..] + b;
      BeforeFirstConcat(a[1..], b, c);
    } else {
      assert a + b == b;
    }
  }

  lemma {:induction false} AfterFirstConcat(a: string, b: string, c: char)
    requires c !in a
    ensures AfterFirst(a + [c] + b, c) == b
    decreases |a|
  {
    var s := a + [c] + b;
    if a == [] {
      assert s == [c] + b;
      assert s[1..] == b;
    } else {
      assert s[0] == a[0] && s[1..] == a[1..] + [c] + b;
      AfterFirstConcat(a[1..], b, c);
    }
  }

  /** The pieces of text joined by a separator are that text's first piece and the pieces of the rest. */
  lemma PedacosConcat(a: string, b: string, c: char)
    requires c !in a
    ensures Pedacos(a + [c] + b, c) == [a] + Pedacos(b, c)
  {
    var s := a + [c] + b;
    assert s == a + ([c] + b);
    BeforeFirstConcat(a, [c] + b, c);
    AfterFirstConcat(a, b, c);
    assert s[|a|] == c;
    assert Pedacos(s, c) == [BeforeFirst(s, c)] + Pedacos(AfterFirst(s, c), c);
  }

  /** Every character of every text in `p` occurs in `s`. */
  predicate CaracteresEm(p: seq<string>, s: string)
  {
    forall k, j :: 0 <= k < |p| && 0 <= j < |p[k]| ==> p[k][j] in s
  }

  lemma CaracteresCons(x: string, q: seq<string>, a: string, c: char)
    requires CaracteresEm(q, a)
    ensures CaracteresEm([x] + q, x + [c] + a)
  {
    var p, s := [x] + q, x + [c] + a;
    forall k, j | 0 <= k < |p| && 0 <= j < |p[k]|
      ensures p[k][j] in s
    {
      if k == 0 {
        assert p[k][j] == s[j];
      } else {
        assert p[k] == q[k - 1];
        var m :| 0 <= m < |a| && a[m] == p[k][j];
        assert s[|x| + 1 + m] == a[m];
      }
    }
  }

  /** Every character of every piece comes from the text split. */
  lemma {:induction false} CaracteresDosPedacos(s: string, c: char)
    ensures CaracteresEm(Pedacos(s, c), s)
    decreases |s|
  {
    if c in s {
      var x, a := BeforeFirst(s, c), AfterFirst(s, c);
      CaracteresDosPedacos(a, c);
      assert Pedacos(s, c) == [x] + Pedacos(a, c);
      CaracteresCons(x, Pedacos(a, c), a, c);
    } else {
      assert Pedacos(s, c) == [s];
    }
  }

  /** The inductive step of `PedacosJuntados`, with the first piece of `a` split off. */
  lemma PedacosJuntadosPasso(a1: string, a2: string, b: string, c: char)
    requires c !in a1
    requires Pedacos(a2 + [c] + b, c) == Pedacos(a2, c) + Pedacos(b, c)
    ensures Pedacos(a1 + [c] + a2 + [c] + b, c) == Pedacos(a1 + [c] + a2, c) + Pedacos(b, c)
  {
    Reagrupar(a1, a2, b, c);
    PedacosConcat(a1, a2 + [c] + b, c);
    PedacosConcat(a1, a2, c);
    Associar([a1], Pedacos(a2, c), Pedacos(b, c));
  }

  lemma Associar<T>(x: seq<T>, y: seq<T>, z: seq<T>)
    ensures x + (y + z) == x + y + z
  {
  }

  lemma Reagrupar(a1: string, a2: string, b: string, c: char)
    ensures a1 + [c] + a2 + [c] + b == a1 + [c] + (a2 + [c] + b)
  {
  }

  /** Splitting text joined by the separator splits each side: no piece spans the separator. */
  lemma {:induction false} PedacosJuntados(a: string, b: string, c: char)
    ensures Pedacos(a + [c] + b, c) == Pedacos(a, c) + Pedacos(b, c)
    decreases |a|
  {
    if c in a {
      var a1, a2 := BeforeFirst(a, c), AfterFirst(a, c);
      PedacosJuntados(a2, b, c);
      PedacosJuntadosPasso(a1, a2, b, c);
    } else {
      PedacosConcat(a, b, c);
    }
  }

  /** Joining the pieces back with the separator gives the text that was split. */
  lemma {:induction false} JuntarPedacos(s: string, c: char)
    ensures Join(Pedacos(s, c), [c]) == s
    decreases |s|
  {
    if c in s {
      var a := AfterFirst(s, c);
      JuntarPedacos(a, c);
      var p := Pedacos(s, c);
      assert p == [BeforeFirst(s, c)] + Pedacos(a, c);
      assert p[1..] == Pedacos(a, c);
    }
  }

  /** Everything after the first piece, joined back, is the text after the first separator. */
  lemma DepoisDoPrimeiro(s: string, c: char)
    ensures Join(Pedacos(s, c)[1..], [c]) == AfterFirst(s, c)
  {
    if c in s {
      JuntarPedacos(AfterFirst(s, c), c);
      assert Pedacos(s, c)[1..] == Pedacos(AfterFirst(s, c), c);
    }
  }
}
