/**
 * ASCII string primitives used by the extractor and the error policy:
 * the meaning of Python's `lower()`, `strip()`, `isdigit()`, `in`,
 * `split(sep)`, `split(sep, 1)` and `s[:n]` on ASCII text.
 */
module Text {

  datatype Option<+T> = None | Some(value: T)

  /** Python's `str.isspace()` restricted to ASCII: TAB, LF, VT, FF, CR, the
      four separator controls 0x1C..0x1F, and SPACE. */
  predicate IsSpace(c: char) {
    (9 <= c as int <= 13) || (28 <= c as int <= 32)
  }

  predicate IsDigit(c: char) {
    '0' <= c <= '9'
  }

  function LowerChar(c: char): char {
    if 'A' <= c <= 'Z' then (c as int + 32) as char else c
  }

  /** `s.lower()` for ASCII text. */
  function Lower(s: string): string
    decreases |s|
  {
    if |s| == 0 then [] else [LowerChar(s[0])] + Lower(s[1..])
  }

  /** Lowering twice is lowering once. */
  lemma {:induction false} LowerIdempotent(s: string)
    ensures Lower(Lower(s)) == Lower(s)
    decreases |s|
  {
    if |s| > 0 {
      LowerIdempotent(s[1..]);
      assert Lower(s)[1..] == Lower(s[1..]);
    }
  }

  /** `lower()` is computed character by character. */
  lemma {:induction false} LowerPointwise(s: string, t: string)
    requires |s| == |t| && forall i :: 0 <= i < |s| ==> LowerChar(s[i]) == t[i]
    ensures Lower(s) == t
    decreases |s|
  {
    if |s| > 0 {
      LowerPointwise(s[1..], t[1..]);
    }
  }

  function StripLeft(s: string): string
    decreases |s|
  {
    if |s| > 0 && IsSpace(s[0]) then StripLeft(s[1..]) else s
  }

  function StripRight(s: string): string
    decreases |s|
  {
    if |s| > 0 && IsSpace(s[|s| - 1]) then StripRight(s[..|s| - 1]) else s
  }

  /** `s.strip()`: the longest infix of `s` that neither starts nor ends
      with whitespace. */
  function Strip(s: string): string
  {
    StripRight(StripLeft(s))
  }

  /** Text that neither starts nor ends with whitespace is its own `strip()`. */
  lemma StripUnpadded(s: string)
    requires |s| > 0 && !IsSpace(s[0]) && !IsSpace(s[|s| - 1])
    ensures Strip(s) == s
  {
  }

  /** `p` is a prefix of `s`. */
  predicate IsPrefix(p: string, s: string) {
    |p| <= |s| && s[..|p|] == p
  }

  /** Python's `sub in s`. */
  predicate Contains(s: string, sub: string)
    decreases |s|
  {
    IsPrefix(sub, s) || (|s| > 0 && Contains(s[1..], sub))
  }

  /** `any(p in s for p in ps)`. */
  predicate ContainsAny(s: string, ps: seq<string>)
    decreases |ps|
  {
    |ps| > 0 && (Contains(s, ps[0]) || ContainsAny(s, ps[1..]))
  }

  /** `any(c.isdigit() for c in s)`. */
  predicate HasDigit(s: string)
    decreases |s|
  {
    |s| > 0 && (IsDigit(s[0]) || HasDigit(s[1..]))
  }

  /** The index of the first occurrence of `sub` in `s` (Python's `s.find(sub)`,
      with None for -1). */
  function IndexOf(s: string, sub: string): (r: Option<nat>)
    ensures r.Some? <==> Contains(s, sub)
    ensures r.Some? ==> r.value + |sub| <= |s| && s[r.value..r.value + |sub|] == sub
    ensures r.Some? ==> forall k :: 0 <= k < r.value ==> !IsPrefix(sub, s[k..])
    decreases |s|
  {
    if IsPrefix(sub, s) then Some(0)
    else if |s| == 0 then None
    else match IndexOf(s[1..], sub)
      case None => None
      case Some(k) =>
        SliceOfTail(s, k + 1, k + 1 + |sub|);
        assert s[0..] == s;
        forall j | 1 <= j <= k
          ensures !IsPrefix(sub, s[j..])
        {
          SuffixOfTail(s, j);
        }
        Some(k + 1)
  }

  /** A slice of `s[1..]` is the slice of `s` one position further on. */
  lemma SliceOfTail(s: string, a: nat, b: nat)
    requires 1 <= a <= b <= |s|
    ensures s[1..][a - 1..b - 1] == s[a..b]
  {
  }

  lemma SuffixOfTail(s: string, a: nat)
    requires 1 <= a <= |s|
    ensures s[1..][a - 1..] == s[a..]
  {
  }

  /** `s[:n]` for `n >= 0`. */
  function Prefix(s: string, n: nat): (r: string)
    ensures |r| == if |s| <= n then |s| else n
    ensures IsPrefix(r, s)
  {
    if |s| <= n then s else s[..n]
  }

  /** `c.join(pieces)`. */
  function Join(pieces: seq<string>, c: char): string
    requires |pieces| >= 1
    decreases |pieces|
  {
    if |pieces| == 1 then pieces[0] else pieces[0] + [c] + Join(pieces[1..], c)
  }

  /** `s.split(c)` for a one-character separator: the pieces between the
      occurrences of `c`, none of which holds `c`, and which joined by `c`
      give `s` back. */
  function Split(s: string, c: char): (r: seq<string>)
    ensures |r| >= 1
    ensures |r| == 1 <==> c !in s
    ensures forall k :: 0 <= k < |r| ==> c !in r[k]
    ensures Join(r, c) == s
    decreases |s|
  {
    if |s| == 0 then [""]
    else if s[0] == c then
      var rest := Split(s[1..], c);
      assert ([""] + rest)[1..] == rest;
      assert [c] + s[1..] == s;
      [""] + rest
    else
      var rest := Split(s[1..], c);
      assert c !in s[1..] <==> c !in s;
      var r := [[s[0]] + rest[0]] + rest[1..];
      assert |rest| > 1 ==> r[1..] == rest[1..];
      assert [s[0]] + s[1..] == s;
      r
  }

  /** When `c` occurs in `s`, the last piece of `s.split(c)` is the text after
      the last `c`. */
  lemma {:induction false} LastPieceAfterLastSeparator(pieces: seq<string>, c: char)
    requires |pieces| > 1
    ensures exists p :: Join(pieces, c) == p + [c] + pieces[|pieces| - 1]
    decreases |pieces|
  {
    if |pieces| == 2 {
      assert Join(pieces[1..], c) == pieces[1];
      assert Join(pieces, c) == pieces[0] + [c] + pieces[1];
    } else {
      var rest := pieces[1..];
      LastPieceAfterLastSeparator(rest, c);
      var p :| Join(rest, c) == p + [c] + rest[|rest| - 1];
      assert Join(pieces, c) == (pieces[0] + [c] + p) + [c] + pieces[|pieces| - 1];
    }
  }

  /** The number of characters after the last `c` in `s` (all of `s` when
      `c` does not occur). */
  function TrailingRun(s: string, c: char): nat
    decreases |s|
  {
    if |s| == 0 || s[|s| - 1] == c then 0 else 1 + TrailingRun(s[..|s| - 1], c)
  }

  /** A text free of `c` that follows a `c` ending at the end of `s` is the
      run after the last `c`. */
  lemma {:induction false} AfterLastIsTrailingRun(p: string, a: string, c: char)
    requires c !in a
    ensures TrailingRun(p + [c] + a, c) == |a|
    decreases |a|
  {
    var s := p + [c] + a;
    if |a| > 0 {
      var a' := a[..|a| - 1];
      assert s[..|s| - 1] == p + [c] + a';
      assert s[|s| - 1] == a[|a| - 1];
      AfterLastIsTrailingRun(p, a', c);
    } else {
      assert s[|s| - 1] == c;
    }
  }

  /** The text after the last `c` is unique. */
  lemma AfterLastUnique(p1: string, a1: string, p2: string, a2: string, c: char)
    requires p1 + [c] + a1 == p2 + [c] + a2 && c !in a1 && c !in a2
    ensures a1 == a2
  {
    var s := p1 + [c] + a1;
    AfterLastIsTrailingRun(p1, a1, c);
    AfterLastIsTrailingRun(p2, a2, c);
    assert a1 == s[|s| - |a1|..];
    assert a2 == s[|s| - |a2|..];
  }

  /** A split of `s` around `sep` with no occurrence of `sep` starting in
      the left part is unique: it is the split at the first occurrence. */
  lemma FirstOccurrenceSplitUnique(s: string, sep: string, l1: string, r1: string, l2: string, r2: string)
    requires l1 + sep + r1 == s && forall k :: 0 <= k < |l1| ==> !IsPrefix(sep, s[k..])
    requires l2 + sep + r2 == s && forall k :: 0 <= k < |l2| ==> !IsPrefix(sep, s[k..])
    ensures l1 == l2 && r1 == r2
  {
    assert s[|l1|..] == sep + r1;
    assert s[|l2|..] == sep + r2;
    assert IsPrefix(sep, s[|l1|..]);
    assert IsPrefix(sep, s[|l2|..]);
    assert |l1| == |l2|;
    assert l1 == s[..|l1|];
    assert l2 == s[..|l2|];
    assert r1 == s[|l1| + |sep|..];
    assert r2 == s[|l2| + |sep|..];
  }

  /** `s.split(sep, 1)`: the text before and after the first occurrence of
      `sep`, or `[s]` when `sep` does not occur. */
  function SplitOnce(s: string, sep: string): (r: seq<string>)
    requires |sep| > 0
    ensures |r| == 2 <==> Contains(s, sep)
    ensures |r| == 1 <==> !Contains(s, sep)
    ensures |r| == 2 ==> r[0] + sep + r[1] == s && !Contains(r[0], sep)
    ensures |r| == 2 ==> forall k :: 0 <= k < |r[0]| ==> !IsPrefix(sep, s[k..])
  {
    match IndexOf(s, sep)
    case None => [s]
    case Some(k) =>
      NotInPrefix(s, sep, k);
      assert s[..k] + sep + s[k + |sep|..] == s by {
        assert s == s[..k] + s[k..k + |sep|] + s[k + |sep|..];
      }
      [s[..k], s[k + |sep|..]]
  }

  /** No occurrence of `sub` starts before `k` and ends by `k`, when `k` is
      the first position where it occurs. */
  lemma {:induction false} NotInPrefix(s: string, sub: string, k: nat)
    requires |sub| > 0 && k <= |s|
    requires forall j :: 0 <= j < k ==> !IsPrefix(sub, s[j..])
    ensures !Contains(s[..k], sub)
    decreases k
  {
    if k > 0 {
      assert !IsPrefix(sub, s[0..]);
      var t := s[1..];
      forall j | 0 <= j < k - 1 ensures !IsPrefix(sub, t[j..]) {
        assert t[j..] == s[j + 1..];
      }
      NotInPrefix(t, sub, k - 1);
      assert s[..k][1..] == t[..k - 1];
    }
  }

  const DigitChars := "0123456789"

  /** `str(n)` for a natural number. */
  function NatToString(n: nat): (r: string)
    ensures |r| >= 1
    ensures forall i :: 0 <= i < |r| ==> IsDigit(r[i])
    decreases n
  {
    if n < 10 then [DigitChars[n]] else NatToString(n / 10) + [DigitChars[n % 10]]
  }

  /** `str(i)` for any integer. */
  function IntToString(i: int): string {
    if i < 0 then "-" + NatToString(-i) else NatToString(i)
  }
}
