/**
 * The few Python `str` operations the pipeline relies on, over `seq<char>`:
 * `split()`, `sep.join(...)`, `replace` of one character, `lower()`,
 * `strip()`/`lstrip(c)`/`rstrip(c)`, substring containment and `str(n)`.
 */
module PyText {

  /** Python's `str.isspace()` for one character (the characters `split()` and `strip()` drop). */
  predicate IsSpace(c: char) {
    || c == ' ' || '\t' <= c <= '\r' || '\U{1C}' <= c <= '\U{1F}'
    || c == '\U{85}' || c == '\U{A0}' || c == '\U{1680}' || '\U{2000}' <= c <= '\U{200A}'
    || c == '\U{2028}' || c == '\U{2029}' || c == '\U{202F}' || c == '\U{205F}' || c == '\U{3000}'
  }

  predicate NoSpace(s: string) {
    forall i :: 0 <= i < |s| ==> !IsSpace(s[i])
  }

  predicate IsAsciiUpper(c: char) { 'A' <= c <= 'Z' }

  predicate IsDigit(c: char) { '0' <= c <= '9' }

  /** Every character of `s` satisfies `p`. */
  predicate AllChars(s: string, p: char -> bool) {
    forall i :: 0 <= i < |s| ==> p(s[i])
  }

  // ---------------------------------------------------------------- split / join

  /** End of the word that starts at the beginning of `s` and is known to reach `k`. */
  function WordEnd(s: string, k: nat): (e: nat)
    requires 1 <= k <= |s| && NoSpace(s[..k])
    ensures k <= e <= |s| && NoSpace(s[..e])
    ensures e < |s| ==> IsSpace(s[e])
    decreases |s| - k
  {
    if k == |s| || IsSpace(s[k]) then k
    else
      assert s[..k + 1] == s[..k] + [s[k]];
      WordEnd(s, k + 1)
  }

  /** `s.split()`: the maximal runs of non-space characters, in order. */
  function Words(s: string): (ws: seq<string>)
    ensures forall i :: 0 <= i < |ws| ==> ws[i] != [] && NoSpace(ws[i])
    decreases |s|
  {
    if s == [] then []
    else if IsSpace(s[0]) then Words(s[1..])
    else
      var e := WordEnd(s, 1);
      [s[..e]] + Words(s[e..])
  }

  lemma WordsOfWord(s: string)
    requires NoSpace(s)
    ensures Words(s) == if s == [] then [] else [s]
  {
    if s != [] {
      assert s[..1] == [s[0]];
      var e := WordEnd(s, 1);
      assert e == |s|;
      assert s[..e] == s && s[e..] == [];
    }
  }

  /** The end of the first word is its first whitespace position, wherever the search started. */
  lemma WordEndIsFirstSpace(s: string, k: nat, e: nat)
    requires 1 <= k <= |s| && NoSpace(s[..k])
    requires e <= |s| && NoSpace(s[..e]) && (e < |s| ==> IsSpace(s[e]))
    ensures WordEnd(s, k) == e
  {
  }

  /** A whitespace character separates words: the words on its two sides are never joined. */
  lemma {:induction false} WordsAroundSpace(x: string, c: char, y: string)
    requires IsSpace(c)
    ensures Words(x + [c] + y) == Words(x) + Words(y)
    decreases |x|
  {
    var s := x + [c] + y;
    if x == [] {
      assert s[1..] == y;
    } else if IsSpace(x[0]) {
      assert s[1..] == x[1..] + [c] + y;
      WordsAroundSpace(x[1..], c, y);
    } else {
      assert x[..1] == [x[0]] && s[..1] == [x[0]];
      var ex := WordEnd(x, 1);
      assert s[..ex] == x[..ex];
      assert IsSpace(s[ex]) by {
        if ex < |x| {
          assert s[ex] == x[ex];
        } else {
          assert s[ex] == c;
        }
      }
      WordEndIsFirstSpace(s, 1, ex);
      assert s[ex..] == x[ex..] + [c] + y;
      WordsAroundSpace(x[ex..], c, y);
    }
  }

  /** The words of a space-join of three parts are the words of the parts, in order. */
  lemma WordsJoin3(a: string, b: string, c: string)
    ensures Words(Join(" ", [a, b, c])) == Words(a) + Words(b) + Words(c)
  {
    assert IsSpace(' ');
    assert [a, b, c][1..] == [b, c] && [b, c][1..] == [c];
    assert Join(" ", [b, c]) == b + [' '] + c;
    assert Join(" ", [a, b, c]) == a + [' '] + Join(" ", [b, c]);
    WordsAroundSpace(b, ' ', c);
    WordsAroundSpace(a, ' ', b + [' '] + c);
  }

  /** `sep.join(parts)`. */
  function Join(sep: string, parts: seq<string>): string {
    if |parts| == 0 then ""
    else if |parts| == 1 then parts[0]
    else parts[0] + sep + Join(sep, parts[1..])
  }

  /** Joining parts that all satisfy `p` with a separator that satisfies `p` gives a string that does. */
  lemma {:induction false} JoinAllChars(sep: string, parts: seq<string>, p: char -> bool)
    requires AllChars(sep, p)
    requires forall i :: 0 <= i < |parts| ==> AllChars(parts[i], p)
    ensures AllChars(Join(sep, parts), p)
  {
    if |parts| > 1 {
      JoinAllChars(sep, parts[1..], p);
      var rest := Join(sep, parts[1..]);
      var r := parts[0] + sep + rest;
      forall i | 0 <= i < |r| ensures p(r[i]) {
        if i < |parts[0]| {
        } else if i < |parts[0]| + |sep| {
          assert r[i] == sep[i - |parts[0]|];
        } else {
          assert r[i] == rest[i - |parts[0]| - |sep|];
        }
      }
    }
  }

  /** Concatenation is associative; stated once so that proofs can cite it instead of searching for it. */
  lemma AppendAssoc<T>(a: seq<T>, b: seq<T>, c: seq<T>)
    ensures (a + b) + c == a + (b + c)
  {
  }

  // ---------------------------------------------------------------- replace / lower

  /** `s.replace(c, rep)` for a one-character pattern `c`. */
  function Replace(s: string, c: char, rep: string): (r: string)
    ensures c !in s ==> r == s
  {
    if s == [] then []
    else (if s[0] == c then rep else [s[0]]) + Replace(s[1..], c, rep)
  }

  /** Every character of `s.replace(c, rep)` satisfies `p` when the kept characters and `rep` do. */
  lemma {:induction false} ReplaceAllChars(s: string, c: char, rep: string, p: char -> bool)
    requires forall i :: 0 <= i < |s| ==> s[i] == c || p(s[i])
    requires AllChars(rep, p)
    ensures AllChars(Replace(s, c, rep), p)
  {
    if s != [] {
      ReplaceAllChars(s[1..], c, rep, p);
      var head := if s[0] == c then rep else [s[0]];
      var r := head + Replace(s[1..], c, rep);
      forall i | 0 <= i < |r| ensures p(r[i]) {
        if i >= |head| {
          assert r[i] == Replace(s[1..], c, rep)[i - |head|];
        }
      }
    }
  }

  function ToLower(c: char): char {
    if IsAsciiUpper(c) then (c as int + 32) as char else c
  }

  /** `s.lower()` (ASCII letters). */
  function Lower(s: string): (r: string)
    ensures |r| == |s|
    ensures forall i :: 0 <= i < |s| ==> r[i] == ToLower(s[i])
  {
    seq(|s|, i requires 0 <= i < |s| => ToLower(s[i]))
  }

  // ---------------------------------------------------------------- strip

  /** `s.lstrip(...)`: drops the leading characters that satisfy `drop`. */
  function LStrip(s: string, drop: char -> bool): (r: string)
    ensures r == [] || !drop(r[0])
    ensures |r| <= |s| && r == s[|s| - |r|..]
    ensures forall i :: 0 <= i < |s| - |r| ==> drop(s[i])
  {
    if s != [] && drop(s[0]) then LStrip(s[1..], drop) else s
  }

  /** `s.rstrip(...)`: drops the trailing characters that satisfy `drop`. */
  function RStrip(s: string, drop: char -> bool): (r: string)
    ensures r == [] || !drop(r[|r| - 1])
    ensures |r| <= |s| && r == s[..|r|]
    ensures forall i :: |r| <= i < |s| ==> drop(s[i])
  {
    if s != [] && drop(s[|s| - 1]) then RStrip(s[..|s| - 1], drop) else s
  }

  /** `s.strip()`: drops leading and trailing whitespace. */
  function Strip(s: string): string {
    RStrip(LStrip(s, IsSpace), IsSpace)
  }

  lemma {:induction false} WordsLStrip(s: string)
    ensures Words(LStrip(s, IsSpace)) == Words(s)
  {
    if s != [] && IsSpace(s[0]) {
      WordsLStrip(s[1..]);
    }
  }

  lemma {:induction false} WordsRStrip(s: string)
    ensures Words(RStrip(s, IsSpace)) == Words(s)
  {
    if s != [] && IsSpace(s[|s| - 1]) {
      var t := s[..|s| - 1];
      WordsRStrip(t);
      WordsAroundSpace(t, s[|s| - 1], []);
      assert t + [s[|s| - 1]] + [] == s;
    }
  }

  /**
   * `s.strip()` keeps the words of `s`; it is empty exactly when `s` has no word, and
   * otherwise neither starts nor ends with whitespace.
   */
  lemma StripWords(s: string)
    ensures Words(Strip(s)) == Words(s)
    ensures Strip(s) == [] <==> Words(s) == []
    ensures Strip(s) != [] ==> !IsSpace(Strip(s)[0]) && !IsSpace(Strip(s)[|Strip(s)| - 1])
  {
    var l := LStrip(s, IsSpace);
    WordsLStrip(s);
    WordsRStrip(l);
    var r := Strip(s);
    if r != [] {
      assert r[0] == l[0];
      assert Words(r) != [];
    }
  }

  // ---------------------------------------------------------------- search

  /** `sub` occurs in `s` starting at index `i`. */
  predicate OccursAt(s: string, sub: string, i: int) {
    0 <= i <= |s| - |sub| && s[i..i + |sub|] == sub
  }

  /** `sub in s`. */
  function Contains(s: string, sub: string): (b: bool)
    ensures b <==> exists i :: OccursAt(s, sub, i)
    decreases |s|
  {
    if |s| < |sub| then false
    else if s[..|sub|] == sub then assert OccursAt(s, sub, 0); true
    else
      var b := Contains(s[1..], sub);
      assert b ==> exists i :: OccursAt(s, sub, i) by {
        if b {
          var j :| OccursAt(s[1..], sub, j);
          assert OccursAt(s, sub, j + 1);
        }
      }
      assert (exists i :: OccursAt(s, sub, i)) ==> b by {
        if i :| OccursAt(s, sub, i) {
          assert i != 0;
          assert OccursAt(s[1..], sub, i - 1);
        }
      }
      b
  }

  // ---------------------------------------------------------------- numbers

  function DigitChar(d: nat): (c: char)
    requires d < 10
    ensures IsDigit(c) && c as int - '0' as int == d
  {
    (d + '0' as int) as char
  }

  /** `str(n)` for a non-negative integer: its decimal digits, without leading zeros. */
  function NatToString(n: nat): (s: string)
    ensures 1 <= |s| && AllChars(s, IsDigit)
    ensures n < 10 <==> |s| == 1
  {
    if n < 10 then [DigitChar(n)] else NatToString(n / 10) + [DigitChar(n % 10)]
  }

  /** Distinct numbers print differently. */
  lemma {:induction false} NatToStringInjective(a: nat, b: nat)
    requires NatToString(a) == NatToString(b)
    ensures a == b
  {
    if a >= 10 && b >= 10 {
      var sa, sb := NatToString(a), NatToString(b);
      assert sa[..|sa| - 1] == NatToString(a / 10);
      assert sb[..|sb| - 1] == NatToString(b / 10);
      NatToStringInjective(a / 10, b / 10);
      assert DigitChar(a % 10) == sa[|sa| - 1] == sb[|sb| - 1] == DigitChar(b % 10);
    }
  }

  /** `f"{n:0{width}d}"` for a non-negative integer. */
  function ZeroPad(n: nat, width: nat): (s: string)
    ensures |s| >= width
  {
    var digits := NatToString(n);
    if |digits| >= width then digits else seq(width - |digits|, _ => '0') + digits
  }
}
