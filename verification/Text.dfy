/** Small models of the Python string operations the services rely on. */
module Text {

  datatype Option<+T> = None | Some(value: T)

  /** `text.find(pattern)` : the first position where `pattern` occurs, if any. */
  function Find(text: string, pattern: string): (position: Option<nat>)
    ensures position.Some? ==>
      && position.value + |pattern| <= |text|
      && text[position.value..position.value + |pattern|] == pattern
  {
    if pattern <= text then Some(0)
    else if text == "" then None
    else match Find(text[1..], pattern)
      case None => None
      case Some(k) => assert text[1..][k..k + |pattern|] == text[k + 1..k + 1 + |pattern|]; Some(k + 1)
  }

  /** `sep.join(parts)`. */
  function Join(parts: seq<string>, sep: string): string {
    if |parts| == 0 then ""
    else if |parts| == 1 then parts[0]
    else parts[0] + sep + Join(parts[1..], sep)
  }

  /** `"".join(parts)`. */
  function Concat(parts: seq<string>): string {
    if parts == [] then "" else parts[0] + Concat(parts[1..])
  }

  lemma {:induction false} ConcatAppend(a: seq<string>, b: seq<string>)
    ensures Concat(a + b) == Concat(a) + Concat(b)
  {
    if a == [] {
      assert a + b == b;
    } else {
      ConcatAppend(a[1..], b);
      assert (a + b)[1..] == a[1..] + b;
    }
  }

  /** `text.replace(quote, quote * 2)`. */
  function Double(text: string, quote: char): string {
    if text == "" then ""
    else (if text[0] == quote then [quote, quote] else [text[0]]) + Double(text[1..], quote)
  }

  /** `text.replace(quote * 2, quote)`: leftmost, non-overlapping. */
  function Undouble(text: string, quote: char): string {
    if text == "" then ""
    else if |text| >= 2 && text[0] == quote && text[1] == quote then [quote] + Undouble(text[2..], quote)
    else [text[0]] + Undouble(text[1..], quote)
  }

  /** Doubling a quote and halving it again are inverse, whatever the text. */
  lemma {:induction false} UndoubleDouble(text: string, quote: char)
    ensures Undouble(Double(text, quote), quote) == text
  {
    if text != "" {
      var d := Double(text[1..], quote);
      UndoubleDouble(text[1..], quote);
      if text[0] == quote {
        assert Double(text, quote) == [quote, quote] + d;
        assert ([quote, quote] + d)[2..] == d;
      } else {
        assert Double(text, quote) == [text[0]] + d;
        assert ([text[0]] + d)[1..] == d;
      }
    }
  }

  lemma SplitAt(s: string, i: nat, j: nat)
    requires i <= j <= |s|
    ensures s[i..j] + s[j..] == s[i..]
  {
    var a, b := s[i..j] + s[j..], s[i..];
    forall k | 0 <= k < |b| ensures a[k] == b[k] {
    }
  }

  lemma InnerSlice(s: string, from: nat, to: nat)
    requires from + 2 <= to <= |s|
    ensures |s[from..to]| == to - from && s[from..to][1..to - from - 1] == s[from + 1..to - 1]
  {
    var a, b := s[from..to][1..to - from - 1], s[from + 1..to - 1];
    forall k | 0 <= k < |a| ensures a[k] == b[k] {
      assert a[k] == s[from..to][k + 1] == s[from + (k + 1)];
    }
  }

  lemma SliceSplit(s: string, i: nat, j: nat, k: nat)
    requires i <= j <= k <= |s|
    ensures s[i..j] + s[j..k] == s[i..k]
  {
    var a, b := s[i..j] + s[j..k], s[i..k];
    forall n | 0 <= n < |b| ensures a[n] == b[n] {
    }
  }

  // ---------------------------------------------------------------- case

  /**
   * `str.upper()` of one character, exact on ASCII and on the characters whose upper case is ASCII.
   * Every other character is left as it is: its upper case is not ASCII either, so no keyword matches it.
   */
  function UpperChar(c: char): string {
    if 'a' <= c <= 'z' then [((c as int) - 32) as char]
    else match c
      case '\U{00DF}' => "SS"
      case '\U{0131}' => "I"
      case '\U{017F}' => "S"
      case '\U{FB00}' => "FF"
      case '\U{FB01}' => "FI"
      case '\U{FB02}' => "FL"
      case '\U{FB03}' => "FFI"
      case '\U{FB04}' => "FFL"
      case '\U{FB05}' => "ST"
      case '\U{FB06}' => "ST"
      case _ => [c]
  }

  function Upper(s: string): string {
    if s == "" then "" else UpperChar(s[0]) + Upper(s[1..])
  }

  lemma {:induction false} UpperFixed(s: string)
    requires forall k | 0 <= k < |s| :: s[k] < '\U{0080}' && !('a' <= s[k] <= 'z')
    ensures Upper(s) == s
  {
    if s != "" {
      UpperFixed(s[1..]);
    }
  }

  /** On ASCII text upper case keeps the length and moves the 26 letters, one for one. */
  lemma {:induction false} UpperAscii(s: string)
    requires forall k | 0 <= k < |s| :: s[k] < '\U{0080}'
    ensures |Upper(s)| == |s| && forall k | 0 <= k < |s| ::
      Upper(s)[k] as int == if 97 <= s[k] as int <= 122 then s[k] as int - 32 else s[k] as int
  {
    if s != "" {
      UpperAscii(s[1..]);
      assert |UpperChar(s[0])| == 1;
    }
  }

  // ---------------------------------------------------------------- decimal numbers

  function Digit(n: nat): (c: char)
    requires n < 10
    ensures '0' <= c <= '9'
  {
    ((n + '0' as int) as char)
  }

  /** `str(n)` of a natural number. */
  function Digits(n: nat): (s: string)
    ensures s != "" && (|s| == 1 <==> n < 10)
    ensures forall k | 0 <= k < |s| :: '0' <= s[k] <= '9'
  {
    if n < 10 then [Digit(n)] else Digits(n / 10) + [Digit(n % 10)]
  }

  /** Different numbers print differently. */
  lemma {:induction false} DigitsInjective(m: nat, n: nat)
    requires Digits(m) == Digits(n)
    ensures m == n
    decreases m
  {
    var a, b := Digits(m), Digits(n);
    assert a[|a| - 1] == b[|b| - 1];
    if m >= 10 {
      assert a[..|a| - 1] == Digits(m / 10);
      assert b[..|b| - 1] == Digits(n / 10);
      DigitsInjective(m / 10, n / 10);
    }
  }
}
