/**
 * Shared vocabulary of the gateway model: failure-compatible wrappers, the fixed-width
 * integer types the Rust code uses, and the handful of `str` operations (prefix, suffix,
 * substring search, trimming, replacing, decimal formatting and parsing) that the
 * gateway's decisions are built from.
 */
module Common {

  datatype Option<T> = None | Some(value: T) {
    function GetOr(default: T): T {
      match this
      case Some(v) => v
      case None => default
    }
  }

  datatype Result<T, E> = Ok(value: T) | Err(error: E)

  /**
   * What URL parsing reports about a URL: its user name (empty when there is none), its
   * password if any, and the URL re-serialised with both credentials cleared.
   */
  datatype UrlParts = UrlParts(username: string, password: Option<string>, withoutCredentials: string)

  /** An 8-bit byte, as in Rust's `u8`. */
  type byte = b: int | 0 <= b < 256

  /** Rust's `u16` (HTTP status codes, TCP ports). */
  type u16 = n: int | 0 <= n < 65536

  predicate StartsWith(s: string, prefix: string) {
    |prefix| <= |s| && s[..|prefix|] == prefix
  }

  predicate EndsWith(s: string, suffix: string) {
    |suffix| <= |s| && s[|s| - |suffix|..] == suffix
  }

  /** The URL with one '/' appended when it does not already end with one. */
  function WithTrailingSlash(url: string): (r: string)
    ensures EndsWith(r, "/")
    ensures StartsWith(r, url) && |r| <= |url| + 1
    ensures EndsWith(url, "/") ==> r == url
  {
    if EndsWith(url, "/") then url else url + "/"
  }

  /** Normalising twice is normalising once, and only a missing slash is ever added. */
  lemma TrailingSlashIdempotent(url: string)
    ensures WithTrailingSlash(WithTrailingSlash(url)) == WithTrailingSlash(url)
    ensures !EndsWith(url, "/") ==> WithTrailingSlash(url) == url + "/"
  {
  }

  /** `str::contains` with a string pattern: `pattern` occurs somewhere in `s`. */
  predicate Contains(s: string, pattern: string)
    decreases |s|
  {
    StartsWith(s, pattern) || (|s| > 0 && Contains(s[1..], pattern))
  }

  lemma ContainsWitness(s: string, pattern: string, i: nat)
    requires i + |pattern| <= |s| && s[i..i + |pattern|] == pattern
    ensures Contains(s, pattern)
    decreases i
  {
    if i > 0 {
      assert s[1..][i - 1..i - 1 + |pattern|] == pattern;
      ContainsWitness(s[1..], pattern, i - 1);
    }
  }

  /** `k` copies of `pattern`, one after the other. */
  function Repeat(pattern: string, k: nat): string {
    if k == 0 then [] else pattern + Repeat(pattern, k - 1)
  }

  /**
   * `str::trim_start_matches` with a string pattern: removes every leading repetition. What
   * is left is a suffix of `s` that no longer starts with a non-empty pattern.
   */
  function TrimStartMatches(s: string, pattern: string): (r: string)
    ensures |r| <= |s|
    ensures |pattern| > 0 ==> !StartsWith(r, pattern)
    decreases |s|
  {
    if |pattern| > 0 && StartsWith(s, pattern) then TrimStartMatches(s[|pattern|..], pattern) else s
  }

  lemma ConcatRepeat(pattern: string, k: nat, t: string)
    ensures Repeat(pattern, k + 1) + t == pattern + (Repeat(pattern, k) + t)
  {
    assert Repeat(pattern, k + 1) == pattern + Repeat(pattern, k);
  }

  /** How many leading copies of `pattern` `TrimStartMatches` removes. */
  function TrimmedCount(s: string, pattern: string): nat
    decreases |s|
  {
    if |pattern| > 0 && StartsWith(s, pattern) then 1 + TrimmedCount(s[|pattern|..], pattern) else 0
  }

  /** What `TrimStartMatches` removed is a whole number of copies of the pattern. */
  lemma {:induction false} TrimStartMatchesDecomposes(s: string, pattern: string)
    ensures s == Repeat(pattern, TrimmedCount(s, pattern)) + TrimStartMatches(s, pattern)
    decreases |s|
  {
    if |pattern| > 0 && StartsWith(s, pattern) {
      var rest := s[|pattern|..];
      var k := TrimmedCount(rest, pattern);
      var t := TrimStartMatches(rest, pattern);
      TrimStartMatchesDecomposes(rest, pattern);
      assert TrimmedCount(s, pattern) == k + 1 && TrimStartMatches(s, pattern) == t;
      assert s == pattern + rest by {
        assert s[..|pattern|] == pattern;
      }
      ConcatRepeat(pattern, k, t);
    }
  }

  /** `str::trim_start_matches` with a `char` pattern: a suffix that does not start with `c`. */
  function TrimStartChar(s: string, c: char): (r: string)
    ensures |r| <= |s|
    ensures |r| > 0 ==> r[0] != c
    decreases |s|
  {
    if |s| > 0 && s[0] == c then TrimStartChar(s[1..], c) else s
  }

  /** How many leading `c` `TrimStartChar` removes. */
  function TrimmedRun(s: string, c: char): nat
    decreases |s|
  {
    if |s| > 0 && s[0] == c then 1 + TrimmedRun(s[1..], c) else 0
  }

  /** What `TrimStartChar` removed is a run of `c`. */
  lemma {:induction false} TrimStartCharDecomposes(s: string, c: char)
    ensures s == Repeat([c], TrimmedRun(s, c)) + TrimStartChar(s, c)
    decreases |s|
  {
    if |s| > 0 && s[0] == c {
      var k := TrimmedRun(s[1..], c);
      var t := TrimStartChar(s[1..], c);
      TrimStartCharDecomposes(s[1..], c);
      assert TrimmedRun(s, c) == k + 1 && TrimStartChar(s, c) == t;
      assert s == [c] + s[1..];
      ConcatRepeat([c], k, t);
    }
  }

  /** `str::trim_end_matches` with a `char` pattern. */
  function TrimEndChar(s: string, c: char): (r: string)
    decreases |s|
  {
    if |s| > 0 && s[|s| - 1] == c then TrimEndChar(s[..|s| - 1], c) else s
  }

  /** `str::replace` of one character by another. */
  function ReplaceChar(s: string, from: char, to: char): (r: string)
  {
    seq(|s|, i requires 0 <= i < |s| => if s[i] == from then to else s[i])
  }

  /** ASCII case folding, which is what `to_lowercase` does on HTTP header names. */
  function ToLowerAscii(s: string): (r: string)
  {
    seq(|s|, i requires 0 <= i < |s| => if 'A' <= s[i] <= 'Z' then (s[i] as int + 32) as char else s[i])
  }

  function DigitChar(d: int): char
    requires 0 <= d < 10
  {
    "0123456789"[d]
  }

  /** `Display` of an unsigned integer: its decimal digits, no sign, no leading zeros. */
  function NatToString(n: nat): (r: string)
    ensures |r| > 0
    decreases n
  {
    if n < 10 then [DigitChar(n)] else NatToString(n / 10) + [DigitChar(n % 10)]
  }

  predicate IsDigit(c: char) {
    '0' <= c <= '9'
  }

  /** Value of a string of decimal digits. */
  function DigitsValue(s: string): nat
    requires forall i :: 0 <= i < |s| ==> IsDigit(s[i])
    decreases |s|
  {
    if |s| == 0 then 0
    else
      assert IsDigit(s[|s| - 1]);
      DigitsValue(s[..|s| - 1]) * 10 + (s[|s| - 1] as int - '0' as int)
  }

  /**
   * `str::parse::<u16>()`: an optional leading '+', then at least one decimal digit and
   * nothing else, with a value that fits in 16 bits.
   */
  function ParseU16(s: string): (r: Option<u16>)
  {
    var digits := if |s| > 0 && s[0] == '+' then s[1..] else s;
    if |digits| == 0 || exists i :: 0 <= i < |digits| && !IsDigit(digits[i]) then None
    else if DigitsValue(digits) < 65536 then Some(DigitsValue(digits))
    else None
  }

  lemma {:induction false} DigitsOfNatToString(n: nat)
    ensures forall i :: 0 <= i < |NatToString(n)| ==> IsDigit(NatToString(n)[i])
    ensures DigitsValue(NatToString(n)) == n
    decreases n
  {
    if n >= 10 {
      DigitsOfNatToString(n / 10);
      var s := NatToString(n);
      assert s[..|s| - 1] == NatToString(n / 10);
    }
  }

  /** Parsing the decimal rendering of a port gives the port back. */
  lemma ParseU16OfNatToString(n: u16)
    ensures ParseU16(NatToString(n)) == Some(n)
  {
    DigitsOfNatToString(n);
    var s := NatToString(n);
    assert s[0] != '+' by { assert IsDigit(s[0]); }
  }
}
