/** The small part of the Java platform the configuration code leans on:
    nullable references, 32- and 64-bit integers with the `(int)` narrowing,
    `java.time.Duration`, the string predicates it uses and log lines. */
module JavaLang {

  /** A Java reference that may be null. */
  datatype Option<+T> = None | Some(value: T)

  /** A value or the exception a Java method throws instead. */
  datatype Result<+T, +E> = Ok(value: T) | Err(error: E)

  /** One line written to the application log. */
  datatype LogEntry = Info(message: string) | Warn(message: string)

  /** A value together with the log lines produced while computing it. */
  datatype Logged<+T> = Logged(value: T, log: seq<LogEntry>)

  predicate IsWarning(e: LogEntry) { e.Warn? }

  /** True when at least one of the log lines is a warning. */
  predicate HasWarning(log: seq<LogEntry>) {
    exists i :: 0 <= i < |log| && IsWarning(log[i])
  }

  // ---------------------------------------------------------------- integers

  const INT_MIN: int := -0x8000_0000
  const INT_MAX: int := 0x7FFF_FFFF
  const TWO_32: int := 0x1_0000_0000

  /** Java `int`. */
  type Int32 = x: int | INT_MIN <= x <= INT_MAX

  /** Java `long`. */
  type Int64 = x: int | -0x8000_0000_0000_0000 <= x <= 0x7FFF_FFFF_FFFF_FFFF

  /** Java's `(int)` cast of a `long`: keep the low 32 bits, read them in two's complement. */
  function NarrowToInt(x: Int64): (r: Int32)
    ensures (r - x) % TWO_32 == 0
    ensures INT_MIN <= x <= INT_MAX ==> r == x
  {
    var low := x % TWO_32;
    if low <= INT_MAX then low else low - TWO_32
  }

  /** `Math.max(x, 0)`. */
  function ClampToNonNegative(x: Int32): (r: Int32)
    ensures r >= 0
    ensures r >= x
    ensures r == x || r == 0
  {
    if x >= 0 then x else 0
  }

  // ---------------------------------------------------------------- durations

  const NANOS_PER_MILLI: int := 1_000_000
  const NANOS_PER_SECOND: int := 1_000_000_000

  /** A non-negative `java.time.Duration`, in nanoseconds, short enough that
      `toMillis()` does not overflow a `long`. */
  type Duration = n: int | 0 <= n < 0x8000_0000_0000_0000 * NANOS_PER_MILLI

  function OfSeconds(s: nat): Duration
    requires s < 0x8000_0000_0000_0000 / 1000
  {
    s * NANOS_PER_SECOND
  }

  /** `Duration.toMillis()`: the whole milliseconds in `d`. */
  function ToMillis(d: Duration): (ms: Int64)
    ensures ms >= 0
    ensures ms * NANOS_PER_MILLI <= d < (ms + 1) * NANOS_PER_MILLI
  {
    d / NANOS_PER_MILLI
  }

  /** `Duration.getSeconds()`: the whole seconds in `d`. */
  function GetSeconds(d: Duration): (s: Int64)
    ensures s >= 0
    ensures s * NANOS_PER_SECOND <= d < (s + 1) * NANOS_PER_SECOND
  {
    d / NANOS_PER_SECOND
  }

  // ---------------------------------------------------------------- strings

  /** `String.isEmpty()`. */
  predicate IsEmpty(s: string) { |s| == 0 }

  /** The ASCII part of `Character.toLowerCase`. */
  function LowerChar(c: char): (r: char)
    ensures 'A' <= c <= 'Z' ==> r as int == c as int + 32
    ensures !('A' <= c <= 'Z') ==> r == c
    ensures !('A' <= r <= 'Z')
  {
    if 'A' <= c <= 'Z' then (c as int + 32) as char else c
  }

  /** `String.toLowerCase()`, character by character. */
  function ToLowerCase(s: string): (r: string)
    ensures |r| == |s|
    ensures forall i :: 0 <= i < |s| ==> r[i] == LowerChar(s[i])
  {
    seq(|s|, i requires 0 <= i < |s| => LowerChar(s[i]))
  }

  /** `a.equalsIgnoreCase(b)` for non-null `a` and `b`. */
  predicate EqualsIgnoreCase(a: string, b: string) {
    |a| == |b| && forall i :: 0 <= i < |a| ==> LowerChar(a[i]) == LowerChar(b[i])
  }

  /** A string with no upper-case ASCII letter, such as the literals the source compares against. */
  predicate IsLowerCase(s: string) {
    forall i :: 0 <= i < |s| ==> !('A' <= s[i] <= 'Z')
  }

  /** Switching on `s.toLowerCase()` against a lower-case literal is the same as
      comparing `s` with it ignoring case. */
  lemma {:induction false} LowerCaseSwitchIsIgnoreCase(s: string, t: string)
    requires IsLowerCase(t)
    ensures ToLowerCase(s) == t <==> EqualsIgnoreCase(s, t)
  {
    var r := ToLowerCase(s);
    if EqualsIgnoreCase(s, t) {
      forall i | 0 <= i < |t| ensures r[i] == t[i] {
        assert LowerChar(s[i]) == LowerChar(t[i]);
      }
    }
    if r == t {
      forall i | 0 <= i < |s| ensures LowerChar(s[i]) == LowerChar(t[i]) {
        assert r[i] == LowerChar(s[i]);
      }
    }
  }

  /** `Character.isWhitespace`: the Unicode space, line and paragraph separators
      other than the non-breaking ones, and the nine control characters Java adds. */
  predicate IsWhitespace(c: char) {
    var n := c as int;
    (9 <= n <= 13) || (28 <= n <= 32) || n == 0x1680 || (0x2000 <= n <= 0x2006)
    || (0x2008 <= n <= 0x200A) || n == 0x2028 || n == 0x2029 || n == 0x205F || n == 0x3000
  }

  /** Spring's `StringUtils.containsText`: scan until a non-whitespace character. */
  predicate ContainsText(s: string)
    decreases |s|
  {
    |s| > 0 && (!IsWhitespace(s[0]) || ContainsText(s[1..]))
  }

  /** Spring's `StringUtils.hasText`: not null, not empty, not only whitespace. */
  predicate HasText(s: Option<string>) {
    s.Some? && !IsEmpty(s.value) && ContainsText(s.value)
  }

  lemma {:induction false} ContainsTextIff(s: string)
    ensures ContainsText(s) <==> exists i :: 0 <= i < |s| && !IsWhitespace(s[i])
    decreases |s|
  {
    if |s| > 0 {
      ContainsTextIff(s[1..]);
      if !IsWhitespace(s[0]) {
        assert 0 <= 0 < |s| && !IsWhitespace(s[0]);
      } else if exists i :: 0 <= i < |s| && !IsWhitespace(s[i]) {
        var i :| 0 <= i < |s| && !IsWhitespace(s[i]);
        assert i > 0 && s[1..][i - 1] == s[i];
      }
      if ContainsText(s[1..]) {
        var j :| 0 <= j < |s[1..]| && !IsWhitespace(s[1..][j]);
        assert s[j + 1] == s[1..][j];
      }
    }
  }

  /** `hasText` fails exactly on null and on strings made only of whitespace (the empty one included). */
  lemma HasTextIff(s: Option<string>)
    ensures HasText(s) <==> s.Some? && exists i :: 0 <= i < |s.value| && !IsWhitespace(s.value[i])
  {
    if s.Some? {
      ContainsTextIff(s.value);
    }
  }

  // ---------------------------------------------------------------- environment

  /** The Spring `Environment` as the conditions see it: resolved property values by key. */
  type Environment = map<string, string>

  /** `Environment.getProperty(key)`: null when the key is not set. */
  function GetProperty(env: Environment, key: string): (r: Option<string>)
    ensures r.Some? <==> key in env
    ensures r.Some? ==> r.value == env[key]
  {
    if key in env then Some(env[key]) else None
  }
}
