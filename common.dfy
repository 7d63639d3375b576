/**
 * Values shared by every component of the blog client: optional values,
 * what a `catch` clause receives, the outcome of a network request, and the
 * two pieces of JavaScript string behaviour the handlers rely on
 * (`String.prototype.trim` and the decimal rendering of a count).
 */
module Common {

  datatype Option<+T> = None | Some(value: T)

  /** The value a `catch` clause receives: an `Error` instance or anything else. */
  datatype Thrown = ErrorObject(message: string) | OtherValue

  /**
   * The outcome of one `fetch` followed by `res.json()`: either something
   * was thrown (network failure, unparsable body), or the server replied
   * with the `res.ok` flag and a decoded body.
   */
  datatype Response<+T> = Threw(thrown: Thrown) | Replied(ok: bool, data: T)

  /** A file the user picked in a file input; only its identity matters here. */
  datatype FileRef = FileRef(name: string)

  /** JavaScript truthiness of a value that is a string or null/undefined. */
  predicate Truthy(o: Option<string>) {
    o.Some? && o.value != ""
  }

  /** `o || fallback` for a value that is a string or null/undefined. */
  function OrElse(o: Option<string>, fallback: string): string {
    if Truthy(o) then o.value else fallback
  }

  // ---------------------------------------------------------------------
  // String.prototype.trim
  // ---------------------------------------------------------------------

  /** WhiteSpace and LineTerminator code points of ECMAScript (what `trim` strips). */
  predicate IsJsWhitespace(c: char) {
    || c == '\t' || c == '\U{000B}' || c == '\U{000C}' || c == ' '
    || c == '\U{00A0}' || c == '\U{FEFF}' || c == '\U{1680}'
    || ('\U{2000}' <= c <= '\U{200A}')
    || c == '\U{202F}' || c == '\U{205F}' || c == '\U{3000}'
    || c == '\n' || c == '\r' || c == '\U{2028}' || c == '\U{2029}'
  }

  /** Drops the leading whitespace: the result is a suffix that starts with a non-space. */
  function TrimStart(s: string): (r: string)
    ensures |r| <= |s| && r == s[|s| - |r|..]
    ensures forall i :: 0 <= i < |s| - |r| ==> IsJsWhitespace(s[i])
    ensures r != [] ==> !IsJsWhitespace(r[0])
  {
    if s != [] && IsJsWhitespace(s[0]) then TrimStart(s[1..]) else s
  }

  /** Drops the trailing whitespace: the result is a prefix that ends with a non-space. */
  function TrimEnd(s: string): (r: string)
    ensures |r| <= |s| && r == s[..|r|]
    ensures forall i :: |r| <= i < |s| ==> IsJsWhitespace(s[i])
    ensures r != [] ==> !IsJsWhitespace(r[|r| - 1])
  {
    if s != [] && IsJsWhitespace(s[|s| - 1]) then TrimEnd(s[..|s| - 1]) else s
  }

  /** If `t` is `s` without its first `lead` characters, a whitespace tail of `t` is one of `s`. */
  lemma ShiftedTail(s: string, t: string, lead: nat, k: nat)
    requires lead <= |s| && t == s[lead..]
    requires forall j :: k <= j < |t| ==> IsJsWhitespace(t[j])
    ensures forall i :: lead + k <= i < |s| ==> IsJsWhitespace(s[i])
  {
    forall i | lead + k <= i < |s| ensures IsJsWhitespace(s[i]) {
      assert s[i] == t[i - lead];
    }
  }

  /**
   * `s.trim()`: what is left of `s` after removing whitespace, and only
   * whitespace, on both sides; it neither starts nor ends with whitespace.
   */
  function Trim(s: string): (r: string)
    ensures r != [] ==> !IsJsWhitespace(r[0]) && !IsJsWhitespace(r[|r| - 1])
    ensures var lead := |s| - |TrimStart(s)|;
              && lead + |r| <= |s| && r <= s[lead..]
              && (forall i :: 0 <= i < lead ==> IsJsWhitespace(s[i]))
              && (forall i :: lead + |r| <= i < |s| ==> IsJsWhitespace(s[i]))
  {
    var t := TrimStart(s);
    var r := TrimEnd(t);
    ShiftedTail(s, t, |s| - |t|, |r|);
    r
  }

  /** Trimming twice is trimming once. */
  lemma TrimIdempotent(s: string)
    ensures Trim(Trim(s)) == Trim(s)
  {
    var r := Trim(s);
    assert TrimStart(r) == r;
    assert TrimEnd(r) == r;
  }

  // ---------------------------------------------------------------------
  // Decimal numerals (Number.prototype.toString for non-negative integers)
  // ---------------------------------------------------------------------

  predicate IsDigit(c: char) {
    '0' <= c <= '9'
  }

  function DigitValue(c: char): (d: nat)
    requires IsDigit(c)
    ensures d < 10
  {
    (c as int) - ('0' as int)
  }

  function DigitChar(d: nat): (c: char)
    requires d < 10
    ensures IsDigit(c) && DigitValue(c) == d
  {
    ('0' as int + d) as char
  }

  /**
   * The decimal numeral JavaScript prints for a non-negative integer below
   * 10^21, such as an array length; larger numbers print in exponent form.
   */
  function Decimal(n: nat): (s: string)
    ensures s != []
    ensures forall i :: 0 <= i < |s| ==> IsDigit(s[i])
    ensures s[0] == '0' ==> n == 0
  {
    if n < 10 then [DigitChar(n)] else Decimal(n / 10) + [DigitChar(n % 10)]
  }

  /** The integer a string of digits denotes. */
  function DecimalValue(s: string): nat
    requires forall i :: 0 <= i < |s| ==> IsDigit(s[i])
  {
    if s == [] then 0
    else DecimalValue(s[..|s| - 1]) * 10 + DigitValue(s[|s| - 1])
  }

  /** Reading back a printed count gives the count. */
  lemma {:induction false} DecimalRoundTrip(n: nat)
    ensures DecimalValue(Decimal(n)) == n
  {
    if n >= 10 {
      DecimalRoundTrip(n / 10);
      var s := Decimal(n);
      assert s[..|s| - 1] == Decimal(n / 10);
    }
  }

  /** Different counts print differently. */
  lemma DecimalInjective(m: nat, n: nat)
    requires Decimal(m) == Decimal(n)
    ensures m == n
  {
    DecimalRoundTrip(m);
    DecimalRoundTrip(n);
  }
}
