/**
 * Formatting into fixed-size character buffers, as snprintf does it, and
 * the decimal rendering of a process id ("%d").
 */
module BoundedFormat {

  /** Size of the cwd and rootfs buffers (PATH_MAX on Linux). */
  const PATH_MAX := 4096

  /** Size of the cgroup path buffers (PATH_BUFFER_SIZE). */
  const PATH_BUFFER_SIZE := 512

  /** Size of the buffer the process id is printed into. */
  const PID_BUFFER_SIZE := 32

  /**
   * What snprintf(buf, size, ...) leaves behind: the text stored in the
   * buffer (without its terminating NUL) and the return value, the length
   * the full text would have had.
   */
  datatype Formatted = Formatted(text: string, length: nat)

  /**
   * snprintf of the already-expanded text `s` into a buffer of `size`
   * bytes: at most size - 1 characters are stored, the return value is the
   * untruncated length, so `length >= size` is exactly the truncation test.
   */
  function FormatBounded(size: nat, s: string): (r: Formatted)
    requires size > 0
    ensures r.length == |s|
    ensures |r.text| < size && r.text <= s
    ensures r.text == s <==> r.length < size
    ensures r.length >= size ==> r.text == s[..size - 1]
  {
    if |s| < size then Formatted(s, |s|) else Formatted(s[..size - 1], |s|)
  }

  function DigitChar(d: nat): (c: char)
    requires d < 10
  {
    "0123456789"[d]
  }

  predicate IsDigit(c: char) {
    '0' <= c <= '9'
  }

  predicate AllDigits(s: string) {
    forall i :: 0 <= i < |s| ==> IsDigit(s[i])
  }

  /** The decimal numeral "%d" prints for a non-negative number. */
  function Decimal(n: nat): (s: string)
    ensures |s| >= 1 && AllDigits(s)
    ensures (s[0] == '0') == (n == 0)
  {
    if n < 10 then [DigitChar(n)] else Decimal(n / 10) + [DigitChar(n % 10)]
  }

  /** The number a string of decimal digits denotes. */
  function DecimalValue(s: string): nat
    requires AllDigits(s)
  {
    if s == [] then 0
    else DecimalValue(s[..|s| - 1]) * 10 + (s[|s| - 1] as int - '0' as int)
  }

  /** Reading back what "%d" printed gives the number again. */
  lemma {:induction false} DecimalRoundTrip(n: nat)
    ensures DecimalValue(Decimal(n)) == n
  {
    var s := Decimal(n);
    if n >= 10 {
      DecimalRoundTrip(n / 10);
      assert s[..|s| - 1] == Decimal(n / 10);
    }
  }

  function Pow10(k: nat): (p: nat)
    ensures p >= 1
  {
    if k == 0 then 1 else 10 * Pow10(k - 1)
  }

  /** A number below 10^k needs at most k digits. */
  lemma {:induction false} DecimalLength(n: nat, k: nat)
    requires 1 <= k && n < Pow10(k)
    ensures |Decimal(n)| <= k
  {
    if n >= 10 {
      assert k >= 2;
      DecimalLength(n / 10, k - 1);
    }
  }

  /** Any 32-bit process id is printed into the 32-byte buffer whole. */
  lemma PidFitsBuffer(pid: nat)
    requires pid < 0x8000_0000
    ensures FormatBounded(PID_BUFFER_SIZE, Decimal(pid)).text == Decimal(pid)
  {
    assert Pow10(10) == 10_000_000_000;
    DecimalLength(pid, 10);
  }
}
