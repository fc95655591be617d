/** Shared vocabulary of the three generations of the link-status engine:
    optional values, link roles and probe kinds, Python truthiness, and the
    few string and number helpers the engine relies on. */
module Common {

  datatype Option<+T> = None | Some(value: T)

  datatype Result<+T, +E> = Success(value: T) | Failure(error: E)

  /** The role of a link: exactly one primary, any number of secondaries and
      monitor-only links. `MonitorOnly` is the default role. */
  datatype LinkType = Primary | Secondary | MonitorOnly

  /** The probe kinds a link configuration may name. `Ping` is a declared
      kind for which no probe exists. */
  datatype ProbeType = Google | OpenDns | Akamai | File | Ping

  const DEFAULT_LINK_TYPE: LinkType := MonitorOnly
  const DEFAULT_SCAN_INTERVAL: nat := 30
  const DEFAULT_TIMEOUT: real := 1.0
  const DEFAULT_RETRIES: nat := 3

  /** Python truthiness of a `bool | None` value. */
  predicate IsTrue(b: Option<bool>) {
    b == Some(true)
  }

  /** Python truthiness of a `str | None` value: present and non-empty. */
  predicate IsTruthy(s: Option<string>) {
    s.Some? && s.value != ""
  }

  /** Python's `needle in hay` for strings. */
  predicate Contains(hay: string, needle: string)
    decreases |hay|
  {
    needle <= hay || (|hay| > 0 && Contains(hay[1..], needle))
  }

  /** `needle` occupies the window of `hay` that starts at `i`. */
  predicate WindowAt(hay: string, needle: string, i: int) {
    0 <= i && i + |needle| <= |hay| && hay[i..i + |needle|] == needle
  }

  /** A text that contains the needle has a window holding it. */
  lemma {:induction false} ContainsGivesWindow(hay: string, needle: string)
    requires Contains(hay, needle)
    ensures exists i :: WindowAt(hay, needle, i)
    decreases |hay|
  {
    if needle <= hay {
      assert WindowAt(hay, needle, 0);
    } else {
      ContainsGivesWindow(hay[1..], needle);
      var i :| WindowAt(hay[1..], needle, i);
      assert hay[i + 1..i + 1 + |needle|] == hay[1..][i..i + |needle|];
      assert WindowAt(hay, needle, i + 1);
    }
  }

  /** A window holding the needle makes the text contain it. */
  lemma {:induction false} WindowGivesContains(hay: string, needle: string, i: int)
    requires WindowAt(hay, needle, i)
    ensures Contains(hay, needle)
    decreases i
  {
    if i == 0 {
      assert needle <= hay;
    } else {
      assert hay[1..][i - 1..i - 1 + |needle|] == hay[i..i + |needle|];
      WindowGivesContains(hay[1..], needle, i - 1);
    }
  }

  /** `Contains` holds exactly when `needle` occupies some window of `hay`. */
  lemma ContainsIffWindow(hay: string, needle: string)
    ensures Contains(hay, needle) <==> exists i :: WindowAt(hay, needle, i)
  {
    if Contains(hay, needle) {
      ContainsGivesWindow(hay, needle);
    }
    if exists i :: WindowAt(hay, needle, i) {
      var i :| WindowAt(hay, needle, i);
      WindowGivesContains(hay, needle, i);
    }
  }

  /** Whitespace as Python's `str.isspace` sees it. */
  predicate IsSpace(c: char) {
    var n := c as int;
    (9 <= n <= 13) || (28 <= n <= 32) || n == 0x85 || n == 0xA0 || n == 0x1680
    || (0x2000 <= n <= 0x200A) || n == 0x2028 || n == 0x2029 || n == 0x202F
    || n == 0x205F || n == 0x3000
  }

  /** Python's `s.rstrip()`: the longest prefix of `s` that does not end in
      whitespace; everything cut off is whitespace. */
  function RStrip(s: string): (r: string)
    ensures r <= s
    ensures r == [] || !IsSpace(r[|r| - 1])
    ensures forall i :: |r| <= i < |s| ==> IsSpace(s[i])
    decreases |s|
  {
    if |s| > 0 && IsSpace(s[|s| - 1]) then RStrip(s[..|s| - 1]) else s
  }

  /** A text without trailing whitespace followed by whitespace strips back
      to that text. */
  lemma {:induction false} RStripAppended(text: string, pad: string)
    requires text == [] || !IsSpace(text[|text| - 1])
    requires forall i :: 0 <= i < |pad| ==> IsSpace(pad[i])
    ensures RStrip(text + pad) == text
    decreases |pad|
  {
    if |pad| > 0 {
      var shorter := pad[..|pad| - 1];
      assert (text + pad)[..|text + pad| - 1] == text + shorter;
      RStripAppended(text, shorter);
    } else {
      assert text + pad == text;
    }
  }

  /** A Python slice bound `i` resolved against a sequence of length `n`. */
  function PyIndex(i: int, n: nat): (k: nat)
    ensures k <= n
  {
    if i < 0 then (if i + n < 0 then 0 else i + n) else (if i > n then n else i)
  }

  /** Python's `s[start:stop]`: negative bounds count from the end, bounds are
      clamped, and an empty range gives the empty string. */
  function PySlice(s: string, start: int, stop: int): string {
    var a := PyIndex(start, |s|);
    var b := PyIndex(stop, |s|);
    if a < b then s[a..b] else []
  }

  function Sum(xs: seq<real>): real
    decreases |xs|
  {
    if xs == [] then 0.0 else Sum(xs[..|xs| - 1]) + xs[|xs| - 1]
  }

  /** `sum(xs) / len(xs)`, or None for no samples. */
  function Mean(xs: seq<real>): (m: Option<real>)
    ensures m.None? <==> xs == []
  {
    if xs == [] then None else Some(Sum(xs) / (|xs| as real))
  }

  lemma {:induction false} SumBounds(xs: seq<real>, lo: real, hi: real)
    requires forall i :: 0 <= i < |xs| ==> lo <= xs[i] <= hi
    ensures (|xs| as real) * lo <= Sum(xs) <= (|xs| as real) * hi
    decreases |xs|
  {
    if xs != [] {
      SumBounds(xs[..|xs| - 1], lo, hi);
    }
  }

  /** The mean of the samples lies between any lower and upper bound of the
      samples. */
  lemma MeanWithinBounds(xs: seq<real>, lo: real, hi: real)
    requires xs != []
    requires forall i :: 0 <= i < |xs| ==> lo <= xs[i] <= hi
    ensures lo <= Mean(xs).value <= hi
  {
    SumBounds(xs, lo, hi);
    var n := |xs| as real;
    assert n > 0.0;
    assert Sum(xs) / n >= lo by {
      assert Sum(xs) >= n * lo;
    }
    assert Sum(xs) / n <= hi by {
      assert Sum(xs) <= n * hi;
    }
  }

  function DigitChar(d: nat): char
    requires d < 10
  {
    "0123456789"[d]
  }

  /** Decimal notation of a natural number, as Python's `%d` prints it:
      the last digit is `n % 10`, and numbers from 10 on have more than one
      digit. */
  function DecimalString(n: nat): (s: string)
    ensures |s| > 0 && s[|s| - 1] == DigitChar(n % 10)
    ensures n < 10 <==> |s| == 1
    decreases n
  {
    if n < 10 then [DigitChar(n)] else DecimalString(n / 10) + [DigitChar(n % 10)]
  }

  /** Distinct numbers have distinct decimal notations. */
  lemma {:induction false} DecimalInjective(j: nat, k: nat)
    requires DecimalString(j) == DecimalString(k)
    ensures j == k
    decreases j
  {
    var dj, dk := DecimalString(j), DecimalString(k);
    assert DigitChar(j % 10) == DigitChar(k % 10);
    assert j % 10 == k % 10 by {
      assert "0123456789"[j % 10] == "0123456789"[k % 10];
    }
    if j >= 10 {
      assert dj[..|dj| - 1] == DecimalString(j / 10);
      assert dk[..|dk| - 1] == DecimalString(k / 10);
      DecimalInjective(j / 10, k / 10);
    }
  }
}
