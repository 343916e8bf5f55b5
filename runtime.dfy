/** The two JavaScript runtime services the upload file name is built
    from: turning a non-negative integer into its decimal text (what
    `Date.now() + '-' + n` does), and Node's `path.extname`. */
module Runtime {
  import opened Wrappers

  predicate IsDigit(c: char) {
    '0' <= c <= '9'
  }

  predicate AllDigits(s: string) {
    forall i :: 0 <= i < |s| ==> IsDigit(s[i])
  }

  function DigitChar(d: nat): (c: char)
    requires d < 10
    ensures IsDigit(c)
  {
    ('0' as int + d) as char
  }

  function DigitValue(c: char): (d: nat)
    requires IsDigit(c)
    ensures d < 10
  {
    c as int - '0' as int
  }

  /** The decimal text of `n`, without leading zeros. */
  function DecimalString(n: nat): (s: string)
    decreases n
    ensures |s| >= 1 && AllDigits(s)
    ensures s[0] == '0' ==> n == 0
  {
    if n < 10 then [DigitChar(n)] else DecimalString(n / 10) + [DigitChar(n % 10)]
  }

  /** The number a string of decimal digits denotes. */
  function DecimalValue(s: string): nat
    requires AllDigits(s)
    decreases |s|
  {
    if s == [] then 0 else DecimalValue(s[..|s| - 1]) * 10 + DigitValue(s[|s| - 1])
  }

  /** Reading the decimal text back gives the number. */
  lemma {:induction false} DecimalRoundTrip(n: nat)
    ensures DecimalValue(DecimalString(n)) == n
  {
    var s := DecimalString(n);
    if n >= 10 {
      DecimalRoundTrip(n / 10);
      assert s[..|s| - 1] == DecimalString(n / 10);
    }
  }

  /** Distinct numbers have distinct decimal texts. */
  lemma DecimalInjective(m: nat, n: nat)
    requires DecimalString(m) == DecimalString(n)
    ensures m == n
  {
    DecimalRoundTrip(m);
    DecimalRoundTrip(n);
  }

  /** The length of the longest all-digit prefix of `s`. */
  function LeadingDigits(s: string): (k: nat)
    decreases |s|
    ensures k <= |s| && AllDigits(s[..k])
    ensures k < |s| ==> !IsDigit(s[k])
  {
    if s == [] || !IsDigit(s[0]) then 0
    else
      var k := 1 + LeadingDigits(s[1..]);
      assert s[..k] == [s[0]] + s[1..][..k - 1];
      k
  }

  /** A run of digits followed by a non-digit (or by nothing) is read exactly. */
  lemma {:induction false} LeadingDigitsOf(d: string, t: string)
    requires AllDigits(d)
    requires t == [] || !IsDigit(t[0])
    ensures LeadingDigits(d + t) == |d|
    decreases |d|
  {
    if d != [] {
      assert (d + t)[0] == d[0];
      assert (d + t)[1..] == d[1..] + t;
      LeadingDigitsOf(d[1..], t);
    } else {
      assert d + t == t;
    }
  }

  /** The index of the last '.' in `s`, if any. */
  function LastDot(s: string): (k: Option<nat>)
    decreases |s|
    ensures k.Some? ==> k.value < |s| && s[k.value] == '.'
    ensures k.Some? ==> forall i :: k.value < i < |s| ==> s[i] != '.'
    ensures k.None? ==> forall i :: 0 <= i < |s| ==> s[i] != '.'
  {
    if s == [] then None
    else if s[|s| - 1] == '.' then Some(|s| - 1)
    else LastDot(s[..|s| - 1])
  }

  /** Node's `path.extname` on a bare file name: from the last '.' to the
      end, except that a name with no '.', a name whose only '.' is its
      first character, and the name ".." have no extension. */
  function ExtName(name: string): (e: string)
    ensures e == "" <==>
      || (forall i :: 0 <= i < |name| ==> name[i] != '.')
      || (name[0] == '.' && forall i :: 0 < i < |name| ==> name[i] != '.')
      || name == ".."
    ensures e != "" ==>
      && e[0] == '.' && |e| <= |name| && e == name[|name| - |e|..]
      && forall i :: 0 < i < |e| ==> e[i] != '.'
  {
    match LastDot(name)
    case None => ""
    case Some(k) =>
      if k == 0 || name == ".." then ""
      else
        var e := name[k..];
        assert e[0] == name[k];
        e
  }

  lemma ExtNameExamples()
    ensures ExtName("puppy.png") == ".png"
    ensures ExtName("archive.tar.gz") == ".gz"
    ensures ExtName("photo.") == "."
    ensures ExtName(".profile") == ""
    ensures ExtName("README") == ""
    ensures ExtName("..") == ""
  {
    var e := ExtName("puppy.png");
    assert "puppy.png"[0] == 'p' && "puppy.png"[5] == '.';
    var f := ExtName("archive.tar.gz");
    assert "archive.tar.gz"[0] == 'a' && "archive.tar.gz"[11] == '.';
  }
}
