/**
 * Clip file names. `getFileNameForIndex` concatenates the app's private files
 * directory, a slash, the index as Kotlin renders an `Int`, and ".mp4". The
 * decimal rendering is given a parser so that the name can be read back, which
 * is what makes distinct indices name distinct files.
 */
module FileNames {
  import opened Options

  /** The character of a decimal digit. */
  function DigitChar(d: int): (c: char)
    requires 0 <= d < 10
    ensures '0' <= c <= '9'
    ensures c == '0' <==> d == 0
  {
    (48 + d) as char
  }

  /** The value of a decimal digit character (0 for any other character). */
  function DigitValue(c: char): (d: int)
    ensures 0 <= d < 10
  {
    if '0' <= c <= '9' then c as int - 48 else 0
  }

  predicate IsDigits(s: string)
  {
    forall k :: 0 <= k < |s| ==> '0' <= s[k] <= '9'
  }

  /** The digits of `n`, most significant first, with no leading zero. */
  function NatToDecimal(n: nat): (s: string)
    ensures 1 <= |s| && IsDigits(s)
    ensures s[0] == '0' ==> n == 0
    decreases n
  {
    if n < 10 then [DigitChar(n)] else NatToDecimal(n / 10) + [DigitChar(n % 10)]
  }

  /** Kotlin's `Int.toString()`: a minus sign for a negative value, then the digits of its magnitude. */
  function IntToDecimal(i: int): (s: string)
    ensures 1 <= |s|
    ensures s[0] == '-' <==> i < 0
  {
    if i < 0 then "-" + NatToDecimal(-i) else NatToDecimal(i)
  }

  /** Reads a string of digits back as a number. */
  function DecimalToNat(s: string): nat
    decreases |s|
  {
    if s == [] then 0 else 10 * DecimalToNat(s[..|s| - 1]) + DigitValue(s[|s| - 1])
  }

  /** Reads an optionally signed string of digits back as a number. */
  function DecimalToInt(s: string): int
  {
    if 0 < |s| && s[0] == '-' then -(DecimalToNat(s[1..]) as int) else DecimalToNat(s)
  }

  lemma {:induction false} NatDecimalRoundTrip(n: nat)
    ensures DecimalToNat(NatToDecimal(n)) == n
    decreases n
  {
    if n >= 10 {
      var s := NatToDecimal(n);
      assert s[..|s| - 1] == NatToDecimal(n / 10);
      NatDecimalRoundTrip(n / 10);
    }
  }

  lemma IntDecimalRoundTrip(i: int)
    ensures DecimalToInt(IntToDecimal(i)) == i
  {
    if i < 0 {
      NatDecimalRoundTrip(-i);
      assert IntToDecimal(i)[1..] == NatToDecimal(-i);
    } else {
      NatDecimalRoundTrip(i);
    }
  }

  /** Digits, optionally after a minus sign: the texts `IntToDecimal` can produce. */
  predicate IsDecimal(m: string)
  {
    if 0 < |m| && m[0] == '-' then 1 < |m| && IsDigits(m[1..]) else 0 < |m| && IsDigits(m)
  }

  /** `getFileNameForIndex`: where clip `index` is stored inside directory `dir`. */
  function FileNameForIndex(dir: string, index: int): string
  {
    dir + "/" + IntToDecimal(index) + ".mp4"
  }

  /** A clip's path is the directory, a slash, the signed decimal index (digits only when not negative), ".mp4". */
  lemma FileNameShape(dir: string, index: int)
    ensures var name := FileNameForIndex(dir, index);
      && |dir| + 6 <= |name|
      && name[..|dir| + 1] == dir + "/" && name[|name| - 4..] == ".mp4"
      && name[|dir| + 1..|name| - 4] == IntToDecimal(index)
      && IsDecimal(name[|dir| + 1..|name| - 4])
      && (index >= 0 ==> IsDigits(name[|dir| + 1..|name| - 4]))
  {
    var digits := IntToDecimal(index);
    var name := FileNameForIndex(dir, index);
    assert name == (dir + "/") + digits + ".mp4";
    assert name[..|dir| + 1] == dir + "/";
    assert name[|name| - 4..] == ".mp4";
    assert name[|dir| + 1..|name| - 4] == digits;
    assert index < 0 ==> digits[1..] == NatToDecimal(-index);
  }

  /**
   * The clip index a path in `dir` stands for: `None` unless the path is
   * `dir`, a slash, an optionally signed run of digits, and ".mp4".
   */
  function IndexOfFileName(dir: string, name: string): Option<int>
  {
    if |dir| + 5 <= |name| && name[..|dir| + 1] == dir + "/" && name[|name| - 4..] == ".mp4"
       && IsDecimal(name[|dir| + 1..|name| - 4])
    then Some(DecimalToInt(name[|dir| + 1..|name| - 4]))
    else None
  }

  /** A path in `dir` whose middle is not an optionally signed run of digits reads as no index. */
  lemma NonClipNameHasNoIndex(dir: string, m: string)
    requires !IsDecimal(m)
    ensures IndexOfFileName(dir, dir + "/" + m + ".mp4") == None
  {
    var name := dir + "/" + m + ".mp4";
    assert name[..|dir| + 1] == dir + "/";
    assert name[|dir| + 1..|name| - 4] == m;
  }

  /** A clip's name reads back as its own index. */
  lemma FileNameRoundTrip(dir: string, index: int)
    ensures IndexOfFileName(dir, FileNameForIndex(dir, index)) == Some(index)
  {
    FileNameShape(dir, index);
    IntDecimalRoundTrip(index);
  }

  /** Distinct indices name distinct files in the same directory. */
  lemma FileNameInjective(dir: string, i: int, j: int)
    ensures FileNameForIndex(dir, i) == FileNameForIndex(dir, j) <==> i == j
  {
    FileNameRoundTrip(dir, i);
    FileNameRoundTrip(dir, j);
  }
}
