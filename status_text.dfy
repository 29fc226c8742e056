/** The texts the controller writes into a MyApp's status: the phase names,
    the fixed messages, and the "waiting" message that reports the ready and the
    desired replica counts in decimal, as Go's `%d` prints an int32. */
module StatusText {
  import opened MyAppTypes

  const PhasePending := "Pending"
  const PhaseRunning := "Running"

  /** "creating resources" */
  const CreatingMessage := "正在创建资源"
  /** "all replicas are ready" */
  const RunningMessage := "所有副本都已就绪"
  /** "waiting for replicas to become ready: " */
  const WaitingPrefix := "等待副本就绪: "

  predicate IsDigit(ch: char)
  {
    '0' <= ch <= '9'
  }

  predicate AllDigits(s: string)
  {
    forall i :: 0 <= i < |s| ==> IsDigit(s[i])
  }

  function DigitChar(d: nat): (ch: char)
    requires d < 10
    ensures IsDigit(ch) && ch as int - '0' as int == d
  {
    (d + '0' as int) as char
  }

  /** The decimal digits of `n`, most significant first, without leading zeros. */
  function Decimal(n: nat): (s: string)
    ensures |s| >= 1 && AllDigits(s)
    ensures s[0] == '0' <==> n == 0
    decreases n
  {
    if n < 10 then [DigitChar(n)] else Decimal(n / 10) + [DigitChar(n % 10)]
  }

  /** The value a string of decimal digits denotes. */
  function DecimalValue(s: string): nat
    requires AllDigits(s)
  {
    if s == [] then 0 else 10 * DecimalValue(s[..|s| - 1]) + (s[|s| - 1] as int - '0' as int)
  }

  lemma {:induction false} DecimalValueOfDecimal(n: nat)
    ensures DecimalValue(Decimal(n)) == n
    decreases n
  {
    var s := Decimal(n);
    if n >= 10 {
      assert s[..|s| - 1] == Decimal(n / 10);
      DecimalValueOfDecimal(n / 10);
    }
  }

  /** Go's `%d` rendering of an integer: a minus sign for negative values. */
  function FormatInt(n: int): (s: string)
    ensures |s| >= 1 && '/' !in s
  {
    if n < 0 then "-" + Decimal(-n) else Decimal(n)
  }

  /** Reads back what FormatInt wrote. */
  function ParseInt(s: string): int
  {
    if |s| > 0 && s[0] == '-' && AllDigits(s[1..]) then -(DecimalValue(s[1..]) as int)
    else if AllDigits(s) then DecimalValue(s)
    else 0
  }

  lemma ParseIntOfFormatInt(n: int)
    ensures ParseInt(FormatInt(n)) == n
  {
    var s := FormatInt(n);
    if n < 0 {
      assert s[1..] == Decimal(-n);
      DecimalValueOfDecimal(-n);
    } else {
      DecimalValueOfDecimal(n);
    }
  }

  /** The message of a MyApp whose replicas are not all ready: "<ready>/<desired>". */
  function WaitingMessage(ready: int32, desired: int32): string
  {
    WaitingPrefix + FormatInt(ready as int) + "/" + FormatInt(desired as int)
  }

  /** In `a + "/" + b` with no slash in `a`, the first slash sits at `|a|`. */
  lemma FirstSlashAt(a: string, b: string)
    requires '/' !in a
    ensures var s := a + "/" + b; s[|a|] == '/' && forall i :: 0 <= i < |a| ==> s[i] != '/'
  {
    var s := a + "/" + b;
    forall i | 0 <= i < |a| ensures s[i] != '/' {
      assert s[i] == a[i];
    }
  }

  /** A string with no slash, a slash, then anything, splits only one way. */
  lemma SlashSplitUnique(a: string, b: string, a': string, b': string)
    requires '/' !in a && '/' !in a'
    requires a + "/" + b == a' + "/" + b'
    ensures a == a' && b == b'
  {
    var s, s' := a + "/" + b, a' + "/" + b';
    FirstSlashAt(a, b);
    FirstSlashAt(a', b');
    assert |a| == |a'|;
    assert a == s[..|a|] && a' == s'[..|a'|];
    assert b == s[|a| + 1..] && b' == s'[|a'| + 1..];
  }

  /** The waiting message determines both counts it reports. */
  lemma WaitingMessageInjective(ready: int32, desired: int32, ready': int32, desired': int32)
    requires WaitingMessage(ready, desired) == WaitingMessage(ready', desired')
    ensures ready == ready' && desired == desired'
  {
    var r, d := FormatInt(ready as int), FormatInt(desired as int);
    var r', d' := FormatInt(ready' as int), FormatInt(desired' as int);
    var m, m' := WaitingMessage(ready, desired), WaitingMessage(ready', desired');
    assert m[|WaitingPrefix|..] == r + "/" + d;
    assert m'[|WaitingPrefix|..] == r' + "/" + d';
    SlashSplitUnique(r, d, r', d');
    ParseIntOfFormatInt(ready as int);
    ParseIntOfFormatInt(ready' as int);
    ParseIntOfFormatInt(desired as int);
    ParseIntOfFormatInt(desired' as int);
  }
}
