/**
 * The receipt protocol's text: the string Server::genReceipt builds before a
 * PLAN frame is written, and the decimal rendering of the session counter in it.
 */
module Receipt {
  import opened Wrappers

  predicate IsDigit(c: char)
  {
    '0' <= c <= '9'
  }

  predicate AllDigits(s: string)
  {
    forall i :: 0 <= i < |s| ==> IsDigit(s[i])
  }

  function DigitChar(d: nat): (c: char)
    requires d < 10
    ensures IsDigit(c)
  {
    ('0' as int + d) as char
  }

  function DigitValue(c: char): nat
    requires IsDigit(c)
  {
    c as int - '0' as int
  }

  /** Decimal digits of `n`, most significant first, without leading zeros. */
  function Digits(n: nat): (s: string)
    ensures |s| > 0 && AllDigits(s)
    decreases n
  {
    if n < 10 then [DigitChar(n)] else Digits(n / 10) + [DigitChar(n % 10)]
  }

  /** QString::number(n, 10): a minus sign for negative numbers, then the digits. */
  function Decimal(n: int): (s: string)
    ensures 0 <= n ==> AllDigits(s) && 0 < |s|
    ensures n < 0 ==> 1 < |s| && s[0] == '-' && AllDigits(s[1..])
  {
    if n < 0 then "-" + Digits(-n) else Digits(n)
  }

  /** The number a string of decimal digits denotes. */
  function ValueOf(s: string): nat
    requires AllDigits(s)
  {
    if s == [] then 0 else 10 * ValueOf(s[..|s| - 1]) + DigitValue(s[|s| - 1])
  }

  /** The longest prefix of `s` made of digits. */
  function DigitPrefix(s: string): (d: string)
    ensures AllDigits(d) && |d| <= |s| && d == s[..|d|]
    ensures |d| < |s| ==> !IsDigit(s[|d|])
  {
    if s != [] && IsDigit(s[0]) then [s[0]] + DigitPrefix(s[1..]) else []
  }

  /** The integer written at the start of `s`, with an optional minus sign. */
  function LeadingInt(s: string): int
  {
    if s != [] && s[0] == '-' then -(ValueOf(DigitPrefix(s[1..])) as int) else ValueOf(DigitPrefix(s))
  }

  lemma {:induction false} ValueOfDigits(n: nat)
    ensures ValueOf(Digits(n)) == n
    decreases n
  {
    if n >= 10 {
      var s := Digits(n);
      assert s[..|s| - 1] == Digits(n / 10);
      ValueOfDigits(n / 10);
    }
  }

  /** A run of digits followed by a non-digit is read back exactly. */
  lemma {:induction false} DigitPrefixOf(d: string, tail: string)
    requires AllDigits(d)
    requires tail == [] || !IsDigit(tail[0])
    ensures DigitPrefix(d + tail) == d
  {
    if d == [] {
      assert d + tail == tail;
    } else {
      assert (d + tail)[1..] == d[1..] + tail;
      DigitPrefixOf(d[1..], tail);
    }
  }

  /** Decimal renders a number so that it can be read back from the front of any
      text that goes on with a non-digit. */
  lemma LeadingIntOfDecimal(n: int, tail: string)
    requires tail == [] || !IsDigit(tail[0])
    ensures LeadingInt(Decimal(n) + tail) == n
  {
    if n < 0 {
      assert ("-" + Digits(-n) + tail)[1..] == Digits(-n) + tail;
      DigitPrefixOf(Digits(-n), tail);
      ValueOfDigits(-n);
    } else {
      DigitPrefixOf(Digits(n), tail);
      ValueOfDigits(n);
    }
  }

  const ServerName := "ServerName"
  const ClientName := "ClientName"

  /** The fixed text before the counter. */
  const Prefix := "From: " + ServerName + ", " + "To: " + ClientName + ", " + "Time: "

  /**
   * Server::genReceipt: the identifiers, the session counter `sendTimeNum` and
   * the current date and time (`QDate`/`QTime` text, given here as inputs).
   */
  function GenReceipt(sendTimeNum: int, date: string, time: string): (receipt: string)
    ensures |Prefix| < |receipt| && receipt[..|Prefix|] == Prefix
  {
    var timeNum := "Time: " + Decimal(sendTimeNum);
    "From: " + ServerName + ", " + "To: " + ClientName + ", " + timeNum + ", " + date + ", " + time
  }

  /** The session counter a receipt carries, read back after the fixed prefix. */
  function ReceiptCounter(receipt: string): Option<int>
  {
    if |Prefix| <= |receipt| && receipt[..|Prefix|] == Prefix
    then Some(LeadingInt(receipt[|Prefix|..]))
    else None
  }

  /** The counter is recoverable from the receipt, whatever the date and time. */
  lemma CounterOfReceipt(n: int, date: string, time: string)
    ensures ReceiptCounter(GenReceipt(n, date, time)) == Some(n)
  {
    var r := GenReceipt(n, date, time);
    var tail := ", " + date + ", " + time;
    Regroup("From: " + ServerName + ", " + "To: " + ClientName + ", ", "Time: ", Decimal(n), ", ", date, time);
    assert r == Prefix + (Decimal(n) + tail);
    assert r[|Prefix|..] == Decimal(n) + tail;
    LeadingIntOfDecimal(n, tail);
  }

  lemma Regroup(q: string, t: string, d: string, c: string, date: string, time: string)
    ensures q + (t + d) + c + date + c + time == (q + t) + (d + (c + date + c + time))
  {
  }

  /** Receipts of two different sessions never match, so an echo of a stale
      receipt cannot pass the server's equality check. */
  lemma DistinctSessionsDistinctReceipts(n1: int, n2: int, date1: string, time1: string, date2: string, time2: string)
    requires n1 != n2
    ensures GenReceipt(n1, date1, time1) != GenReceipt(n2, date2, time2)
  {
    CounterOfReceipt(n1, date1, time1);
    CounterOfReceipt(n2, date2, time2);
  }
}
