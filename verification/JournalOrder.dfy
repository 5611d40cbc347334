/** How binlog positions are ordered: by the numeric suffix of the file name, then by offset. */
module JournalOrder {
  import opened CanalTypes

  predicate IsDigit(c: char) { '0' <= c <= '9' }

  function DigitValue(c: char): (d: nat)
    requires IsDigit(c)
    ensures d < 10
  {
    (c - '0') as int
  }

  /** `rsplit('.').next()`: the text after the last dot, or the whole name. */
  function LastSegment(name: string): string {
    if name == "" || name[|name| - 1] == '.' then ""
    else LastSegment(name[..|name| - 1]) + [name[|name| - 1]]
  }

  /** Digit by digit, failing on the first non-digit and on the first overflow. */
  function ParseDigits(s: string, acc: u64): Option<u64> {
    if s == "" then Some(acc)
    else if !IsDigit(s[0]) then None
    else
      var next := acc * 10 + DigitValue(s[0]);
      if next >= TWO_64 then None else ParseDigits(s[1..], next)
  }

  /** `str::parse::<u64>`: one leading plus sign is accepted, an empty number is not. */
  function ParseU64(s: string): Option<u64> {
    var digits := if s != "" && s[0] == '+' then s[1..] else s;
    if digits == "" then None else ParseDigits(digits, 0)
  }

  function BinlogSuffix(journalName: string): u64 {
    match ParseU64(LastSegment(journalName))
    case Some(n) => n
    case None => U64_MAX
  }

  datatype Key = Key(suffix: u64, position: u64)

  function EventKey(e: CanalEvent): Key {
    Key(BinlogSuffix(e.journalName), e.position)
  }

  function PosKey(p: LogPosition): Key {
    Key(BinlogSuffix(p.journalName), p.position)
  }

  predicate Before(a: Key, b: Key) {
    a.suffix < b.suffix || (a.suffix == b.suffix && a.position < b.position)
  }

  predicate AtMost(a: Key, b: Key) {
    !Before(b, a)
  }

  // -- What the suffix parser computes --------------------------------------

  predicate AllDigits(s: string) {
    forall i | 0 <= i < |s| :: IsDigit(s[i])
  }

  /** The number a decimal numeral denotes, most significant digit first. */
  function Value(s: string): nat
    requires AllDigits(s)
  {
    if s == "" then 0
    else Value(s[..|s| - 1]) * 10 + DigitValue(s[|s| - 1])
  }

  function Decimal(n: nat): (s: string)
    ensures s != "" && AllDigits(s)
  {
    var d := [('0' as int + n % 10) as char];
    if n < 10 then d else Decimal(n / 10) + d
  }

  /** The usual numeral: it denotes the number and has no leading zero. */
  lemma {:induction false} DecimalIsUsual(n: nat)
    ensures Value(Decimal(n)) == n
    ensures n > 0 ==> Decimal(n)[0] != '0'
    ensures Decimal(0) == "0"
  {
    var s := Decimal(n);
    assert DigitValue(s[|s| - 1]) == n % 10;
    if n < 10 {
      assert s[..|s| - 1] == "";
    } else {
      assert s[..|s| - 1] == Decimal(n / 10);
      DecimalIsUsual(n / 10);
    }
  }

  function Zeros(k: nat): (s: string)
    ensures |s| == k && AllDigits(s)
  {
    seq(k, _ => '0')
  }

  lemma {:induction false} ParseOneMore(s: string, c: char, acc: u64)
    ensures ParseDigits(s + [c], acc) ==
            match ParseDigits(s, acc)
            case None => None
            case Some(v) => ParseDigits([c], v)
  {
    if s == "" {
      assert s + [c] == [c];
    } else {
      assert (s + [c])[0] == s[0] && (s + [c])[1..] == s[1..] + [c];
      if IsDigit(s[0]) && acc * 10 + DigitValue(s[0]) < TWO_64 {
        ParseOneMore(s[1..], c, acc * 10 + DigitValue(s[0]));
      }
    }
  }

  /** The running parse with its overflow checks accepts exactly the numerals below 2^64. */
  lemma {:induction false} ParseDigitsExact(s: string)
    ensures ParseDigits(s, 0) ==
            if AllDigits(s) && Value(s) < TWO_64 then Some(Value(s)) else None
  {
    if s != "" {
      var front, c := s[..|s| - 1], s[|s| - 1];
      assert s == front + [c];
      ParseDigitsExact(front);
      ParseOneMore(front, c, 0);
      assert AllDigits(s) <==> AllDigits(front) && IsDigit(c);
      if AllDigits(front) && Value(front) < TWO_64 {
        var v: u64 := Value(front);
        assert [c][1..] == "";
        assert ParseDigits(s, 0) == ParseDigits([c], v);
      }
    }
  }

  lemma {:induction false} ValueOfDecimal(k: nat, n: nat)
    ensures AllDigits(Zeros(k) + Decimal(n))
    ensures Value(Zeros(k) + Decimal(n)) == n
  {
    var s := Zeros(k) + Decimal(n);
    var last := s[|s| - 1];
    assert DigitValue(last) == n % 10;
    if n < 10 {
      assert s[..|s| - 1] == Zeros(k);
      ValueOfZeros(k);
    } else {
      assert s[..|s| - 1] == Zeros(k) + Decimal(n / 10);
      ValueOfDecimal(k, n / 10);
    }
  }

  lemma {:induction false} ValueOfZeros(k: nat)
    ensures Value(Zeros(k)) == 0
  {
    if k > 0 {
      assert Zeros(k)[..k - 1] == Zeros(k - 1);
      ValueOfZeros(k - 1);
    }
  }

  lemma {:induction false} LastSegmentOfName(stem: string, s: string)
    requires '.' !in s
    ensures LastSegment(stem + "." + s) == s
  {
    var name := stem + "." + s;
    if s != "" {
      assert name[..|name| - 1] == stem + "." + s[..|s| - 1];
      LastSegmentOfName(stem, s[..|s| - 1]);
      assert name[|name| - 1] == s[|s| - 1];
    }
  }

  /** A rotated file's name, zero-padded by any amount, sorts by its rotation number. */
  lemma SuffixOfRotatedFile(stem: string, pad: nat, n: nat)
    ensures BinlogSuffix(stem + "." + Zeros(pad) + Decimal(n)) == if n < TWO_64 then n else U64_MAX
  {
    var s := Zeros(pad) + Decimal(n);
    ValueOfDecimal(pad, n);
    ParseDigitsExact(s);
    hide Decimal, Zeros, Value, ParseDigits, LastSegment;
    assert IsDigit(s[0]);
    assert '.' !in s by {
      forall i | 0 <= i < |s| ensures s[i] != '.' { assert IsDigit(s[i]); }
    }
    LastSegmentOfName(stem, s);
    assert stem + "." + Zeros(pad) + Decimal(n) == stem + "." + s;
  }

  /** The suffix is read back exactly when the last segment is a numeral below 2^64, with or without
      a plus sign; every other name sorts last. */
  lemma SuffixExact(journalName: string)
    ensures
      var seg := LastSegment(journalName);
      var digits := if seg != "" && seg[0] == '+' then seg[1..] else seg;
      BinlogSuffix(journalName) ==
        if digits != "" && AllDigits(digits) && Value(digits) < TWO_64 then Value(digits) else U64_MAX
  {
    var seg := LastSegment(journalName);
    ParseDigitsExact(if seg != "" && seg[0] == '+' then seg[1..] else seg);
  }

  /** Keys follow (rotation number, offset) whatever the stems and paddings of the two names. */
  lemma RotationOrder(stemA: string, padA: nat, a: u64, p: u64, stemB: string, padB: nat, b: u64, q: u64)
    ensures
      Before(PosKey(NewPosition(stemA + "." + Zeros(padA) + Decimal(a), p)),
             PosKey(NewPosition(stemB + "." + Zeros(padB) + Decimal(b), q)))
      <==> a < b || (a == b && p < q)
  {
    SuffixOfRotatedFile(stemA, padA, a);
    SuffixOfRotatedFile(stemB, padB, b);
  }
}
