/**
 * The formats a ledger cursor is built from, as Go prints them: RFC 3339 timestamps in UTC with trimmed nanoseconds,
 * UUIDs, and unpadded URL-safe base64. Together they are a lawful codec.
 */
module Formats {
  import opened Prelude
  import opened MoneyDomain
  import opened Ordering
  import opened Pagination

  // ---- base64 (section 5 of RFC 4648) ----

  function Symbol(v: nat): char
    requires v < 64
  {
    if v < 26 then 'A' + v as char
    else if v < 52 then 'a' + (v - 26) as char
    else if v < 62 then '0' + (v - 52) as char
    else if v == 62 then '-' else '_'
  }

  function SymbolValue(c: char): (v: Option<nat>)
    ensures v.Some? ==> v.value < 64
  {
    if 'A' <= c <= 'Z' then Some(c as int - 'A' as int)
    else if 'a' <= c <= 'z' then Some(c as int - 'a' as int + 26)
    else if '0' <= c <= '9' then Some(c as int - '0' as int + 52)
    else if c == '-' then Some(62)
    else if c == '_' then Some(63) else None
  }

  lemma SymbolRoundTrip(v: nat)
    requires v < 64
    ensures SymbolValue(Symbol(v)) == Some(v)
  {
  }

  function Byte(c: char): (v: nat)
    ensures v < 256
  {
    c as int % 256
  }

  // The four sextets of three bytes.

  function First(a: nat): (v: nat)
    requires a < 256
    ensures v < 64
  {
    a / 4
  }

  function Second(a: nat, b: nat): (v: nat)
    requires b < 256
    ensures v < 64
  {
    a % 4 * 16 + b / 16
  }

  function Third(b: nat, c: nat): (v: nat)
    requires c < 256
    ensures v < 64
  {
    b % 16 * 4 + c / 64
  }

  function Fourth(c: nat): (v: nat)
    ensures v < 64
  {
    c % 64
  }

  function Quad(a: nat, b: nat, c: nat): string
    requires a < 256 && b < 256 && c < 256
  {
    [Symbol(First(a)), Symbol(Second(a, b)), Symbol(Third(b, c)), Symbol(Fourth(c))]
  }

  /** Three bytes make four symbols; of those, two or three are kept for one or two bytes left over. */
  function Encode64(s: string): string {
    if s == "" then ""
    else if |s| == 1 then Quad(Byte(s[0]), 0, 0)[..2]
    else if |s| == 2 then Quad(Byte(s[0]), Byte(s[1]), 0)[..3]
    else Quad(Byte(s[0]), Byte(s[1]), Byte(s[2])) + Encode64(s[3..])
  }

  function CharOf(v: int): char {
    (v % 256) as char
  }

  function Decode64(t: string): Option<string> {
    if t == "" then Some("")
    else if |t| == 1 then None
    else
      match (SymbolValue(t[0]), SymbolValue(t[1]))
      case (Some(p), Some(q)) =>
        if |t| == 2 then Some([CharOf(p * 4 + q / 16)])
        else
          (match SymbolValue(t[2])
           case None => None
           case Some(r) =>
             if |t| == 3 then Some([CharOf(p * 4 + q / 16), CharOf(q % 16 * 16 + r / 4)])
             else
               match (SymbolValue(t[3]), Decode64(t[4..]))
               case (Some(u), Some(rest)) =>
                 Some([CharOf(p * 4 + q / 16), CharOf(q % 16 * 16 + r / 4), CharOf(r % 4 * 64 + u)] + rest)
               case _ => None)
      case _ => None
  }

  lemma Sextets(a: nat, b: nat, c: nat)
    requires a < 256 && b < 256 && c < 256
    ensures First(a) * 4 + Second(a, b) / 16 == a
    ensures Second(a, b) % 16 * 16 + Third(b, c) / 4 == b
    ensures Third(b, c) % 4 * 64 + Fourth(c) == c
  {
  }

  /** Four symbols decode to the three bytes they were made of. */
  lemma QuadDecodes(p: nat, q: nat, r: nat, u: nat, rest: string, tail: string)
    requires p < 64 && q < 64 && r < 64 && u < 64 && Decode64(rest) == Some(tail)
    ensures Decode64([Symbol(p), Symbol(q), Symbol(r), Symbol(u)] + rest)
            == Some([CharOf(p * 4 + q / 16), CharOf(q % 16 * 16 + r / 4), CharOf(r % 4 * 64 + u)] + tail)
  {
    SymbolRoundTrip(p);
    SymbolRoundTrip(q);
    SymbolRoundTrip(r);
    SymbolRoundTrip(u);
    hide Symbol, SymbolValue, CharOf;
    var t := [Symbol(p), Symbol(q), Symbol(r), Symbol(u)] + rest;
    assert t[4..] == rest;
  }

  lemma PairDecodes(p: nat, q: nat)
    requires p < 64 && q < 64
    ensures Decode64([Symbol(p), Symbol(q)]) == Some([CharOf(p * 4 + q / 16)])
  {
    SymbolRoundTrip(p);
    SymbolRoundTrip(q);
    hide Symbol, SymbolValue, CharOf;
  }

  lemma TripleDecodes(p: nat, q: nat, r: nat)
    requires p < 64 && q < 64 && r < 64
    ensures Decode64([Symbol(p), Symbol(q), Symbol(r)])
            == Some([CharOf(p * 4 + q / 16), CharOf(q % 16 * 16 + r / 4)])
  {
    SymbolRoundTrip(p);
    SymbolRoundTrip(q);
    SymbolRoundTrip(r);
    hide Symbol, SymbolValue, CharOf;
  }

  lemma ByteBack(c: char)
    requires c as int < 256
    ensures Byte(c) < 256 && CharOf(Byte(c)) == c
  {
  }

  /** What a quad was made of comes back, from two, three or all of its symbols. */
  lemma QuadBack(a: nat, b: nat, c: nat, rest: string, tail: string)
    requires a < 256 && b < 256 && c < 256
    ensures |Quad(a, b, c)| == 4
    ensures b == 0 && c == 0 ==> Decode64(Quad(a, b, c)[..2]) == Some([CharOf(a)])
    ensures c == 0 ==> Decode64(Quad(a, b, c)[..3]) == Some([CharOf(a), CharOf(b)])
    ensures Decode64(rest) == Some(tail) ==>
              Decode64(Quad(a, b, c) + rest) == Some([CharOf(a), CharOf(b), CharOf(c)] + tail)
  {
    hide Decode64, Symbol, SymbolValue, CharOf, First, Second, Third, Fourth;
    Sextets(a, b, c);
    PairDecodes(First(a), Second(a, b));
    TripleDecodes(First(a), Second(a, b), Third(b, c));
    if Decode64(rest) == Some(tail) {
      QuadDecodes(First(a), Second(a, b), Third(b, c), Fourth(c), rest, tail);
    }
    assert Quad(a, b, c)[..2] == [Symbol(First(a)), Symbol(Second(a, b))];
    assert Quad(a, b, c)[..3] == [Symbol(First(a)), Symbol(Second(a, b)), Symbol(Third(b, c))];
  }

  lemma {:induction false} Base64RoundTrip(s: string)
    requires IsBytes(s)
    ensures Decode64(Encode64(s)) == Some(s) && (s != "" ==> Encode64(s) != "")
  {
    hide Decode64, Quad, CharOf, Byte;
    if s == "" {
      NothingDecodes();
    } else {
      ByteBack(s[0]);
      if |s| == 1 {
        QuadBack(Byte(s[0]), 0, 0, "", "");
        assert s == [s[0]];
      } else if |s| == 2 {
        ByteBack(s[1]);
        QuadBack(Byte(s[0]), Byte(s[1]), 0, "", "");
        assert s == [s[0], s[1]];
      } else {
        ByteBack(s[1]);
        ByteBack(s[2]);
        Base64RoundTrip(s[3..]);
        QuadBack(Byte(s[0]), Byte(s[1]), Byte(s[2]), Encode64(s[3..]), s[3..]);
        assert s == [s[0], s[1], s[2]] + s[3..];
      }
    }
  }

  lemma NothingDecodes()
    ensures Decode64("") == Some("")
  {
  }

  // ---- UUIDs (section 4 of RFC 9562) ----

  function HexDigit(v: nat): char
    requires v < 16
  {
    if v < 10 then '0' + v as char else 'a' + (v - 10) as char
  }

  function HexValue(c: char): Option<nat> {
    if '0' <= c <= '9' then Some(c as int - '0' as int)
    else if 'a' <= c <= 'f' then Some(c as int - 'a' as int + 10)
    else if 'A' <= c <= 'F' then Some(c as int - 'A' as int + 10) else None
  }

  function Power(base: nat, n: nat): nat {
    if n == 0 then 1 else base * Power(base, n - 1)
  }

  function Hex(n: nat, width: nat): (s: string)
    ensures |s| == width
  {
    if width == 0 then "" else Hex(n / 16, width - 1) + [HexDigit(n % 16)]
  }

  function ReadHex(s: string): Option<nat> {
    if s == "" then Some(0)
    else
      match (ReadHex(s[..|s| - 1]), HexValue(s[|s| - 1]))
      case (Some(n), Some(d)) => Some(16 * n + d)
      case _ => None
  }

  lemma {:induction false} HexRoundTrip(n: nat, width: nat)
    requires n < Power(16, width)
    ensures ReadHex(Hex(n, width)) == Some(n) && IsBytes(Hex(n, width))
  {
    if width > 0 {
      HexRoundTrip(n / 16, width - 1);
      var s := Hex(n, width);
      assert s[..width - 1] == Hex(n / 16, width - 1);
    }
  }

  function Groups(h: string): string
    requires |h| == 32
  {
    h[..8] + "-" + h[8..12] + "-" + h[12..16] + "-" + h[16..20] + "-" + h[20..]
  }

  function FormatUUID(id: Id): string {
    Groups(Hex(id, 32))
  }

  function ParseUUID(s: string): Option<Id> {
    if |s| == 36 && s[8] == '-' && s[13] == '-' && s[18] == '-' && s[23] == '-'
    then ReadHex(s[..8] + s[9..13] + s[14..18] + s[19..23] + s[24..]) else None
  }

  /** Five groups joined by dashes come apart again. */
  lemma GroupsApart(a: string, b: string, c: string, d: string, e: string)
    requires |a| == 8 && |b| == 4 && |c| == 4 && |d| == 4 && |e| == 12
    ensures var s := a + "-" + b + "-" + c + "-" + d + "-" + e;
            && |s| == 36 && s[8] == '-' && s[13] == '-' && s[18] == '-' && s[23] == '-'
            && s[..8] == a && s[9..13] == b && s[14..18] == c && s[19..23] == d && s[24..] == e
  {
  }

  lemma GroupsParse(a: string, b: string, c: string, d: string, e: string)
    requires |a| == 8 && |b| == 4 && |c| == 4 && |d| == 4 && |e| == 12
    ensures ParseUUID(a + "-" + b + "-" + c + "-" + d + "-" + e) == ReadHex(a + b + c + d + e)
  {
    hide ReadHex;
    GroupsApart(a, b, c, d, e);
  }

  lemma GroupsBack(h: string)
    requires |h| == 32 && IsBytes(h)
    ensures ParseUUID(Groups(h)) == ReadHex(h) && IsBytes(Groups(h))
  {
    hide ReadHex, ParseUUID, IsBytes;
    var a, b, c, d, e := h[..8], h[8..12], h[12..16], h[16..20], h[20..];
    SlicesAreBytes(h);
    GroupsAreBytes(a, b, c, d, e);
    GroupsParse(a, b, c, d, e);
    assert a + b == h[..12];
    assert a + b + c == h[..16];
    assert a + b + c + d == h[..20];
    assert h[..20] + e == h;
  }

  lemma SlicesAreBytes(h: string)
    requires |h| == 32 && IsBytes(h)
    ensures IsBytes(h[..8]) && IsBytes(h[8..12]) && IsBytes(h[12..16]) && IsBytes(h[16..20]) && IsBytes(h[20..])
  {
  }

  lemma UUIDRoundTrip(id: Id)
    requires id < Power(16, 32)
    ensures ParseUUID(FormatUUID(id)) == Some(id) && IsBytes(FormatUUID(id))
  {
    hide Hex, ReadHex, Power, ParseUUID, Groups, IsBytes;
    HexRoundTrip(id, 32);
    GroupsBack(Hex(id, 32));
  }

  lemma GroupsAreBytes(a: string, b: string, c: string, d: string, e: string)
    requires IsBytes(a) && IsBytes(b) && IsBytes(c) && IsBytes(d) && IsBytes(e)
    ensures IsBytes(a + "-" + b + "-" + c + "-" + d + "-" + e)
  {
  }

  // ---- the calendar ----

  const SECOND_NANOS: int := 1_000_000_000
  const DAY_NANOS: int := 86_400_000_000_000

  /** Days from the first of January of year zero to the Unix epoch. */
  const EPOCH_DAY: int := 719_528

  predicate IsLeap(y: nat) {
    y % 4 == 0 && (y % 100 != 0 || y % 400 == 0)
  }

  function YearLength(y: nat): nat {
    if IsLeap(y) then 366 else 365
  }

  function DaysBefore(y: nat): nat {
    if y == 0 then 0 else DaysBefore(y - 1) + YearLength(y - 1)
  }

  function YearOf(days: nat, y: nat): (r: nat)
    requires DaysBefore(y) <= days
    ensures DaysBefore(r) <= days < DaysBefore(r) + YearLength(r)
    decreases days - DaysBefore(y)
  {
    if days < DaysBefore(y) + YearLength(y) then y
    else
      assert DaysBefore(y + 1) == DaysBefore(y) + YearLength(y);
      YearOf(days, y + 1)
  }

  function MonthLength(y: nat, m: nat): nat {
    if m == 2 then YearLength(y) - 337 else if m == 4 || m == 6 || m == 9 || m == 11 then 30 else 31
  }

  function DaysBeforeMonth(y: nat, m: nat): nat {
    if m <= 1 then 0 else DaysBeforeMonth(y, m - 1) + MonthLength(y, m - 1)
  }

  function MonthOf(y: nat, d: nat, m: nat): (r: nat)
    requires 1 <= m <= 12 && DaysBeforeMonth(y, m) <= d
    ensures m <= r <= 12 && DaysBeforeMonth(y, r) <= d && (r < 12 ==> d < DaysBeforeMonth(y, r + 1))
    decreases 12 - m
  {
    if m == 12 || d < DaysBeforeMonth(y, m + 1) then m else MonthOf(y, d, m + 1)
  }

  lemma YearHasTwelveMonths(y: nat)
    ensures DaysBeforeMonth(y, 12) + MonthLength(y, 12) == YearLength(y)
  {
    assert DaysBeforeMonth(y, 2) == 31;
    assert DaysBeforeMonth(y, 3) == YearLength(y) - 306;
    assert DaysBeforeMonth(y, 5) == YearLength(y) - 245;
    assert DaysBeforeMonth(y, 7) == YearLength(y) - 184;
    assert DaysBeforeMonth(y, 9) == YearLength(y) - 122;
    assert DaysBeforeMonth(y, 11) == YearLength(y) - 61;
  }

  datatype Stamp = Stamp(year: nat, month: nat, day: nat, hour: nat, minute: nat, second: nat, nanos: nat)

  predicate ValidStamp(s: Stamp) {
    && s.year < 10000 && 1 <= s.month <= 12 && 1 <= s.day <= MonthLength(s.year, s.month)
    && s.hour < 24 && s.minute < 60 && s.second < 60 && s.nanos < SECOND_NANOS
  }

  function TimeOf(s: Stamp): Time {
    var days := DaysBefore(s.year) + DaysBeforeMonth(s.year, s.month) + s.day - 1 - EPOCH_DAY;
    days * DAY_NANOS + (s.hour * 3600 + s.minute * 60 + s.second) * SECOND_NANOS + s.nanos
  }

  function SinceZero(t: Time): int {
    t + EPOCH_DAY * DAY_NANOS
  }

  /** Times in the years 0 to 9999, which RFC 3339 can write. */
  predicate InEra(t: Time) {
    SinceZero(t) >= 0 && YearOf(SinceZero(t) / DAY_NANOS, 0) < 10000
  }

  function ClockOf(days: nat, nanos: nat): Stamp
    requires nanos < DAY_NANOS
  {
    var year := YearOf(days, 0);
    var inYear := days - DaysBefore(year);
    var month := MonthOf(year, inYear, 1);
    var seconds := nanos / SECOND_NANOS;
    Stamp(year, month, inYear - DaysBeforeMonth(year, month) + 1,
          seconds / 3600, seconds / 60 % 60, seconds % 60, nanos % SECOND_NANOS)
  }

  function StampOf(t: Time): Stamp
    requires SinceZero(t) >= 0
  {
    ClockOf(SinceZero(t) / DAY_NANOS, SinceZero(t) % DAY_NANOS)
  }

  lemma ClockDate(days: nat, nanos: nat)
    requires nanos < DAY_NANOS
    ensures var s := ClockOf(days, nanos);
            && s.year == YearOf(days, 0) && 1 <= s.month <= 12 && 1 <= s.day <= MonthLength(s.year, s.month)
            && DaysBefore(s.year) + DaysBeforeMonth(s.year, s.month) + s.day - 1 == days
  {
    var year := YearOf(days, 0);
    MonthFits(year, days - DaysBefore(year));
    hide DaysBefore, DaysBeforeMonth, YearOf, MonthOf, MonthLength, YearLength;
  }

  lemma ClockTime(days: nat, nanos: nat)
    requires nanos < DAY_NANOS
    ensures var s := ClockOf(days, nanos);
            && s.hour < 24 && s.minute < 60 && s.second < 60 && s.nanos < SECOND_NANOS
            && (s.hour * 3600 + s.minute * 60 + s.second) * SECOND_NANOS + s.nanos == nanos
  {
    hide DaysBefore, DaysBeforeMonth, YearOf, MonthOf, MonthLength, YearLength;
    SecondsAddUp(nanos / SECOND_NANOS);
  }

  lemma ClockBack(days: nat, nanos: nat)
    requires nanos < DAY_NANOS && YearOf(days, 0) < 10000
    ensures ValidStamp(ClockOf(days, nanos))
    ensures TimeOf(ClockOf(days, nanos)) == (days - EPOCH_DAY) * DAY_NANOS + nanos
  {
    hide ClockOf, DaysBefore, DaysBeforeMonth, YearOf, MonthOf, MonthLength, YearLength;
    ClockDate(days, nanos);
    ClockTime(days, nanos);
  }

  lemma MonthFits(y: nat, d: nat)
    requires d < YearLength(y)
    ensures var m := MonthOf(y, d, 1); d - DaysBeforeMonth(y, m) < MonthLength(y, m)
  {
    YearHasTwelveMonths(y);
    var m := MonthOf(y, d, 1);
    if m < 12 {
      assert DaysBeforeMonth(y, m + 1) == DaysBeforeMonth(y, m) + MonthLength(y, m);
    }
  }

  lemma SecondsAddUp(n: nat)
    ensures n / 3600 * 3600 + n / 60 % 60 * 60 + n % 60 == n
    ensures n < 86_400 ==> n / 3600 < 24
  {
  }

  lemma StampBack(t: Time)
    requires InEra(t)
    ensures ValidStamp(StampOf(t)) && TimeOf(StampOf(t)) == t
  {
    hide TimeOf, ClockOf, YearOf, ValidStamp;
    var n := SinceZero(t);
    ClockBack(n / DAY_NANOS, n % DAY_NANOS);
  }

  // ---- timestamps (section 5.6 of RFC 3339) ----

  /** Decimal digits, padded with zeros to a width. */
  function Dec(n: nat, width: nat): (s: string)
    ensures |s| == width
  {
    if width == 0 then "" else Dec(n / 10, width - 1) + [DigitChar(n % 10)]
  }

  lemma {:induction false} DecRoundTrip(n: nat, width: nat)
    requires n < Power(10, width)
    ensures AllDigits(Dec(n, width)) && ValueOf(Dec(n, width)) == n
  {
    if width > 0 {
      DecRoundTrip(n / 10, width - 1);
      var s := Dec(n, width);
      assert s[..width - 1] == Dec(n / 10, width - 1);
    }
  }

  function Trim(s: string): string {
    if s != "" && s[|s| - 1] == '0' then Trim(s[..|s| - 1]) else s
  }

  lemma {:induction false} TrimBack(s: string)
    requires AllDigits(s)
    ensures |Trim(s)| <= |s| && AllDigits(Trim(s)) && (ValueOf(s) > 0 ==> Trim(s) != "")
    ensures ValueOf(s) == ValueOf(Trim(s)) * Power(10, |s| - |Trim(s)|)
  {
    if s != "" && s[|s| - 1] == '0' {
      var rest := s[..|s| - 1];
      TrimBack(rest);
      TenTimes(ValueOf(Trim(rest)), Power(10, |rest| - |Trim(rest)|));
    }
  }

  lemma TenTimes(a: nat, p: nat)
    ensures a * (10 * p) == 10 * (a * p)
  {
  }

  function Fraction(nanos: nat): string {
    if nanos == 0 then "" else "." + Trim(Dec(nanos, 9))
  }

  function ParseFraction(f: string): Option<nat> {
    if f == "" then Some(0)
    else if f[0] == '.' && 2 <= |f| <= 10 && AllDigits(f[1..]) then Some(ValueOf(f[1..]) * Power(10, 10 - |f|))
    else None
  }

  lemma FractionBack(nanos: nat)
    requires nanos < SECOND_NANOS
    ensures ParseFraction(Fraction(nanos)) == Some(nanos)
  {
    BillionIsPower();
    DecRoundTrip(nanos, 9);
    var d := Dec(nanos, 9);
    TrimBack(d);
    hide Dec, Trim, Power, ValueOf, AllDigits;
    if nanos > 0 {
      assert Fraction(nanos)[1..] == Trim(d);
    }
  }

  lemma BillionIsPower()
    ensures Power(10, 9) == SECOND_NANOS && Power(10, 4) == 10000 && Power(10, 2) == 100
  {
    assert Power(10, 3) == 1000;
    assert Power(10, 6) == 1_000_000;
  }

  function Date(s: Stamp): string {
    Dec(s.year, 4) + "-" + Dec(s.month, 2) + "-" + Dec(s.day, 2) + "T"
    + Dec(s.hour, 2) + ":" + Dec(s.minute, 2) + ":" + Dec(s.second, 2)
  }

  function FormatTime(t: Time): string {
    if SinceZero(t) < 0 then "" else Date(StampOf(t)) + Fraction(StampOf(t).nanos) + "Z"
  }

  predicate IsDate(s: string) {
    && |s| == 19 && s[4] == '-' && s[7] == '-' && s[10] == 'T' && s[13] == ':' && s[16] == ':'
    && AllDigits(s[..4]) && AllDigits(s[5..7]) && AllDigits(s[8..10])
    && AllDigits(s[11..13]) && AllDigits(s[14..16]) && AllDigits(s[17..])
  }

  function ReadDate(s: string, nanos: nat): Stamp
    requires IsDate(s)
  {
    Stamp(ValueOf(s[..4]), ValueOf(s[5..7]), ValueOf(s[8..10]),
          ValueOf(s[11..13]), ValueOf(s[14..16]), ValueOf(s[17..]), nanos)
  }

  /** Timestamps in UTC. */
  function ParseTime(s: string): Option<Time> {
    if |s| < 20 || s[|s| - 1] != 'Z' || !IsDate(s[..19]) then None
    else
      match ParseFraction(s[19..|s| - 1])
      case None => None
      case Some(nanos) =>
        var stamp := ReadDate(s[..19], nanos);
        if ValidStamp(stamp) then Some(TimeOf(stamp)) else None
  }

  /** The six numbers of a date come apart again. */
  lemma DateApart(a: string, b: string, c: string, d: string, e: string, f: string)
    requires |a| == 4 && |b| == 2 && |c| == 2 && |d| == 2 && |e| == 2 && |f| == 2
    ensures var s := a + "-" + b + "-" + c + "T" + d + ":" + e + ":" + f;
            && |s| == 19 && s[4] == '-' && s[7] == '-' && s[10] == 'T' && s[13] == ':' && s[16] == ':'
            && s[..4] == a && s[5..7] == b && s[8..10] == c && s[11..13] == d && s[14..16] == e && s[17..] == f
  {
    var s := a + "-" + b + "-" + c + "T" + d + ":" + e + ":" + f;
    assert s[..4] == a;
    assert s[5..7] == b;
    assert s[8..10] == c;
  }

  lemma DateBack(s: Stamp)
    requires ValidStamp(s)
    ensures IsDate(Date(s)) && ReadDate(Date(s), s.nanos) == s
  {
    BillionIsPower();
    DecRoundTrip(s.year, 4);
    DecRoundTrip(s.month, 2);
    DecRoundTrip(s.day, 2);
    DecRoundTrip(s.hour, 2);
    DecRoundTrip(s.minute, 2);
    DecRoundTrip(s.second, 2);
    hide Dec, Power, ValueOf, AllDigits;
    DateApart(Dec(s.year, 4), Dec(s.month, 2), Dec(s.day, 2), Dec(s.hour, 2), Dec(s.minute, 2), Dec(s.second, 2));
  }

  lemma TimeRoundTrip(t: Time)
    requires InEra(t)
    ensures ParseTime(FormatTime(t)) == Some(t)
  {
    hide TimeOf, StampOf, ValidStamp, Date, IsDate, ReadDate, Fraction, ParseFraction, YearOf;
    StampBack(t);
    var stamp := StampOf(t);
    DateBack(stamp);
    NanosBack(stamp);
    var s := FormatTime(t);
    DateIsNineteen(stamp);
    assert s[..19] == Date(stamp) && s[19..|s| - 1] == Fraction(stamp.nanos);
  }

  lemma NanosBack(s: Stamp)
    requires ValidStamp(s)
    ensures ParseFraction(Fraction(s.nanos)) == Some(s.nanos)
  {
    FractionBack(s.nanos);
  }

  lemma DateIsNineteen(s: Stamp)
    ensures |Date(s)| == 19
  {
  }

  // ---- the codec ----

  /** A character of a timestamp. */
  predicate IsPlain(c: char) {
    IsDigit(c) || c == '-' || c == ':' || c == '.' || c == 'T' || c == 'Z'
  }

  predicate Plain(s: string) {
    forall i :: 0 <= i < |s| ==> IsPlain(s[i])
  }

  lemma PlainJoined(a: string, b: string)
    requires Plain(a) && Plain(b)
    ensures Plain(a + b)
  {
  }

  lemma PlainIsSafe(s: string)
    requires Plain(s)
    ensures '|' !in s && IsBytes(s)
  {
  }

  /** A date is the six numbers and five separators. */
  lemma DatePlain(s: string)
    requires IsDate(s)
    ensures Plain(s)
  {
    assert s == s[..4] + [s[4]] + s[5..7] + [s[7]] + s[8..10] + [s[10]]
                + s[11..13] + [s[13]] + s[14..16] + [s[16]] + s[17..];
  }

  lemma FractionPlain(nanos: nat)
    requires nanos < SECOND_NANOS
    ensures Plain(Fraction(nanos))
  {
    BillionIsPower();
    DecRoundTrip(nanos, 9);
    TrimBack(Dec(nanos, 9));
    hide Dec, Trim, Power, ValueOf;
  }

  lemma TimePlain(t: Time)
    requires InEra(t)
    ensures '|' !in FormatTime(t) && IsBytes(FormatTime(t))
  {
    hide TimeOf, StampOf, Date, IsDate, ReadDate, Fraction, YearOf, Plain, IsBytes;
    StampBack(t);
    var stamp := StampOf(t);
    DateBack(stamp);
    DatePlain(Date(stamp));
    FractionPlain(stamp.nanos);
    PlainJoined(Date(stamp), Fraction(stamp.nanos));
    PlainIsZ();
    PlainJoined(Date(stamp) + Fraction(stamp.nanos), "Z");
    PlainIsSafe(FormatTime(t));
  }

  lemma PlainIsZ()
    ensures Plain("Z")
  {
  }

  function GoCodec(): Codec {
    Codec(InEra, FormatTime, ParseTime, (id: Id) => id < Power(16, 32), FormatUUID, ParseUUID, Encode64, Decode64)
  }

  /** The formats the repository is given are lawful, so a cursor of four-digit years and UUIDs comes back. */
  lemma GoCodecIsLawful()
    ensures GoCodec().Lawful()
    ensures forall k: Key :: InEra(k.0) && 0 <= k.1 < Power(16, 32) ==>
              DecodeCursor(GoCodec(), EncodeCursor(GoCodec(), k)) == Ok(k)
  {
    hide InEra, FormatTime, ParseTime, FormatUUID, ParseUUID, Encode64, Decode64, Power, IsBytes;
    forall t: Time | InEra(t)
      ensures ParseTime(FormatTime(t)) == Some(t) && '|' !in FormatTime(t) && IsBytes(FormatTime(t))
    {
      TimeRoundTrip(t);
      TimePlain(t);
    }
    forall id: Id | id < Power(16, 32)
      ensures ParseUUID(FormatUUID(id)) == Some(id) && IsBytes(FormatUUID(id))
    {
      UUIDRoundTrip(id);
    }
    forall s: string | IsBytes(s)
      ensures Decode64(Encode64(s)) == Some(s) && (s != "" ==> Encode64(s) != "")
    {
      Base64RoundTrip(s);
    }
    forall k: Key | InEra(k.0) && 0 <= k.1 < Power(16, 32)
      ensures DecodeCursor(GoCodec(), EncodeCursor(GoCodec(), k)) == Ok(k)
    {
      CursorRoundTrip(GoCodec(), k);
    }
  }
}
