/** Release versions `YYYY.MM.DD.N`: the printer, the parser and the successor. */
module CalVer {
  import opened Vocabulary

  datatype Date = Date(year: nat, month: nat, day: nat)

  predicate IsLeap(year: nat) {
    year % 4 == 0 && (year % 100 != 0 || year % 400 == 0)
  }

  function DaysIn(year: nat, month: nat): nat {
    if month == 2 then (if IsLeap(year) then 29 else 28)
    else if month == 4 || month == 6 || month == 9 || month == 11 then 30
    else 31
  }

  predicate IsDate(d: Date) {
    1 <= d.year <= 9999 && 1 <= d.month <= 12 && 1 <= d.day <= DaysIn(d.year, d.month)
  }

  // ----------------------------------------------------------------- numerals

  predicate IsDigit(c: char) {
    '0' <= c <= '9'
  }

  predicate AllDigits(s: string) {
    forall i :: 0 <= i < |s| ==> IsDigit(s[i])
  }

  function Digit(n: nat): char
    requires n < 10
  {
    '0' + n as char
  }

  function Decimal(n: nat): string {
    if n < 10 then [Digit(n)] else Decimal(n / 10) + [Digit(n % 10)]
  }

  function Number(s: string): nat
    requires AllDigits(s)
  {
    if s == "" then 0 else Number(s[..|s| - 1]) * 10 + (s[|s| - 1] - '0') as nat
  }

  lemma {:induction false} DecimalReads(n: nat)
    ensures AllDigits(Decimal(n)) && Number(Decimal(n)) == n
    ensures n > 0 ==> Decimal(n)[0] != '0'
  {
    var s := Decimal(n);
    if n >= 10 {
      DecimalReads(n / 10);
      assert s[..|s| - 1] == Decimal(n / 10);
    } else {
      assert s[..|s| - 1] == "";
    }
  }

  /** Zero-padded to two digits. */
  function TwoDigits(n: nat): string
    requires n < 100
  {
    [Digit(n / 10), Digit(n % 10)]
  }

  lemma TwoDigitsRead(n: nat)
    requires n < 100
    ensures AllDigits(TwoDigits(n)) && Number(TwoDigits(n)) == n
  {
    var s := TwoDigits(n);
    assert s[..1] == [Digit(n / 10)];
    assert Number(s[..1]) == n / 10 by {
      assert s[..1][..0] == "";
    }
  }

  lemma FourDigits(n: nat)
    requires 1000 <= n <= 9999
    ensures |Decimal(n)| == 4
  {
    var a, b, c := n / 10, n / 10 / 10, n / 10 / 10 / 10;
    assert |Decimal(c)| == 1;
    assert |Decimal(b)| == 2;
    assert |Decimal(a)| == 3;
  }

  // ---------------------------------------------------------------- versions

  /** The date part: four, two and two digits between dots. */
  predicate HasDateShape(s: string) {
    |s| >= 10 && AllDigits(s[..4]) && s[4] == '.' && AllDigits(s[5..7]) && s[7] == '.' && AllDigits(s[8..10])
  }

  /** The optional sequence: a dot and a numeral that does not start with a zero. */
  predicate HasSequenceShape(s: string) {
    |s| >= 12 && s[10] == '.' && s[11] != '0' && AllDigits(s[11..])
  }

  function DatePart(s: string): Date
    requires HasDateShape(s)
  {
    Date(Number(s[..4]), Number(s[5..7]), Number(s[8..10]))
  }

  /** `parse_calver`; `None` is its `ValueError`. */
  function ParseCalver(s: string): Option<(Date, nat)> {
    if !HasDateShape(s) || !IsDate(DatePart(s)) then None
    else if |s| == 10 then Some((DatePart(s), 0))
    else if HasSequenceShape(s) then Some((DatePart(s), Number(s[11..])))
    else None
  }

  /** `{date:%Y.%m.%d}.{sequence}`, for years that print with four digits. */
  function Print(d: Date, sequence: nat): string
    requires IsDate(d)
  {
    Decimal(d.year) + "." + TwoDigits(d.month) + "." + TwoDigits(d.day) + "." + Decimal(sequence)
  }

  predicate Printable(d: Date) {
    IsDate(d) && d.year >= 1000
  }

  /** Parsing what was printed gives back the date and the sequence. */
  lemma PrintParses(d: Date, n: nat)
    requires Printable(d) && n >= 1
    ensures ParseCalver(Print(d, n)) == Some((d, n))
  {
    var s := Print(d, n);
    FourDigits(d.year);
    DecimalReads(d.year);
    TwoDigitsRead(d.month);
    TwoDigitsRead(d.day);
    DecimalReads(n);
    assert s[..4] == Decimal(d.year) && s[4] == '.';
    assert s[5..7] == TwoDigits(d.month) && s[7] == '.';
    assert s[8..10] == TwoDigits(d.day) && s[10] == '.';
    assert s[11..] == Decimal(n);
    assert s[11] == Decimal(n)[0];
  }

  /** The text is a version: four, two and two digits between dots, and possibly a dot and
      a numeral that does not start with a zero. */
  ghost predicate IsVersion(s: string, y: string, m: string, d: string, q: Option<string>) {
    && |y| == 4 && |m| == 2 && |d| == 2 && AllDigits(y) && AllDigits(m) && AllDigits(d)
    && match q
       case None => s == y + "." + m + "." + d
       case Some(n) => n != "" && n[0] != '0' && AllDigits(n) && s == y + "." + m + "." + d + "." + n
  }

  /** Parsing reads the parts of a version whose date exists, a missing sequence as zero,
      and nothing else. */
  lemma ParseMeans(s: string, date: Date, n: nat)
    ensures ParseCalver(s) == Some((date, n)) <==>
      exists y, m, d, q :: IsVersion(s, y, m, d, q) && date == Date(Number(y), Number(m), Number(d)) && IsDate(date) &&
                           n == if q.Some? then Number(q.value) else 0
  {
    hide IsDate, Number;
    if ParseCalver(s) == Some((date, n)) {
      var q := if |s| == 10 then None else Some(s[11..]);
      assert s == s[..4] + "." + s[5..7] + "." + s[8..10] + if |s| == 10 then "" else "." + s[11..];
      assert IsVersion(s, s[..4], s[5..7], s[8..10], q);
    }
    forall y, m, d, q | IsVersion(s, y, m, d, q) && date == Date(Number(y), Number(m), Number(d)) && IsDate(date) &&
                        n == if q.Some? then Number(q.value) else 0
      ensures ParseCalver(s) == Some((date, n))
    {
      VersionParts(s, y, m, d, q);
    }
  }

  lemma VersionParts(s: string, y: string, m: string, d: string, q: Option<string>)
    requires IsVersion(s, y, m, d, q)
    ensures HasDateShape(s) && s[..4] == y && s[5..7] == m && s[8..10] == d
    ensures if q.None? then |s| == 10 else HasSequenceShape(s) && s[11..] == q.value
  {
    assert s[..4] == y && s[5..7] == m && s[8..10] == d;
    if q.Some? {
      assert s[11..] == q.value;
    }
  }

  // --------------------------------------------------------------- successor

  function Bare(tag: string, prefix: string): string {
    if prefix != "" && prefix <= tag then tag[|prefix|..] else tag
  }

  /** Tag `tag` is a release of date `d` with the given sequence. */
  predicate IsRelease(tag: string, prefix: string, d: Date, sequence: nat) {
    ParseCalver(Bare(tag, prefix)) == Some((d, sequence))
  }

  /** `m` is the largest sequence among the releases of date `d`, or 0 if there is none. */
  ghost predicate IsLatest(existing: seq<string>, prefix: string, d: Date, m: nat) {
    && (forall i, n: nat :: 0 <= i < |existing| && IsRelease(existing[i], prefix, d, n) ==> n <= m)
    && (m > 0 ==> exists i :: 0 <= i < |existing| && IsRelease(existing[i], prefix, d, m))
  }

  /** `next` is the version that follows the latest release of date `d`, number `m`. */
  ghost predicate IsNext(existing: seq<string>, prefix: string, d: Date, next: string, m: nat)
    requires IsDate(d)
  {
    IsLatest(existing, prefix, d, m) && next == Print(d, m + 1)
  }

  function Largest(sequences: seq<nat>): nat {
    if sequences == [] then 0 else Max(Largest(sequences[..|sequences| - 1]), sequences[|sequences| - 1])
  }

  /** `next_calver`. */
  method NextCalver(existing: seq<string>, date: Date, prefix: string) returns (next: string)
    requires IsDate(date)
    ensures exists m: nat :: IsNext(existing, prefix, date, next, m)
    ensures Printable(date) ==> prefix + next !in existing
  {
    hide IsLatest, IsRelease, IsNext, ParseCalver, Print, Printable, Bare;
    var sequences: seq<nat> := [];
    NoneLatest(prefix, date);
    for i := 0 to |existing|
      invariant IsLatest(existing[..i], prefix, date, Largest(sequences))
    {
      var bare := if prefix != "" && prefix <= existing[i] then existing[i][|prefix|..] else existing[i];
      var parsed := ParseCalver(bare);
      Absorbed(existing, prefix, date, i, Largest(sequences), bare);
      if parsed.Some? && parsed.value.0 == date {
        LargestNext(sequences, parsed.value.1);
        sequences := sequences + [parsed.value.1];
      }
    }
    assert existing[..|existing|] == existing;
    next := Print(date, Largest(sequences) + 1);
    ghost var largest := Largest(sequences);
    Named(existing, prefix, date, next, largest);
    if Printable(date) {
      NextIsFresh(existing, prefix, date, largest);
    }
  }

  lemma NoneLatest(prefix: string, d: Date)
    ensures IsLatest([], prefix, d, 0)
  {
  }

  lemma LargestNext(sequences: seq<nat>, n: nat)
    ensures Largest(sequences + [n]) == Max(Largest(sequences), n)
  {
    assert (sequences + [n])[..|sequences|] == sequences;
  }

  lemma Named(existing: seq<string>, prefix: string, d: Date, next: string, m: nat)
    requires IsDate(d) && IsLatest(existing, prefix, d, m) && next == Print(d, m + 1)
    ensures IsNext(existing, prefix, d, next, m)
  {
    hide IsLatest, Print;
  }

  /** What one more tag makes of the largest sequence. */
  lemma Absorbed(existing: seq<string>, prefix: string, d: Date, i: nat, m: nat, bare: string)
    requires i < |existing| && IsLatest(existing[..i], prefix, d, m)
    requires bare == if prefix != "" && prefix <= existing[i] then existing[i][|prefix|..] else existing[i]
    ensures var parsed := ParseCalver(bare);
      IsLatest(existing[..i + 1], prefix, d, if parsed.Some? && parsed.value.0 == d then Max(m, parsed.value.1) else m)
  {
    hide IsLatest, ParseCalver;
    var parsed := ParseCalver(bare);
    assert bare == Bare(existing[i], prefix);
    if parsed.Some? && parsed.value.0 == d {
      assert IsRelease(existing[i], prefix, d, parsed.value.1);
      Extend(existing, prefix, d, i, m, Max(m, parsed.value.1));
    } else {
      Extend(existing, prefix, d, i, m, m);
    }
  }

  lemma Extend(existing: seq<string>, prefix: string, d: Date, i: nat, m: nat, m': nat)
    requires i < |existing| && IsLatest(existing[..i], prefix, d, m)
    requires m' == m || IsRelease(existing[i], prefix, d, m')
    requires m <= m' && forall n: nat :: IsRelease(existing[i], prefix, d, n) ==> n <= m'
    ensures IsLatest(existing[..i + 1], prefix, d, m')
  {
    var longer := existing[..i + 1];
    if m' > 0 {
      if m' == m {
        var k :| 0 <= k < i && IsRelease(existing[..i][k], prefix, d, m);
        assert IsRelease(longer[k], prefix, d, m');
      } else {
        assert IsRelease(longer[i], prefix, d, m');
      }
    }
    forall k, n: nat | 0 <= k < |longer| && IsRelease(longer[k], prefix, d, n) ensures n <= m' {
      if k < i {
        assert IsRelease(existing[..i][k], prefix, d, n);
      }
    }
  }

  /** The next version reads back as the same date with a sequence above every existing
      one of that date. */
  lemma NextIsNewest(existing: seq<string>, prefix: string, d: Date, m: nat)
    requires Printable(d) && IsLatest(existing, prefix, d, m)
    ensures ParseCalver(Print(d, m + 1)) == Some((d, m + 1))
    ensures forall i, n: nat :: 0 <= i < |existing| && IsRelease(existing[i], prefix, d, n) ==> n < m + 1
  {
    PrintParses(d, m + 1);
  }

  /** The next version is never tagged yet, whatever the tags and the prefix. */
  lemma NextIsFresh(existing: seq<string>, prefix: string, d: Date, m: nat)
    requires Printable(d) && IsLatest(existing, prefix, d, m)
    ensures prefix + Print(d, m + 1) !in existing
  {
    PrintParses(d, m + 1);
    var tag := prefix + Print(d, m + 1);
    if tag in existing {
      var i :| 0 <= i < |existing| && existing[i] == tag;
      assert tag[|prefix|..] == Print(d, m + 1);
      assert IsRelease(existing[i], prefix, d, m + 1);
    }
  }
}
