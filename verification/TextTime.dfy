/**
  Timestamps as text.

  The queue, delivery and audit tables hold UTC datetimes as ISO strings, and SQLite
  compares those strings, never the datetimes.  The queue and delivery tables use plain
  `isoformat()`, which leaves out a zero fraction and so has two widths; the audit table
  always prints six fraction digits.  This module shows that for both printers the text
  comparison decides the comparison of the instants.
  */
module TextTime {

  datatype Stamp = Stamp(year: nat, month: nat, day: nat, hour: nat, minute: nat, second: nat, micro: nat)
  {
    predicate Valid() {
      && 1 <= year <= 9999 && 1 <= month <= 12 && 1 <= day <= DaysInMonth(year, month)
      && hour < 24 && minute < 60 && second < 60 && micro < 1_000_000
    }
  }

  // ---------- The proleptic Gregorian calendar, as datetime counts it ----------

  predicate Leap(y: nat) {
    y % 4 == 0 && (y % 100 != 0 || y % 400 == 0)
  }

  function DaysInMonth(y: nat, m: nat): nat {
    if m == 2 then (if Leap(y) then 29 else 28)
    else if m == 4 || m == 6 || m == 9 || m == 11 then 30
    else 31
  }

  function DaysBeforeMonth(y: nat, m: nat): nat {
    if m <= 1 then 0 else DaysBeforeMonth(y, m - 1) + DaysInMonth(y, m - 1)
  }

  function DaysBeforeYear(y: nat): int {
    if y == 0 then 0 else var p := y - 1; p * 365 + p / 4 - p / 100 + p / 400
  }

  function Ordinal(s: Stamp): int {
    DaysBeforeYear(s.year) + DaysBeforeMonth(s.year, s.month) + s.day
  }

  const SECOND := 1_000_000

  /** Microseconds on one time line: the quantity that timedelta arithmetic works on. */
  function Micros(s: Stamp): int {
    (((Ordinal(s) * 24 + s.hour) * 60 + s.minute) * 60 + s.second) * SECOND + s.micro
  }

  // ---------- Printing ----------

  function Digit(d: nat): char
    requires d < 10
  {
    '0' + d as char
  }

  /** The last `width` decimal digits of `n`, zero padded. */
  function Digits(n: nat, width: nat): (r: string)
    ensures |r| == width
  {
    if width == 0 then "" else Digits(n / 10, width - 1) + [Digit(n % 10)]
  }

  /** A printed number with the separator that follows it. */
  datatype Field = Field(value: nat, width: nat, after: string)

  function Render(fields: seq<Field>): string {
    if fields == [] then "" else
      Digits(fields[0].value, fields[0].width) + fields[0].after + Render(fields[1..])
  }

  function DateFields(s: Stamp): seq<Field> {
    [Field(s.year, 4, "-"), Field(s.month, 2, "-"), Field(s.day, 2, "T"),
     Field(s.hour, 2, ":"), Field(s.minute, 2, ":"), Field(s.second, 2, "")]
  }

  /** `isoformat()`: no fraction when the microseconds are zero. */
  function Iso(s: Stamp): string {
    Render(DateFields(s)) + (if s.micro == 0 then "" else "." + Digits(s.micro, 6)) + "+00:00"
  }

  /** `isoformat(timespec="microseconds")`. */
  function IsoMicro(s: Stamp): string {
    Render(DateFields(s)) + "." + Digits(s.micro, 6) + "+00:00"
  }

  // ---------- SQLite's order on text ----------

  predicate TextLess(a: string, b: string) {
    b != "" && (a == "" || a[0] < b[0] || (a[0] == b[0] && TextLess(a[1..], b[1..])))
  }

  predicate TextAtMost(a: string, b: string) {
    a == b || TextLess(a, b)
  }

  lemma {:induction false} TextLessIrreflexive(a: string)
    ensures !TextLess(a, a)
  {
    if a != "" {
      TextLessIrreflexive(a[1..]);
    }
  }

  /** Texts that open with equally long parts compare by those parts first. */
  lemma {:induction false} TextLessByPrefix(p: string, q: string, x: string, y: string)
    requires |p| == |q|
    ensures TextLess(p + x, q + y) <==> TextLess(p, q) || (p == q && TextLess(x, y))
    ensures p + x == q + y <==> p == q && x == y
  {
    if p == "" {
      assert p + x == x && q + y == y;
    } else {
      assert (p + x)[1..] == p[1..] + x && (q + y)[1..] == q[1..] + y;
      assert p == [p[0]] + p[1..] && q == [q[0]] + q[1..];
      assert p + x == [p[0]] + (p[1..] + x) && q + y == [q[0]] + (q[1..] + y);
      TextLessByPrefix(p[1..], q[1..], x, y);
    }
  }

  function Pow10(w: nat): nat {
    if w == 0 then 1 else 10 * Pow10(w - 1)
  }

  lemma {:induction false} DigitsOrder(n: nat, m: nat, w: nat)
    requires n < Pow10(w) && m < Pow10(w)
    ensures TextLess(Digits(n, w), Digits(m, w)) <==> n < m
    ensures Digits(n, w) == Digits(m, w) <==> n == m
  {
    if w > 0 {
      DigitsOrder(n / 10, m / 10, w - 1);
      TextLessByPrefix(Digits(n / 10, w - 1), Digits(m / 10, w - 1), [Digit(n % 10)], [Digit(m % 10)]);
    }
  }

  ghost predicate SameLayout(f: seq<Field>, g: seq<Field>) {
    && |f| == |g|
    && forall i :: 0 <= i < |f| ==>
         && f[i].width == g[i].width && f[i].after == g[i].after
         && f[i].value < Pow10(f[i].width) && g[i].value < Pow10(g[i].width)
  }

  predicate FieldsLess(f: seq<Field>, g: seq<Field>)
    requires |f| == |g|
  {
    f != [] && (f[0].value < g[0].value || (f[0].value == g[0].value && FieldsLess(f[1..], g[1..])))
  }

  lemma FieldOrder(f: Field, g: Field, x: string, y: string)
    requires f.width == g.width && f.after == g.after && f.value < Pow10(f.width) && g.value < Pow10(g.width)
    ensures TextLess(Digits(f.value, f.width) + (f.after + x), Digits(g.value, g.width) + (g.after + y))
      <==> f.value < g.value || (f.value == g.value && TextLess(x, y))
    ensures Digits(f.value, f.width) + (f.after + x) == Digits(g.value, g.width) + (g.after + y)
      <==> f.value == g.value && x == y
  {
    TextLessByPrefix(f.after, g.after, x, y);
    TextLessIrreflexive(f.after);
    TextLessByPrefix(Digits(f.value, f.width), Digits(g.value, g.width), f.after + x, g.after + y);
    DigitsOrder(f.value, g.value, f.width);
  }

  lemma RenderSplits(f: seq<Field>, x: string)
    requires f != []
    ensures Render(f) + x == Digits(f[0].value, f[0].width) + (f[0].after + (Render(f[1..]) + x))
  {}

  lemma SameFields(f: seq<Field>, g: seq<Field>)
    requires SameLayout(f, g) && f != []
    ensures SameLayout(f[1..], g[1..])
    ensures f == g <==> f[0].value == g[0].value && f[1..] == g[1..]
  {
    assert f == [f[0]] + f[1..] && g == [g[0]] + g[1..];
  }

  lemma {:induction false} RenderOrder(f: seq<Field>, g: seq<Field>, x: string, y: string)
    requires SameLayout(f, g)
    ensures TextLess(Render(f) + x, Render(g) + y) <==> FieldsLess(f, g) || (f == g && TextLess(x, y))
    ensures Render(f) + x == Render(g) + y <==> f == g && x == y
  {
    if f == [] {
      assert Render(f) + x == x && Render(g) + y == y;
    } else {
      RenderSplits(f, x);
      RenderSplits(g, y);
      FieldOrder(f[0], g[0], Render(f[1..]) + x, Render(g[1..]) + y);
      RenderOrder(f[1..], g[1..], x, y);
      SameFields(f, g);
    }
  }

  // ---------- Chronological order ----------

  predicate Before(a: Stamp, b: Stamp) {
    FieldsLess(DateFields(a), DateFields(b)) || (DateFields(a) == DateFields(b) && a.micro < b.micro)
  }

  lemma FieldsLessMeaning(a: Stamp, b: Stamp)
    ensures FieldsLess(DateFields(a), DateFields(b)) <==>
      || a.year < b.year
      || (a.year == b.year && (a.month < b.month
      || (a.month == b.month && (a.day < b.day
      || (a.day == b.day && (a.hour < b.hour
      || (a.hour == b.hour && (a.minute < b.minute
      || (a.minute == b.minute && a.second < b.second)))))))))
  {
    var f, g := DateFields(a), DateFields(b);
    assert f[0..] == f && g[0..] == g;
    FieldsLessFrom(f, g, 0);
    FieldsLessFrom(f, g, 1);
    FieldsLessFrom(f, g, 2);
    FieldsLessFrom(f, g, 3);
    FieldsLessFrom(f, g, 4);
    FieldsLessFrom(f, g, 5);
    assert f[6..] == [] == g[6..];
  }

  lemma FieldsLessFrom(f: seq<Field>, g: seq<Field>, i: nat)
    requires i < |f| == |g|
    ensures FieldsLess(f[i..], g[i..]) <==>
      f[i].value < g[i].value || (f[i].value == g[i].value && FieldsLess(f[i + 1..], g[i + 1..]))
  {
    assert f[i..][1..] == f[i + 1..] && g[i..][1..] == g[i + 1..];
  }

  lemma NextQuotient(y: nat, k: nat)
    requires 1 <= y && 1 <= k
    ensures y / k == (y - 1) / k + (if y % k == 0 then 1 else 0)
  {
    var q, r := (y - 1) / k, (y - 1) % k;
    assert y - 1 == k * q + r;
    if r + 1 == k {
      assert y == k * (q + 1) + 0;
      DivisionIs(y, k, q + 1, 0);
    } else {
      DivisionIs(y, k, q, r + 1);
    }
  }

  lemma DivisionIs(y: nat, k: nat, q: nat, r: nat)
    requires r < k && y == k * q + r
    ensures y / k == q && y % k == r
  {
    ProductGrows(k, y / k, q);
    ProductGrows(k, q, y / k);
  }

  lemma {:induction false} ProductGrows(k: nat, p: nat, q: nat)
    ensures p < q ==> k * p + k <= k * q
    decreases q
  {
    if p < q {
      assert k * q == k * (q - 1) + k;
      ProductGrows(k, p, q - 1);
    }
  }

  lemma LeapYearsNest(y: nat)
    ensures y % 400 == 0 ==> y % 100 == 0
    ensures y % 100 == 0 ==> y % 4 == 0
  {
    if y % 100 == 0 {
      DivisionIs(y, 4, 25 * (y / 100), 0);
    }
    if y % 400 == 0 {
      DivisionIs(y, 100, 4 * (y / 400), 0);
    }
  }

  lemma YearLength(y: nat)
    requires 1 <= y
    ensures DaysBeforeYear(y + 1) == DaysBeforeYear(y) + (if Leap(y) then 366 else 365)
  {
    NextQuotient(y, 4);
    NextQuotient(y, 100);
    NextQuotient(y, 400);
    LeapYearsNest(y);
  }

  lemma {:induction false} YearsGrow(y: nat, z: nat)
    requires 1 <= y < z
    ensures DaysBeforeYear(y) + (if Leap(y) then 366 else 365) <= DaysBeforeYear(z)
    decreases z
  {
    YearLength(z - 1);
    if y < z - 1 {
      YearsGrow(y, z - 1);
    } else {
      assert z - 1 == y;
    }
  }

  lemma {:induction false} MonthsGrow(y: nat, m: nat, n: nat)
    requires 1 <= m < n
    ensures DaysBeforeMonth(y, m) + DaysInMonth(y, m) <= DaysBeforeMonth(y, n)
  {
    if m < n - 1 {
      MonthsGrow(y, m, n - 1);
    }
  }

  lemma DayOfYear(s: Stamp)
    requires s.Valid()
    ensures 1 <= DaysBeforeMonth(s.year, s.month) + s.day <= (if Leap(s.year) then 366 else 365)
  {
    if s.month < 12 {
      MonthsGrow(s.year, s.month, 12);
    }
    var y := s.year;
    assert DaysBeforeMonth(y, 4) == DaysBeforeMonth(y, 3) + 31;
    assert DaysBeforeMonth(y, 3) == DaysBeforeMonth(y, 2) + DaysInMonth(y, 2);
    assert DaysBeforeMonth(y, 6) == DaysBeforeMonth(y, 5) + 31 == DaysBeforeMonth(y, 4) + 61;
    assert DaysBeforeMonth(y, 8) == DaysBeforeMonth(y, 7) + 31 == DaysBeforeMonth(y, 6) + 61;
    assert DaysBeforeMonth(y, 10) == DaysBeforeMonth(y, 9) + 30 == DaysBeforeMonth(y, 8) + 61;
    assert DaysBeforeMonth(y, 12) == DaysBeforeMonth(y, 11) + 30 == DaysBeforeMonth(y, 10) + 61;
  }

  lemma OrdinalGrows(a: Stamp, b: Stamp)
    requires a.Valid() && b.Valid()
    requires a.year < b.year || (a.year == b.year && (a.month < b.month || (a.month == b.month && a.day < b.day)))
    ensures Ordinal(a) < Ordinal(b)
  {
    DayOfYear(a);
    DayOfYear(b);
    if a.year < b.year {
      YearsGrow(a.year, b.year);
    } else if a.month < b.month {
      MonthsGrow(a.year, a.month, b.month);
    }
  }

  lemma MicrosGrow(a: Stamp, b: Stamp)
    requires a.Valid() && b.Valid() && Before(a, b)
    ensures Micros(a) < Micros(b)
  {
    FieldsLessMeaning(a, b);
    if a.year == b.year && a.month == b.month && a.day == b.day {
    } else {
      OrdinalGrows(a, b);
    }
  }

  lemma BeforeIsTotal(a: Stamp, b: Stamp)
    ensures Before(a, b) || a == b || Before(b, a)
  {
    FieldsLessMeaning(a, b);
    FieldsLessMeaning(b, a);
  }

  /** The order of fields is the order of instants, and an instant has one stamp. */
  lemma BeforeIsMicros(a: Stamp, b: Stamp)
    requires a.Valid() && b.Valid()
    ensures Before(a, b) <==> Micros(a) < Micros(b)
    ensures a == b <==> Micros(a) == Micros(b)
  {
    BeforeIsTotal(a, b);
    if Before(a, b) {
      MicrosGrow(a, b);
    }
    if Before(b, a) {
      MicrosGrow(b, a);
    }
  }

  // ---------- The two printers ----------

  lemma ValidFieldsFit(a: Stamp, b: Stamp)
    requires a.Valid() && b.Valid()
    ensures SameLayout(DateFields(a), DateFields(b))
    ensures a.micro < Pow10(6) && b.micro < Pow10(6)
    ensures DateFields(a) == DateFields(b) && a.micro == b.micro <==> a == b
  {
    assert Pow10(2) == 100 by { assert Pow10(1) == 10; }
    assert Pow10(4) == 10_000 by { assert Pow10(3) == 1_000; }
    assert Pow10(6) == 1_000_000 by { assert Pow10(5) == 100_000; }
    assert DateFields(a) == DateFields(b) ==>
      forall i :: 0 <= i < 6 ==> DateFields(a)[i].value == DateFields(b)[i].value;
    assert DateFields(a) == DateFields(b) ==>
      DateFields(a)[0].value == DateFields(b)[0].value && DateFields(a)[1].value == DateFields(b)[1].value
      && DateFields(a)[2].value == DateFields(b)[2].value && DateFields(a)[3].value == DateFields(b)[3].value
      && DateFields(a)[4].value == DateFields(b)[4].value && DateFields(a)[5].value == DateFields(b)[5].value;
  }

  function Tail(micro: nat): string {
    (if micro == 0 then "" else "." + Digits(micro, 6)) + "+00:00"
  }

  /** "+" sorts below "." , so a missing fraction sorts below every fraction. */
  lemma TailOrder(m: nat, n: nat)
    requires m < Pow10(6) && n < Pow10(6)
    ensures TextLess(Tail(m), Tail(n)) <==> m < n
    ensures Tail(m) == Tail(n) <==> m == n
  {
    DigitsOrder(m, n, 6);
    TextLessIrreflexive("+00:00");
    var zero := "+00:00";
    if m != 0 && n != 0 {
      TextLessByPrefix("." + Digits(m, 6), "." + Digits(n, 6), zero, zero);
      TextLessByPrefix(".", ".", Digits(m, 6), Digits(n, 6));
      TextLessIrreflexive(".");
    } else if m == 0 && n == 0 {
      assert Tail(m) == zero == Tail(n);
    } else if m == 0 {
      assert Tail(m) == zero && Tail(m)[0] == '+' && Tail(n)[0] == '.';
    } else {
      assert Tail(n) == zero && Tail(n)[0] == '+' && Tail(m)[0] == '.';
    }
  }

  /** Text order of `isoformat()` is chronological order, although its width varies. */
  lemma IsoOrder(a: Stamp, b: Stamp)
    requires a.Valid() && b.Valid()
    ensures TextLess(Iso(a), Iso(b)) <==> Micros(a) < Micros(b)
    ensures Iso(a) == Iso(b) <==> Micros(a) == Micros(b)
    ensures TextAtMost(Iso(a), Iso(b)) <==> Micros(a) <= Micros(b)
  {
    ValidFieldsFit(a, b);
    assert Iso(a) == Render(DateFields(a)) + Tail(a.micro);
    assert Iso(b) == Render(DateFields(b)) + Tail(b.micro);
    RenderOrder(DateFields(a), DateFields(b), Tail(a.micro), Tail(b.micro));
    TailOrder(a.micro, b.micro);
    BeforeIsMicros(a, b);
  }

  /** The same for the fixed-width form that the audit table stores. */
  lemma IsoMicroOrder(a: Stamp, b: Stamp)
    requires a.Valid() && b.Valid()
    ensures TextLess(IsoMicro(a), IsoMicro(b)) <==> Micros(a) < Micros(b)
    ensures IsoMicro(a) == IsoMicro(b) <==> Micros(a) == Micros(b)
    ensures TextAtMost(IsoMicro(a), IsoMicro(b)) <==> Micros(a) <= Micros(b)
  {
    ValidFieldsFit(a, b);
    var x, y := Digits(a.micro, 6) + "+00:00", Digits(b.micro, 6) + "+00:00";
    assert IsoMicro(a) == Render(DateFields(a)) + ("." + x);
    assert IsoMicro(b) == Render(DateFields(b)) + ("." + y);
    RenderOrder(DateFields(a), DateFields(b), "." + x, "." + y);
    TextLessByPrefix(".", ".", x, y);
    TextLessIrreflexive(".");
    TextLessByPrefix(Digits(a.micro, 6), Digits(b.micro, 6), "+00:00", "+00:00");
    TextLessIrreflexive("+00:00");
    DigitsOrder(a.micro, b.micro, 6);
    BeforeIsMicros(a, b);
  }

  /** The two forms must not be mixed in one column: an instant with a zero fraction has a
      plain form that sorts strictly below its padded form. */
  lemma MixedFormsDisagree(s: Stamp)
    requires s.Valid()
    ensures if s.micro == 0 then TextLess(Iso(s), IsoMicro(s)) else Iso(s) == IsoMicro(s)
  {
    var padded := "." + Digits(s.micro, 6) + "+00:00";
    assert IsoMicro(s) == Render(DateFields(s)) + padded;
    assert Iso(s) == Render(DateFields(s)) + Tail(s.micro);
    if s.micro == 0 {
      assert Tail(s.micro) == "+00:00" && padded[0] == '.' && "+00:00"[0] == '+';
      ValidFieldsFit(s, s);
      RenderOrder(DateFields(s), DateFields(s), "+00:00", padded);
    }
  }

  const STALE_AFTER := 60 * SECOND

  /** The SQL lease test `updated_at <= stale_before` holds exactly when the row is at least
      sixty seconds old. */
  lemma StaleTestDecides(row: Stamp, now: Stamp, staleBefore: Stamp)
    requires row.Valid() && now.Valid() && staleBefore.Valid()
    requires Micros(staleBefore) == Micros(now) - STALE_AFTER
    ensures TextAtMost(Iso(row), Iso(staleBefore)) <==> Micros(now) - Micros(row) >= STALE_AFTER
  {
    IsoOrder(row, staleBefore);
  }

  // ---------- Audit timestamps ----------

  /** A datetime handed to the audit log: naive, or with an offset in microseconds. */
  datatype Moment = Naive(local: Stamp) | Aware(local: Stamp, offset: int)

  /** Naive values are taken as UTC. */
  function Instant(m: Moment): int {
    match m
    case Naive(s) => Micros(s)
    case Aware(s, offset) => Micros(s) - offset
  }

  ghost predicate IsUtcOf(u: Stamp, m: Moment) {
    u.Valid() && Micros(u) == Instant(m)
  }

  /** The since/until filters of the audit log decide the comparison of instants, whatever
      offsets the event and the query were given in. */
  lemma AuditWindowDecides(event: Moment, bound: Moment, e: Stamp, b: Stamp)
    requires IsUtcOf(e, event) && IsUtcOf(b, bound)
    ensures TextAtMost(IsoMicro(b), IsoMicro(e)) <==> Instant(bound) <= Instant(event)
    ensures TextAtMost(IsoMicro(e), IsoMicro(b)) <==> Instant(event) <= Instant(bound)
    ensures IsoMicro(e) == IsoMicro(b) <==> Instant(event) == Instant(bound)
  {
    IsoMicroOrder(e, b);
    IsoMicroOrder(b, e);
  }
}
