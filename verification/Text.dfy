/** Text as the daemon handles it: C strings read with `atoi` and `strtok`, printed with
    `%s|%d`, ordered with `strcmp`, and time stamps printed with `strftime`. */
module Text {

  // ---------------------------------------------------------------- atoi and %d

  predicate IsDigit(c: char) {
    '0' <= c <= '9'
  }

  predicate IsSpace(c: char) {
    c == ' ' || '\t' <= c <= '\r'
  }

  function SkipSpaces(s: string): string {
    if |s| > 0 && IsSpace(s[0]) then SkipSpaces(s[1..]) else s
  }

  /** The longest prefix of digits. */
  function Digits(s: string): string {
    if |s| > 0 && IsDigit(s[0]) then [s[0]] + Digits(s[1..]) else ""
  }

  function DigitOf(c: char): int {
    c as int - '0' as int
  }

  function Value(ds: string): int {
    if |ds| == 0 then 0 else 10 * Value(ds[..|ds| - 1]) + DigitOf(ds[|ds| - 1])
  }

  /** The number that a string without leading white space begins with, 0 if it does not. */
  function Signed(t: string): int {
    if |t| > 0 && t[0] == '-' then 0 - Value(Digits(t[1..]))
    else if |t| > 0 && t[0] == '+' then Value(Digits(t[1..]))
    else Value(Digits(t))
  }

  function Atoi(s: string): int {
    Signed(SkipSpaces(s))
  }

  function Digit(d: nat): (c: char)
    requires d < 10
    ensures IsDigit(c) && DigitOf(c) == d
  {
    ('0' as int + d) as char
  }

  function ShowNat(n: nat): (s: string)
    ensures s != "" && forall c | c in s :: IsDigit(c)
    ensures n > 0 ==> s[0] != '0'
  {
    if n < 10 then [Digit(n)] else ShowNat(n / 10) + [Digit(n % 10)]
  }

  function ShowInt(n: int): string {
    if n < 0 then "-" + ShowNat(-n) else ShowNat(n)
  }

  lemma {:induction false} ValueShow(n: nat)
    ensures Value(ShowNat(n)) == n
  {
    if n >= 10 {
      ValueShow(n / 10);
      assert ShowNat(n)[..|ShowNat(n)| - 1] == ShowNat(n / 10);
    }
  }

  lemma {:induction false} DigitsStop(ds: string, tail: string)
    requires tail == "" || !IsDigit(tail[0])
    ensures Digits(ds + tail) == Digits(ds)
    ensures (forall c | c in ds :: IsDigit(c)) ==> Digits(ds) == ds
  {
    if ds == "" {
      assert ds + tail == tail;
    } else {
      assert (ds + tail)[1..] == ds[1..] + tail;
      DigitsStop(ds[1..], tail);
    }
  }

  lemma {:induction false} SkipSpacesStop(s: string, tail: string)
    requires tail == "" || !IsSpace(tail[0])
    ensures SkipSpaces(s + tail) == SkipSpaces(s) + tail
  {
    if s == "" {
      assert s + tail == tail;
    } else {
      assert (s + tail)[1..] == s[1..] + tail;
      SkipSpacesStop(s[1..], tail);
    }
  }

  /** A character at which `atoi` stops wherever it meets it. */
  predicate Stops(c: char) {
    !IsDigit(c) && !IsSpace(c) && c != '-' && c != '+'
  }

  /** `atoi` does not look past a stop character: the number of a whole line `id|count`, or of
      a file name `id.afp`, is the number of the id. */
  lemma AtoiStops(s: string, tail: string)
    requires tail == "" || Stops(tail[0])
    ensures Atoi(s + tail) == Atoi(s)
  {
    SkipSpacesStop(s, tail);
    var t := SkipSpaces(s);
    if t == "" {
      assert t + tail == tail;
      DigitsStop("", tail);
    } else {
      assert (t + tail)[1..] == t[1..] + tail;
      DigitsStop(t[1..], tail);
      DigitsStop(t, tail);
    }
  }

  lemma AtoiShow(n: int, tail: string)
    requires tail == "" || !IsDigit(tail[0])
    ensures Atoi(ShowInt(n) + tail) == n
  {
    var ds := ShowNat(if n < 0 then -n else n);
    ValueShow(if n < 0 then -n else n);
    DigitsStop(ds, tail);
    if n < 0 {
      AtoiOfMinus("-" + ds + tail);
      assert ("-" + ds + tail)[1..] == ds + tail;
    } else {
      AtoiOfDigits(ds + tail);
    }
  }

  lemma AtoiOfMinus(s: string)
    requires s != "" && s[0] == '-'
    ensures Atoi(s) == 0 - Value(Digits(s[1..]))
  {
  }

  lemma AtoiOfDigits(s: string)
    requires s != "" && IsDigit(s[0])
    ensures Atoi(s) == Value(Digits(s))
  {
  }

  predicate Zeros(z: string) {
    forall i | 0 <= i < |z| :: z[i] == '0'
  }

  predicate Blank(ws: string) {
    forall i | 0 <= i < |ws| :: ws[i] == ' ' || 9 <= ws[i] as int <= 13
  }

  /** Leading zeros do not count. */
  lemma {:induction false} ZerosThen(z: string, ds: string)
    requires Zeros(z)
    ensures Value(z + ds) == Value(ds)
    decreases |ds|, |z|
  {
    if ds != "" {
      assert (z + ds)[..|z + ds| - 1] == z + ds[..|ds| - 1];
      ZerosThen(z, ds[..|ds| - 1]);
    } else if z != "" {
      assert (z + ds)[..|z + ds| - 1] == z[..|z| - 1] + ds;
      ZerosThen(z[..|z| - 1], ds);
    }
  }

  lemma {:induction false} SpacesThen(ws: string, s: string)
    requires Blank(ws) && (s == "" || !IsSpace(s[0]))
    ensures SkipSpaces(ws + s) == s
  {
    if ws == "" {
      assert ws + s == s;
    } else {
      assert (ws + s)[1..] == ws[1..] + s;
      SpacesThen(ws[1..], s);
    }
  }

  lemma DigitsRead(z: string, n: nat, tail: string)
    requires Zeros(z) && (tail == "" || !('0' <= tail[0] <= '9'))
    ensures var s := z + ShowNat(n) + tail; IsDigit(s[0]) && Value(Digits(s)) == n
  {
    var ds := z + ShowNat(n);
    ZerosThen(z, ShowNat(n));
    ValueShow(n);
    assert forall c | c in ShowNat(n) :: IsDigit(c);
    forall c | c in ds
      ensures IsDigit(c)
    {
    }
    DigitsStop(ds, tail);
    assert ds[0] in ds;
  }

  /** What `atoi` reads: blanks, a sign, and digits in base ten, however many zeros lead them and
      whatever follows. */
  lemma AtoiReads(ws: string, sign: string, z: string, n: nat, tail: string)
    requires Blank(ws) && (sign == "" || sign == "+" || sign == "-")
    requires Zeros(z) && (tail == "" || !('0' <= tail[0] <= '9'))
    ensures Atoi(ws + (sign + (z + ShowNat(n) + tail))) == if sign == "-" then 0 - n else n
  {
    var s := z + ShowNat(n) + tail;
    DigitsRead(z, n, tail);
    SignThen(sign, s);
    SpacesThen(ws, sign + s);
  }

  lemma SignThen(sign: string, s: string)
    requires (sign == "" || sign == "+" || sign == "-") && s != "" && IsDigit(s[0])
    ensures Signed(sign + s) == if sign == "-" then 0 - Value(Digits(s)) else Value(Digits(s))
    ensures !IsSpace((sign + s)[0])
  {
    if sign == "" {
      assert sign + s == s;
    } else {
      assert (sign + s)[1..] == s;
    }
  }

  /** Where no digit comes, `atoi` reads 0. */
  lemma AtoiReadsNothing(ws: string, sign: string, tail: string)
    requires Blank(ws) && (sign == "" || sign == "+" || sign == "-")
    requires tail == "" || !('0' <= tail[0] <= '9')
    requires sign == "" && tail != "" ==> !IsSpace(tail[0]) && tail[0] != '+' && tail[0] != '-'
    ensures Atoi(ws + (sign + tail)) == 0
  {
    if sign == "" {
      assert sign + tail == tail;
    } else {
      assert (sign + tail)[1..] == tail;
    }
    SpacesThen(ws, sign + tail);
  }

  /** The file of a song has the song's key, with its number padded or not. */
  lemma PaddedNameKey(z: string, n: nat)
    requires Zeros(z)
    ensures Atoi(z + ShowNat(n) + ".afp\n") == Atoi(ShowNat(n)) == n
  {
    AtoiReads("", "", z, n, ".afp\n");
    AtoiReads("", "", "", n, "");
    assert "" + ("" + (z + ShowNat(n) + ".afp\n")) == z + ShowNat(n) + ".afp\n";
    assert "" + ("" + ("" + ShowNat(n) + "")) == ShowNat(n);
  }

  /** Ten is written and read in base ten. */
  lemma TenIsTen()
    ensures ShowInt(10) == "10" && ShowInt(-1907) == "-1907" && Atoi("010.afp\n") == 10
  {
    assert ShowNat(1) == "1" && ShowNat(10) == "10";
    assert ShowNat(19) == "19" && ShowNat(190) == "190" && ShowNat(1907) == "1907";
    PaddedNameKey("0", 10);
    assert "0" + ShowNat(10) + ".afp\n" == "010.afp\n";
  }

  // ---------------------------------------------------------------- find, and strtok on "|"

  /** std::string::find from a position; |s| stands for npos. */
  function Find(s: string, c: char, from: nat): (p: nat)
    requires from <= |s|
    ensures from <= p <= |s| && c !in s[from..p] && (p < |s| ==> s[p] == c)
    decreases |s| - from
  {
    if from == |s| || s[from] == c then from
    else
      var p := Find(s, c, from + 1);
      assert s[from..p] == [s[from]] + s[from + 1..p];
      p
  }

  lemma FindFirst(s: string, c: char, from: nat, p: nat)
    requires from <= p < |s| && c !in s[from..p] && s[p] == c
    ensures Find(s, c, from) == p
  {
  }

  lemma FindNone(s: string, c: char, from: nat)
    requires from <= |s| && c !in s[from..]
    ensures Find(s, c, from) == |s|
  {
    assert forall p | from <= p < |s| :: s[p] == s[from..][p - from];
  }

  /** The first position from `from` on that holds no bar: where `strtok` starts its word. The
      word ends at the next bar or at the end of the string. */
  function SkipBars(s: string, from: nat): (p: nat)
    requires from <= |s|
    ensures from <= p <= |s|
    decreases |s| - from
  {
    if from < |s| && s[from] == '|' then SkipBars(s, from + 1) else from
  }

  // ---------------------------------------------------------------- the lines of the work files

  /** A song id with its number of queries: one line of the counting files. */
  datatype Entry = Entry(sid: string, count: int)

  function Key(e: Entry): int {
    Atoi(e.sid)
  }

  /** sprintf "%s|%d\n" */
  function Render(e: Entry): string {
    e.sid + "|" + ShowInt(e.count) + "\n"
  }

  datatype Option<+T> = None | Some(value: T)

  /** The two `strtok` calls and the `atoi` with which the selection stages read a line back.
      None is the case in which a call finds no word and returns a null pointer. */
  function Parse(line: string): Option<Entry> {
    var p := SkipBars(line, 0);
    var q := Find(line, '|', p);
    var r := SkipBars(line, q);
    if p == |line| || r == |line| then None
    else Some(Entry(line[p..q], Atoi(line[r..Find(line, '|', r)])))
  }

  /** An id survives printing and splitting exactly when it is a word for `strtok`. */
  predicate IsWord(sid: string) {
    sid != "" && '|' !in sid
  }

  lemma {:induction false} ShowHasNoBar(n: nat)
    ensures '|' !in ShowNat(n)
  {
  }

  lemma RoundTrip(e: Entry)
    requires IsWord(e.sid)
    ensures Parse(Render(e)) == Some(e)
  {
    var val := ShowInt(e.count) + "\n";
    var line := Render(e);
    var n := |e.sid|;
    assert line == e.sid + "|" + val;
    ShowHasNoBar(if e.count < 0 then -e.count else e.count);
    assert line[0..n] == e.sid && line[n] == '|' && line[n + 1..] == val;
    FindFirst(line, '|', 0, n);
    FindNone(line, '|', n + 1);
    assert line[0] == e.sid[0] && SkipBars(line, 0) == 0;
    assert line[n + 1] == val[0] && SkipBars(line, n + 1) == n + 1;
    assert line[n + 1..|line|] == val;
    AtoiShow(e.count, "\n");
  }

  /** The filter key of a printed line is the key of its id, for every id whatever. */
  lemma RenderKey(e: Entry)
    ensures Atoi(Render(e)) == Key(e)
  {
    assert Render(e) == e.sid + ("|" + ShowInt(e.count) + "\n");
    AtoiStops(e.sid, "|" + ShowInt(e.count) + "\n");
  }

  /** Over ids without a bar, the round trip fails for the empty id and for no other: `strtok`
      skips the leading bar, takes the count for the id, and finds no second word. */
  lemma RoundTripIff(e: Entry)
    requires '|' !in e.sid
    ensures Parse(Render(e)) == if e.sid != "" then Some(e) else None
  {
    if e.sid == "" {
      var line := Render(e);
      ShowHasNoBar(if e.count < 0 then -e.count else e.count);
      assert line[0] == '|' && line[1..] == ShowInt(e.count) + "\n";
      FindNone(line, '|', 1);
    } else {
      RoundTrip(e);
    }
  }

  // ---------------------------------------------------------------- strcmp and strftime

  /** strcmp(a, b) < 0 */
  predicate StrLess(a: string, b: string) {
    b != "" && (a == "" || a[0] < b[0] || (a[0] == b[0] && StrLess(a[1..], b[1..])))
  }

  /** The first difference decides, and a proper prefix comes before. */
  lemma {:induction false} StrLessIff(a: string, b: string)
    ensures StrLess(a, b) <==>
            exists k: nat | k <= |a| && k < |b| :: a[..k] == b[..k] && (k == |a| || a[k] < b[k])
  {
    if a == "" {
      assert b != "" ==> a[..0] == b[..0];
    } else if b != "" {
      StrLessIff(a[1..], b[1..]);
      if a[0] < b[0] {
        assert a[..0] == b[..0];
      }
      if a[0] == b[0] && StrLess(a[1..], b[1..]) {
        var k: nat :| k <= |a[1..]| && k < |b[1..]| && a[1..][..k] == b[1..][..k]
                      && (k == |a[1..]| || a[1..][k] < b[1..][k]);
        assert a[..k + 1] == [a[0]] + a[1..][..k] && b[..k + 1] == [b[0]] + b[1..][..k];
      }
      if k: nat :| 0 < k <= |a| && k < |b| && a[..k] == b[..k] && (k == |a| || a[k] < b[k]) {
        assert a[0] == a[..k][0] == b[..k][0] == b[0];
        assert a[1..][..k - 1] == a[..k][1..] == b[..k][1..] == b[1..][..k - 1];
        assert k - 1 == |a[1..]| || a[1..][k - 1] < b[1..][k - 1];
      }
    }
  }

  lemma {:induction false} StrLessConcat(x: string, y: string, u: string, v: string)
    requires |x| == |y|
    ensures StrLess(x + u, y + v) <==> StrLess(x, y) || (x == y && StrLess(u, v))
  {
    if x == "" {
      assert x + u == u && y + v == v;
    } else {
      assert (x + u)[1..] == x[1..] + u && (y + v)[1..] == y[1..] + v;
      StrLessConcat(x[1..], y[1..], u, v);
      assert x == [x[0]] + x[1..] && y == [y[0]] + y[1..];
    }
  }

  function Pow10(w: nat): nat {
    if w == 0 then 1 else 10 * Pow10(w - 1)
  }

  /** The last w decimal digits of n, zero padded. */
  function Pad(n: nat, w: nat): (s: string)
    ensures |s| == w
    ensures w > 0 ==> IsDigit(s[0])
  {
    if w == 0 then "" else Pad(n / 10, w - 1) + [Digit(n % 10)]
  }

  lemma {:induction false} PadOrder(m: nat, n: nat, w: nat)
    requires m < Pow10(w) && n < Pow10(w)
    ensures StrLess(Pad(m, w), Pad(n, w)) <==> m < n
    ensures Pad(m, w) == Pad(n, w) <==> m == n
  {
    if w > 0 {
      PadOrder(m / 10, n / 10, w - 1);
      var x, y := Pad(m / 10, w - 1), Pad(n / 10, w - 1);
      var u, v := [Digit(m % 10)], [Digit(n % 10)];
      StrLessConcat(x, y, u, v);
      assert StrLess(u, v) <==> m % 10 < n % 10;
      assert (x + u)[..w - 1] == x && (y + v)[..w - 1] == y;
      assert (x + u)[w - 1] == u[0] && (y + v)[w - 1] == v[0];
      assert DigitOf(u[0]) == m % 10 && DigitOf(v[0]) == n % 10;
    }
  }

  /** One printed field: its value, its width and the separator behind it. */
  datatype Field = Field(value: nat, width: nat, sep: char)

  function Format(fs: seq<Field>, end: string): string {
    if fs == [] then end else Pad(fs[0].value, fs[0].width) + ([fs[0].sep] + Format(fs[1..], end))
  }

  predicate FieldsFit(fs: seq<Field>) {
    forall f | f in fs :: f.value < Pow10(f.width)
  }

  predicate SameLayout(fs: seq<Field>, gs: seq<Field>) {
    |fs| == |gs| && forall i | 0 <= i < |fs| :: fs[i].width == gs[i].width && fs[i].sep == gs[i].sep
  }

  predicate FieldsBefore(fs: seq<Field>, gs: seq<Field>)
    requires |fs| == |gs|
  {
    fs != [] &&
    (fs[0].value < gs[0].value || (fs[0].value == gs[0].value && FieldsBefore(fs[1..], gs[1..])))
  }

  lemma {:induction false} StrLessIrreflexive(s: string)
    ensures !StrLess(s, s)
  {
    if s != "" {
      StrLessIrreflexive(s[1..]);
    }
  }

  /** String order on zero-padded fields is lexicographic order on their values. */
  lemma {:induction false} FormatOrder(fs: seq<Field>, gs: seq<Field>, end: string)
    requires SameLayout(fs, gs) && FieldsFit(fs) && FieldsFit(gs)
    ensures StrLess(Format(fs, end), Format(gs, end)) <==> FieldsBefore(fs, gs)
  {
    if fs == [] {
      StrLessIrreflexive(end);
    } else {
      FormatOrder(fs[1..], gs[1..], end);
      var f, g := fs[0], gs[0];
      PadOrder(f.value, g.value, f.width);
      StrLessConcat(Pad(f.value, f.width), Pad(g.value, g.width),
                    [f.sep] + Format(fs[1..], end), [g.sep] + Format(gs[1..], end));
      StrLessConcat([f.sep], [g.sep], Format(fs[1..], end), Format(gs[1..], end));
      StrLessIrreflexive([f.sep]);
    }
  }

  datatype Time = Time(year: nat, month: nat, day: nat, hour: nat, minute: nat, second: nat)

  predicate ValidTime(t: Time) {
    1000 <= t.year <= 9999 && 1 <= t.month <= 12 && 1 <= t.day <= 31
    && t.hour <= 23 && t.minute <= 59 && t.second <= 60
  }

  /** Chronological order of two valid times in one calendar. */
  predicate Earlier(s: Time, t: Time) {
    s.year < t.year || (s.year == t.year &&
    (s.month < t.month || (s.month == t.month &&
    (s.day < t.day || (s.day == t.day &&
    (s.hour < t.hour || (s.hour == t.hour &&
    (s.minute < t.minute || (s.minute == t.minute && s.second < t.second)))))))))
  }

  function Fields(t: Time): seq<Field> {
    [Field(t.year, 4, '-'), Field(t.month, 2, '-'), Field(t.day, 2, '_'),
     Field(t.hour, 2, '-'), Field(t.minute, 2, '-'), Field(t.second, 2, '.')]
  }

  /** strftime "%Y-%m-%d_%H-%M-%S.log" */
  function StampName(t: Time): string {
    Format(Fields(t), "log")
  }

  lemma StampFits(t: Time)
    requires ValidTime(t)
    ensures FieldsFit(Fields(t))
  {
    assert Pow10(2) == 100;
    assert Pow10(4) == 10000;
  }

  lemma StampOrder(s: Time, t: Time)
    requires ValidTime(s) && ValidTime(t)
    ensures StrLess(StampName(s), StampName(t)) <==> Earlier(s, t)
  {
    StampFits(s);
    StampFits(t);
    FormatOrder(Fields(s), Fields(t), "log");
    FieldsAreOrdered(s, t);
  }

  /** Any number that fits is padded to its decimal digits. */
  lemma {:induction false} PadReads(n: nat, w: nat)
    requires n < Pow10(w)
    ensures forall c | c in Pad(n, w) :: '0' <= c <= '9'
    ensures Digits(Pad(n, w)) == Pad(n, w) && Value(Pad(n, w)) == n
  {
    if w > 0 {
      PadReads(n / 10, w - 1);
      assert Pad(n, w)[..w - 1] == Pad(n / 10, w - 1);
    }
    DigitsStop(Pad(n, w), "");
    assert Pad(n, w) + "" == Pad(n, w);
  }

  lemma AtoiPad(n: nat, w: nat)
    requires n < Pow10(w) && w > 0
    ensures Atoi(Pad(n, w)) == n
  {
    PadReads(n, w);
    assert Pad(n, w)[0] in Pad(n, w);
  }

  /** The printed stamp, part by part. */
  lemma StampParts(t: Time)
    ensures StampName(t) == Pad(t.year, 4) + ("-" + (Pad(t.month, 2) + ("-" + (Pad(t.day, 2) + ("_" + ClockPart(t))))))
  {
    var fs := Fields(t);
    FormatAt(fs, "log", 0);
    FormatAt(fs, "log", 1);
    FormatAt(fs, "log", 2);
    ClockParts(t);
    assert fs[0..] == fs;
  }

  lemma ClockParts(t: Time)
    ensures Format(Fields(t)[3..], "log") == ClockPart(t)
  {
    var fs := Fields(t);
    FormatAt(fs, "log", 3);
    FormatAt(fs, "log", 4);
    FormatAt(fs, "log", 5);
    assert fs[6..] == [];
    assert [fs[5].sep] + "log" == ".log";
  }

  function ClockPart(t: Time): string {
    Pad(t.hour, 2) + ("-" + (Pad(t.minute, 2) + ("-" + (Pad(t.second, 2) + ".log"))))
  }

  lemma FormatAt(fs: seq<Field>, end: string, i: nat)
    requires i < |fs|
    ensures Format(fs[i..], end) == Pad(fs[i].value, fs[i].width) + ([fs[i].sep] + Format(fs[i + 1..], end))
  {
    assert fs[i..][0] == fs[i] && fs[i..][1..] == fs[i + 1..];
  }

  lemma DateSlices(y: string, m: string, d: string, c: string, s: string)
    requires |y| == 4 && |m| == |d| == 2 && s == y + ("-" + (m + ("-" + (d + ("_" + c)))))
    ensures |s| == 11 + |c| && s[4] == s[7] == '-' && s[10] == '_'
    ensures s[0..4] == y && s[5..7] == m && s[8..10] == d && s[11..] == c
  {
  }

  lemma TimeSlices(h: string, m: string, sec: string, s: string)
    requires |h| == |m| == |sec| == 2 && s == h + ("-" + (m + ("-" + (sec + ".log"))))
    ensures |s| == 12 && s[2] == s[5] == '-'
    ensures s[0..2] == h && s[3..5] == m && s[6..8] == sec && s[8..] == ".log"
  {
  }

  lemma Behind(s: string, k: nat, c: string, a: nat, b: nat)
    requires k <= |s| && s[k..] == c && a <= b <= |c|
    ensures s[k + a..k + b] == c[a..b] && (a < |c| ==> s[k + a] == c[a])
  {
    assert forall i | 0 <= i < |c| :: s[k + i] == s[k..][i];
    assert s[k + a..k + b] == c[a..b];
  }

  lemma StampSlices(t: Time)
    ensures var s := StampName(t);
            && |s| == 23 && s[4] == s[7] == s[13] == s[16] == '-' && s[10] == '_' && s[19..] == ".log"
            && s[0..4] == Pad(t.year, 4) && s[5..7] == Pad(t.month, 2) && s[8..10] == Pad(t.day, 2)
            && s[11..13] == Pad(t.hour, 2) && s[14..16] == Pad(t.minute, 2) && s[17..19] == Pad(t.second, 2)
  {
    var s, c := StampName(t), ClockPart(t);
    StampParts(t);
    DateSlices(Pad(t.year, 4), Pad(t.month, 2), Pad(t.day, 2), c, s);
    TimeSlices(Pad(t.hour, 2), Pad(t.minute, 2), Pad(t.second, 2), c);
    Behind(s, 11, c, 0, 2);
    Behind(s, 11, c, 2, 2);
    Behind(s, 11, c, 3, 5);
    Behind(s, 11, c, 5, 5);
    Behind(s, 11, c, 6, 8);
    Behind(s, 11, c, 8, 12);
    assert s[11 + 2] == '-' && s[11 + 5] == '-';
    assert s[19..] == s[11 + 8..11 + 12] && c[8..12] == c[8..];
    assert s[11..13] == s[11 + 0..11 + 2] && s[14..16] == s[11 + 3..11 + 5] && s[17..19] == s[11 + 6..11 + 8];
  }

  /** The name of a log: YYYY-MM-DD_hh-mm-ss.log with the six fields of the time in it. */
  lemma StampLayout(t: Time)
    requires ValidTime(t)
    ensures var s := StampName(t);
            && |s| == 23 && s[4] == s[7] == s[13] == s[16] == '-' && s[10] == '_' && s[19..] == ".log"
            && Atoi(s[0..4]) == t.year && Atoi(s[5..7]) == t.month && Atoi(s[8..10]) == t.day
            && Atoi(s[11..13]) == t.hour && Atoi(s[14..16]) == t.minute && Atoi(s[17..19]) == t.second
            && forall i | 0 <= i < 19 && i !in {4, 7, 10, 13, 16} :: '0' <= s[i] <= '9'
  {
    var s := StampName(t);
    StampSlices(t);
    AtoiPads(t);
    forall i | 0 <= i < 19 && i !in {4, 7, 10, 13, 16}
      ensures '0' <= s[i] <= '9'
    {
      DigitsInStamp(t, s, i);
    }
  }

  lemma StampFieldsFit(t: Time)
    requires ValidTime(t)
    ensures t.year < Pow10(4) && t.month < Pow10(2) && t.day < Pow10(2)
    ensures t.hour < Pow10(2) && t.minute < Pow10(2) && t.second < Pow10(2)
  {
    assert Pow10(2) == 100;
    assert Pow10(4) == 10000;
  }

  lemma AtoiPads(t: Time)
    requires ValidTime(t)
    ensures Atoi(Pad(t.year, 4)) == t.year && Atoi(Pad(t.month, 2)) == t.month && Atoi(Pad(t.day, 2)) == t.day
    ensures Atoi(Pad(t.hour, 2)) == t.hour && Atoi(Pad(t.minute, 2)) == t.minute && Atoi(Pad(t.second, 2)) == t.second
  {
    StampFieldsFit(t);
    AtoiPad(t.year, 4);
    AtoiPad(t.month, 2);
    AtoiPad(t.day, 2);
    AtoiPad(t.hour, 2);
    AtoiPad(t.minute, 2);
    AtoiPad(t.second, 2);
  }

  lemma DigitsInStamp(t: Time, s: string, i: nat)
    requires ValidTime(t) && |s| == 23 && i < 19 && i !in {4, 7, 10, 13, 16}
    requires s[0..4] == Pad(t.year, 4) && s[5..7] == Pad(t.month, 2) && s[8..10] == Pad(t.day, 2)
    requires s[11..13] == Pad(t.hour, 2) && s[14..16] == Pad(t.minute, 2) && s[17..19] == Pad(t.second, 2)
    ensures '0' <= s[i] <= '9'
  {
    StampFieldsFit(t);
    if i < 4 {
      DigitInGroup(s, 0, t.year, 4, i);
    } else if i < 7 {
      DigitInGroup(s, 5, t.month, 2, i);
    } else if i < 10 {
      DigitInGroup(s, 8, t.day, 2, i);
    } else if i < 13 {
      DigitInGroup(s, 11, t.hour, 2, i);
    } else if i < 16 {
      DigitInGroup(s, 14, t.minute, 2, i);
    } else {
      DigitInGroup(s, 17, t.second, 2, i);
    }
  }

  lemma DigitInGroup(s: string, a: nat, n: nat, w: nat, i: nat)
    requires a <= i < a + w <= |s| && s[a..a + w] == Pad(n, w) && n < Pow10(w)
    ensures '0' <= s[i] <= '9'
  {
    PadReads(n, w);
    assert s[i] == s[a..a + w][i - a];
  }

  /** So a name is the stamp of one time only. */
  lemma StampDeterminesTime(s: Time, t: Time)
    requires ValidTime(s) && ValidTime(t) && StampName(s) == StampName(t)
    ensures s == t
  {
    StampLayout(s);
    StampLayout(t);
  }

  lemma FieldsAreOrdered(s: Time, t: Time)
    ensures FieldsBefore(Fields(s), Fields(t)) <==> Earlier(s, t)
  {
    var fs, gs := Fields(s), Fields(t);
    ClockIsOrdered(s, t);
    FieldsBeforeAt(fs, gs, 2);
    FieldsBeforeAt(fs, gs, 1);
    FieldsBeforeAt(fs, gs, 0);
    assert fs[0..] == fs && gs[0..] == gs;
  }

  lemma ClockIsOrdered(s: Time, t: Time)
    ensures FieldsBefore(Fields(s)[3..], Fields(t)[3..]) <==>
            s.hour < t.hour || (s.hour == t.hour &&
            (s.minute < t.minute || (s.minute == t.minute && s.second < t.second)))
  {
    var fs, gs := Fields(s), Fields(t);
    assert fs[6..] == [] && gs[6..] == [];
    FieldsBeforeAt(fs, gs, 5);
    FieldsBeforeAt(fs, gs, 4);
    FieldsBeforeAt(fs, gs, 3);
  }

  lemma FieldsBeforeAt(fs: seq<Field>, gs: seq<Field>, i: nat)
    requires |fs| == |gs| && i < |fs|
    ensures FieldsBefore(fs[i..], gs[i..]) <==>
            fs[i].value < gs[i].value || (fs[i].value == gs[i].value && FieldsBefore(fs[i + 1..], gs[i + 1..]))
  {
    assert fs[i..][1..] == fs[i + 1..] && gs[i..][1..] == gs[i + 1..];
  }
}
