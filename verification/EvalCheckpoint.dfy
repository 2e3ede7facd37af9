/**
  The append-only result log of an evaluation run, its replay, and resuming from it.

  A result is one line of JSON.  Replay splits the file with `str.splitlines()`, which breaks
  at more characters than the "\n" that ends a record: three of them (U+0085, U+2028, U+2029)
  may stand raw inside a JSON string.  So replay inverts appending exactly when no record
  contains one of them; otherwise it raises.  The file is bytes: it is decoded strictly before
  it is split, so a file cut inside a character raises as well.

  The JSON codec is the pair of parameters `enc` and `dec`; `JsonCodec` says what is used of it.
  */
module EvalCheckpoint {
  import opened Whitespace
  import opened Options
  import JsonScanner
  import Utf8

  datatype Result = Result(itemId: string, body: string)

  // ---------- Lines ----------

  predicate BreakFree(t: string) {
    forall i :: 0 <= i < |t| ==> !IsBreak(t[i])
  }

  /** The length of the text before the first break. */
  function LineLength(t: string): (n: nat)
    ensures n <= |t|
  {
    if t == "" || IsBreak(t[0]) then 0 else 1 + LineLength(t[1..])
  }

  lemma {:induction false} LineLengthStops(t: string)
    ensures BreakFree(t[..LineLength(t)])
    ensures LineLength(t) < |t| ==> IsBreak(t[LineLength(t)])
  {
    if t != "" && !IsBreak(t[0]) {
      LineLengthStops(t[1..]);
      var n := LineLength(t);
      assert forall i :: 0 <= i < n ==> t[..n][i] == if i == 0 then t[0] else t[1..][..n - 1][i - 1];
    }
  }

  function BreakLength(t: string): (n: nat)
    requires t != ""
    ensures 1 <= n <= |t|
  {
    if |t| >= 2 && t[0] == '\r' && t[1] == '\n' then 2 else 1
  }

  function SplitLines(t: string): seq<string>
    decreases |t|
  {
    var n := LineLength(t);
    if t == "" then []
    else if n == |t| then [t]
    else [t[..n]] + SplitLines(t[n + BreakLength(t[n..])..])
  }

  function NonBlank(lines: seq<string>): seq<string> {
    if lines == [] then []
    else (if Blank(lines[0]) then [] else [lines[0]]) + NonBlank(lines[1..])
  }

  // ---------- Replay ----------

  /** `None` is the ValueError of a line that does not decode and is not the last one. */
  function Replay(lines: seq<string>, dec: string -> Option<Result>, loaded: map<string, Result>)
    : Option<map<string, Result>>
  {
    if lines == [] then Some(loaded)
    else match dec(lines[0])
      case None => if |lines| == 1 then Some(loaded) else None
      case Some(r) => Replay(lines[1..], dec, loaded[r.itemId := r])
  }

  function Load(text: string, dec: string -> Option<Result>): Option<map<string, Result>> {
    Replay(NonBlank(SplitLines(text)), dec, map[])
  }

  /** Reading in text mode turns "\r\n" and "\r" into "\n". */
  function Universal(t: string): string
    decreases |t|
  {
    if t == "" then ""
    else if t[0] == '\r' then "\n" + Universal(t[BreakLength(t)..])
    else [t[0]] + Universal(t[1..])
  }

  /** `load_results` on the bytes of the file; `None` when decoding them or a line raises. */
  function LoadFile(file: seq<Utf8.Byte>, dec: string -> Option<Result>): Option<map<string, Result>> {
    match Utf8.Decode(file)
    case None => None
    case Some(text) => Load(Universal(text), dec)
  }

  method LoadResults(file: seq<Utf8.Byte>, dec: string -> Option<Result>) returns (r: Option<map<string, Result>>)
    ensures r == LoadFile(file, dec)
  {
    var text := Utf8.Decode(file);
    if text.None? {
      return None;
    }
    var lines := NonBlank(SplitLines(Universal(text.value)));
    var loaded: map<string, Result> := map[];
    assert lines[0..] == lines;
    for i := 0 to |lines|
      invariant LoadFile(file, dec) == Replay(lines[i..], dec, loaded)
    {
      var result := dec(lines[i]);
      assert lines[i..][1..] == lines[i + 1..];
      if result.None? {
        if i == |lines| - 1 {
          return Some(loaded);
        }
        return None;
      }
      loaded := loaded[result.value.itemId := result.value];
    }
    r := Some(loaded);
  }

  // ---------- The codec ----------

  /** A record's text decodes to its result, shows at both ends, and decodes to nothing when
      it is cut short. */
  ghost predicate IsRecord(p: string, r: Result, dec: string -> Option<Result>) {
    && dec(p) == Some(r)
    && |p| >= 2 && p[0] == '{' && p[|p| - 1] == '}'
    && forall n :: 0 < n < |p| ==> dec(p[..n]).None?
  }

  ghost predicate Framed(enc: Result -> string, dec: string -> Option<Result>) {
    forall r :: IsRecord(enc(r), r, dec)
  }

  ghost predicate IsObjectText(t: string) {
    exists o: JsonScanner.Value :: o.Object? && JsonScanner.Good(o) && JsonScanner.Print(o) == t
  }

  ghost predicate IsPaddedObject(t: string) {
    exists i, j :: 0 <= i <= j <= |t| && JsonScanner.IsWs(t[..i]) && IsObjectText(t[i..j])
  }

  /** What is used of the codec: encoding prints an object, decoding inverts it and accepts nothing
      but an object with whitespace around it; objects are those of RFC 8259, in which a number may
      also be one of the words NaN, Infinity and -Infinity. */
  ghost predicate JsonCodec(enc: Result -> string, dec: string -> Option<Result>) {
    && (forall r :: dec(enc(r)) == Some(r) && IsObjectText(enc(r)))
    && (forall t :: dec(t).Some? ==> IsPaddedObject(t))
  }

  /** No object text is a proper prefix of another, so a record cut short is not one. */
  lemma CutObjectIsNone(t: string, n: nat)
    requires IsObjectText(t) && 0 < n < |t|
    ensures !IsPaddedObject(t[..n])
  {
    var q := t[..n];
    var o: JsonScanner.Value :| o.Object? && JsonScanner.Good(o) && JsonScanner.Print(o) == t;
    if i, j :| 0 <= i <= j <= |q| && JsonScanner.IsWs(q[..i]) && IsObjectText(q[i..j]) {
      var p: JsonScanner.Value :| p.Object? && JsonScanner.Good(p) && JsonScanner.Print(p) == q[i..j];
      assert t[0] == '{';
      assert i == 0;
      assert JsonScanner.Print(o) + "" == t == q[i..j] + t[j..];
      JsonScanner.ObjectsArePrefixFree(o, p, "", t[j..]);
    }
  }

  lemma ObjectTextEnds(t: string)
    requires IsObjectText(t)
    ensures |t| >= 2 && t[0] == '{' && t[|t| - 1] == '}'
  {
    var o: JsonScanner.Value :| o.Object? && JsonScanner.Good(o) && JsonScanner.Print(o) == t;
    assert t == "{" + (o.gap + JsonScanner.PrintMembers(o.members)) + "}";
  }

  lemma JsonCodecIsFramed(enc: Result -> string, dec: string -> Option<Result>)
    requires JsonCodec(enc, dec)
    ensures Framed(enc, dec)
  {
    forall r
      ensures IsRecord(enc(r), r, dec)
    {
      ObjectTextEnds(enc(r));
      forall n | 0 < n < |enc(r)|
        ensures dec(enc(r)[..n]).None?
      {
        CutObjectIsNone(enc(r), n);
      }
    }
  }

  // ---------- The log ----------

  function LogText(rs: seq<Result>, enc: Result -> string): string {
    if rs == [] then "" else enc(rs[0]) + "\n" + LogText(rs[1..], enc)
  }

  /** The in-memory map after these results: the latest per item. */
  function Latest(rs: seq<Result>, start: map<string, Result>): map<string, Result> {
    if rs == [] then start else Latest(rs[1..], start[rs[0].itemId := rs[0]])
  }

  lemma {:induction false} LineLengthOf(a: string, b: string)
    requires BreakFree(a) && (b == "" || IsBreak(b[0]))
    ensures LineLength(a + b) == |a|
  {
    if a == "" {
      assert a + b == b;
    } else {
      assert (a + b)[1..] == a[1..] + b;
      LineLengthOf(a[1..], b);
    }
  }

  lemma SplitAt(a: string, b: string)
    requires BreakFree(a) && b != "" && IsBreak(b[0])
    ensures SplitLines(a + b) == [a] + SplitLines(b[BreakLength(b)..])
  {
    var t := a + b;
    LineLengthOf(a, b);
    assert t[..|a|] == a && t[|a|..] == b;
    assert t[|a| + BreakLength(b)..] == b[BreakLength(b)..];
  }

  /** A complete record is one line, and the rest of the file is split on its own. */
  lemma FirstRecord(a: string, rest: string)
    requires BreakFree(a)
    ensures SplitLines(a + "\n" + rest) == [a] + SplitLines(rest)
  {
    SplitAt(a, "\n" + rest);
    assert a + "\n" + rest == a + ("\n" + rest);
    assert ("\n" + rest)[1..] == rest;
  }

  lemma ShownLine(line: string, lines: seq<string>)
    requires line != "" && !IsSpace(line[0])
    ensures NonBlank([line] + lines) == [line] + NonBlank(lines)
  {
    assert !Blank(line) && ([line] + lines)[1..] == lines;
  }

  lemma ReplayLine(line: string, lines: seq<string>, dec: string -> Option<Result>, loaded: map<string, Result>)
    ensures Replay([line] + lines, dec, loaded) ==
      match dec(line)
      case None => (if lines == [] then Some(loaded) else None)
      case Some(r) => Replay(lines, dec, loaded[r.itemId := r])
  {
    assert ([line] + lines)[1..] == lines;
  }

  /** Replaying complete break-free records, then whatever follows them. */
  lemma {:induction false} ReplayRecords(rs: seq<Result>, tail: string, enc: Result -> string,
                                         dec: string -> Option<Result>, loaded: map<string, Result>)
    requires Framed(enc, dec) && forall i :: 0 <= i < |rs| ==> BreakFree(enc(rs[i]))
    ensures Replay(NonBlank(SplitLines(LogText(rs, enc) + tail)), dec, loaded)
         == Replay(NonBlank(SplitLines(tail)), dec, Latest(rs, loaded))
  {
    if rs == [] {
      assert LogText(rs, enc) + tail == tail;
    } else {
      var a, rest := enc(rs[0]), LogText(rs[1..], enc) + tail;
      assert LogText(rs, enc) + tail == a + "\n" + rest;
      assert IsRecord(a, rs[0], dec);
      FirstRecord(a, rest);
      ShownLine(a, SplitLines(rest));
      ReplayLine(a, NonBlank(SplitLines(rest)), dec, loaded);
      ReplayRecords(rs[1..], tail, enc, dec, loaded[rs[0].itemId := rs[0]]);
    }
  }

  lemma {:induction false} LogTextConcat(a: seq<Result>, b: seq<Result>, enc: Result -> string)
    ensures LogText(a + b, enc) == LogText(a, enc) + LogText(b, enc)
  {
    if a == [] {
      assert a + b == b;
    } else {
      assert (a + b)[1..] == a[1..] + b;
      LogTextConcat(a[1..], b, enc);
    }
  }

  lemma {:induction false} LatestConcat(a: seq<Result>, b: seq<Result>, start: map<string, Result>)
    ensures Latest(a + b, start) == Latest(b, Latest(a, start))
  {
    if a == [] {
      assert a + b == b;
    } else {
      assert (a + b)[1..] == a[1..] + b;
      LatestConcat(a[1..], b, start[a[0].itemId := a[0]]);
    }
  }

  // ---------- Text mode ----------

  lemma {:induction false} UniversalKeeps(a: string, b: string)
    requires BreakFree(a)
    ensures Universal(a + b) == a + Universal(b)
  {
    if a == "" {
      assert a + b == b;
    } else {
      assert (a + b)[0] == a[0] && (a + b)[1..] == a[1..] + b;
      UniversalKeeps(a[1..], b);
      assert a == [a[0]] + a[1..];
    }
  }

  lemma UniversalBreak(b: string)
    requires b != "" && IsBreak(b[0])
    ensures var u := Universal(b);
      && u != "" && IsBreak(u[0]) && BreakLength(u) == 1 && u[1..] == Universal(b[BreakLength(b)..])
  {}

  /** The translation of line ends leaves the lines as they are. */
  lemma {:induction false} UniversalSplits(t: string)
    ensures SplitLines(Universal(t)) == SplitLines(t)
    decreases |t|
  {
    if t != "" {
      var n := LineLength(t);
      var a, b := t[..n], t[n..];
      LineLengthStops(t);
      assert t == a + b;
      UniversalKeeps(a, b);
      if b == "" {
        assert Universal(b) == "" && a + Universal(b) == t;
      } else {
        SplitAt(a, b);
        UniversalBreak(b);
        SplitAt(a, Universal(b));
        UniversalSplits(b[BreakLength(b)..]);
      }
    }
  }

  /** Loading what was encoded is loading the text. */
  lemma LoadsText(text: string, dec: string -> Option<Result>)
    ensures LoadFile(Utf8.Encode(text), dec) == Load(text, dec)
  {
    Utf8.RoundTrip(text);
    UniversalSplits(text);
  }

  // ---------- A record with a line break inside ----------

  lemma BreakLeavesText(b: string)
    requires |b| >= 2 && !IsSpace(b[|b| - 1])
    ensures BreakLength(b) < |b|
  {}

  lemma SameBreak(b: string, more: string)
    requires |b| >= 2
    ensures BreakLength(b + more) == BreakLength(b)
  {
    assert (b + more)[0] == b[0] && (b + more)[1] == b[1];
  }

  lemma SplitWithin(a: string, b: string, c: string)
    requires BreakFree(a) && |b| >= 2 && IsBreak(b[0]) && BreakLength(b) < |b|
    ensures SplitLines(a + (b + c)) == [a] + SplitLines(b[BreakLength(b)..] + c)
  {
    SameBreak(b, c);
    assert (b + c)[0] == b[0];
    SplitAt(a, b + c);
    assert (b + c)[BreakLength(b)..] == b[BreakLength(b)..] + c;
  }

  /** A break inside a text with a visible last character leaves some of the text after it. */
  lemma SplitInside(q: string, tail: string) returns (a: string, rest: string)
    requires q != "" && !IsSpace(q[|q| - 1]) && !BreakFree(q)
    ensures 0 <= |a| < |q| && a == q[..|a|] && (!IsBreak(q[0]) ==> a != "")
    ensures rest != "" && !IsSpace(rest[|rest| - 1]) && |rest| < |q|
    ensures SplitLines(q + "\n" + tail) == [a] + SplitLines(rest + "\n" + tail)
  {
    var c := "\n" + tail;
    var b;
    a, b := AtFirstBreak(q);
    BreakLeavesText(b);
    rest := b[BreakLength(b)..];
    assert rest[|rest| - 1] == b[|b| - 1];
    SplitWithin(a, b, c);
    TailAssociates(a, b, tail);
    assert rest + "\n" + tail == rest + c;
  }

  lemma TailAssociates(a: string, b: string, tail: string)
    ensures a + b + "\n" + tail == a + (b + ("\n" + tail))
  {}

  lemma AtFirstBreak(q: string) returns (a: string, b: string)
    requires q != "" && !IsSpace(q[|q| - 1]) && !BreakFree(q)
    ensures q == a + b && BreakFree(a) && (!IsBreak(q[0]) ==> a != "")
    ensures |b| >= 2 && IsBreak(b[0]) && b[|b| - 1] == q[|q| - 1]
  {
    var n := LineLength(q);
    LineLengthStops(q);
    a, b := q[..n], q[n..];
    assert n == |q| ==> a == q;
  }

  lemma {:induction false} VisibleEndShows(q: string, tail: string)
    requires q != "" && !IsSpace(q[|q| - 1])
    ensures NonBlank(SplitLines(q + "\n" + tail)) != []
    decreases |q|
  {
    if BreakFree(q) {
      FirstRecord(q, tail);
      assert !Blank(q);
    } else {
      var a, rest := SplitInside(q, tail);
      VisibleEndShows(rest, tail);
      assert ([a] + SplitLines(rest + "\n" + tail))[1..] == SplitLines(rest + "\n" + tail);
    }
  }

  /** A record with a line break inside makes replay raise, whatever follows it. */
  lemma BrokenRecordRaises(p: string, r: Result, tail: string, dec: string -> Option<Result>,
                           loaded: map<string, Result>)
    requires IsRecord(p, r, dec) && !BreakFree(p)
    ensures Replay(NonBlank(SplitLines(p + "\n" + tail)), dec, loaded).None?
  {
    var a, rest := SplitInside(p, tail);
    assert a != "" && a[0] == '{';
    VisibleEndShows(rest, tail);
    ShownLine(a, SplitLines(rest + "\n" + tail));
    ReplayLine(a, NonBlank(SplitLines(rest + "\n" + tail)), dec, loaded);
  }

  // ---------- Main results: replay ----------

  ghost predicate AllBreakFree(rs: seq<Result>, enc: Result -> string) {
    forall i :: 0 <= i < |rs| ==> BreakFree(enc(rs[i]))
  }

  function LogFile(rs: seq<Result>, enc: Result -> string): seq<Utf8.Byte> {
    Utf8.Encode(LogText(rs, enc))
  }

  /** Loading the file gives back the in-memory map exactly when no appended record contains a
      character that splitlines breaks at; otherwise it raises. */
  lemma ReplayIffBreakFree(rs: seq<Result>, enc: Result -> string, dec: string -> Option<Result>)
    requires Framed(enc, dec)
    ensures LoadFile(LogFile(rs, enc), dec) == if AllBreakFree(rs, enc) then Some(Latest(rs, map[])) else None
  {
    LoadsText(LogText(rs, enc), dec);
    var i := FirstBroken(rs, enc);
    if i < |rs| {
      BrokenLogRaises(rs, i, enc, dec);
    } else {
      ReplayRecords(rs, "", enc, dec, map[]);
      assert LogText(rs, enc) + "" == LogText(rs, enc);
    }
  }

  lemma LogSplits(rs: seq<Result>, i: nat, enc: Result -> string)
    requires i < |rs|
    ensures LogText(rs, enc) == LogText(rs[..i], enc) + (enc(rs[i]) + "\n" + LogText(rs[i + 1..], enc))
  {
    LogTextConcat(rs[..i], rs[i..], enc);
    assert rs == rs[..i] + rs[i..] && rs[i..][0] == rs[i] && rs[i..][1..] == rs[i + 1..];
  }

  /** A record with a break character makes loading raise. */
  lemma BrokenLogRaises(rs: seq<Result>, i: nat, enc: Result -> string, dec: string -> Option<Result>)
    requires Framed(enc, dec) && i < |rs| && !BreakFree(enc(rs[i])) && AllBreakFree(rs[..i], enc)
    ensures Load(LogText(rs, enc), dec).None? && LoadFile(LogFile(rs, enc), dec).None?
  {
    LoadsText(LogText(rs, enc), dec);
    LogSplits(rs, i, enc);
    assert IsRecord(enc(rs[i]), rs[i], dec);
    ReplayRecords(rs[..i], enc(rs[i]) + "\n" + LogText(rs[i + 1..], enc), enc, dec, map[]);
    BrokenRecordRaises(enc(rs[i]), rs[i], LogText(rs[i + 1..], enc), dec, Latest(rs[..i], map[]));
  }

  lemma {:induction false} FirstBroken(rs: seq<Result>, enc: Result -> string) returns (i: nat)
    ensures i <= |rs| && (i < |rs| ==> !BreakFree(enc(rs[i]))) && AllBreakFree(rs[..i], enc)
    ensures AllBreakFree(rs, enc) <==> i == |rs|
  {
    i := 0;
    while i < |rs| && BreakFree(enc(rs[i]))
      invariant i <= |rs| && AllBreakFree(rs[..i], enc)
    {
      i := i + 1;
    }
    assert i == |rs| ==> rs[..i] == rs;
  }

  /** A file cut anywhere in the bytes of its last record: it replays to all complete records, and
      to all records if only the final newline is missing, if and only if the cut does not fall
      before a continuation byte; inside a character it raises. */
  lemma TornLogReplays(rs: seq<Result>, last: Result, cut: seq<Utf8.Byte>, enc: Result -> string,
                       dec: string -> Option<Result>)
    requires Framed(enc, dec) && AllBreakFree(rs, enc) && BreakFree(enc(last)) && cut <= Utf8.Encode(enc(last))
    ensures LoadFile(LogFile(rs, enc) + cut, dec) ==
      if !Utf8.AtBoundary(Utf8.Encode(enc(last)), |cut|) then None
      else if cut == Utf8.Encode(enc(last)) then Some(Latest(rs + [last], map[]))
      else Some(Latest(rs, map[]))
  {
    var whole := enc(last);
    Utf8.CutDecodesIff(whole, cut);
    Utf8.DecodeInvertsEncode(LogText(rs, enc), cut);
    if Utf8.Decode(cut).Some? {
      var part := Utf8.Decode(cut).value;
      Utf8.RoundTrip(whole);
      UniversalSplits(LogText(rs, enc) + part);
      TornTextReplays(rs, last, part, enc, dec);
    }
  }

  lemma TornTextReplays(rs: seq<Result>, last: Result, cut: string, enc: Result -> string,
                        dec: string -> Option<Result>)
    requires Framed(enc, dec) && AllBreakFree(rs, enc) && BreakFree(enc(last)) && cut <= enc(last)
    ensures Load(LogText(rs, enc) + cut, dec) ==
      Some(if cut == enc(last) then Latest(rs + [last], map[]) else Latest(rs, map[]))
  {
    var loaded := Latest(rs, map[]);
    ReplayRecords(rs, cut, enc, dec, map[]);
    assert IsRecord(enc(last), last, dec) && enc(last) != "";
    TornTail(cut, last, enc(last), dec, loaded);
    if cut == enc(last) {
      LatestConcat(rs, [last], map[]);
      assert [last][1..] == [] && Latest([last][1..], loaded[last.itemId := last]) == loaded[last.itemId := last];
    }
  }

  /** What is left of a record that was cut is dropped, unless it is all there. */
  lemma TornTail(cut: string, last: Result, whole: string, dec: string -> Option<Result>, loaded: map<string, Result>)
    requires IsRecord(whole, last, dec) && BreakFree(whole) && cut <= whole
    ensures Replay(NonBlank(SplitLines(cut)), dec, loaded) ==
      Some(if cut == whole then loaded[last.itemId := last] else loaded)
  {
    if cut != "" {
      assert cut == whole[..|cut|];
      LineLengthOf(cut, "");
      assert cut + "" == cut && SplitLines(cut) == [cut] + [];
      ShownLine(cut, []);
      ReplayLine(cut, [], dec, loaded);
    }
  }

  /** A process that resumes from a torn file appends to the torn line.  Unless the two pieces
      together are a record, the next load loses the first new result and, when more follow, raises. */
  lemma AppendAfterTear(rs: seq<Result>, part: string, r: Result, more: seq<Result>,
                        enc: Result -> string, dec: string -> Option<Result>)
    requires Framed(enc, dec) && AllBreakFree(rs, enc) && BreakFree(enc(r)) && AllBreakFree(more, enc)
    requires BreakFree(part) && part != "" && !IsSpace(part[0])
    ensures LoadFile(Utf8.Encode(LogText(rs, enc) + part + LogText([r] + more, enc)), dec) ==
      match dec(part + enc(r))
      case None => (if more == [] then Some(Latest(rs, map[])) else None)
      case Some(q) => Some(Latest(more, Latest(rs, map[])[q.itemId := q]))
  {
    var joined, rest := part + enc(r), LogText(more, enc);
    TearJoins(LogText(rs, enc), part, r, more, enc);
    LoadsText(LogText(rs, enc) + (joined + "\n" + rest), dec);
    LineInside(rs, joined, rest, enc, dec);
    if dec(joined).Some? {
      ReplayRecords(more, "", enc, dec, Latest(rs, map[])[dec(joined).value.itemId := dec(joined).value]);
      assert rest + "" == rest;
    } else if more != [] {
      LogShows(more, enc, dec);
    }
  }

  lemma TearJoins(text: string, part: string, r: Result, more: seq<Result>, enc: Result -> string)
    ensures text + part + LogText([r] + more, enc) == text + (part + enc(r) + "\n" + LogText(more, enc))
  {
    assert ([r] + more)[1..] == more;
  }

  /** A line that is not a record is dropped when it is the last one, and otherwise raises. */
  lemma LineInside(rs: seq<Result>, line: string, rest: string, enc: Result -> string, dec: string -> Option<Result>)
    requires Framed(enc, dec) && AllBreakFree(rs, enc) && BreakFree(line) && line != "" && !IsSpace(line[0])
    ensures Load(LogText(rs, enc) + (line + "\n" + rest), dec) ==
      match dec(line)
      case None => (if NonBlank(SplitLines(rest)) == [] then Some(Latest(rs, map[])) else None)
      case Some(q) => Replay(NonBlank(SplitLines(rest)), dec, Latest(rs, map[])[q.itemId := q])
  {
    ReplayRecords(rs, line + "\n" + rest, enc, dec, map[]);
    FirstRecord(line, rest);
    ShownLine(line, SplitLines(rest));
    ReplayLine(line, NonBlank(SplitLines(rest)), dec, Latest(rs, map[]));
  }

  lemma LogShows(rs: seq<Result>, enc: Result -> string, dec: string -> Option<Result>)
    requires rs != [] && Framed(enc, dec) && BreakFree(enc(rs[0]))
    ensures NonBlank(SplitLines(LogText(rs, enc))) != []
  {
    assert IsRecord(enc(rs[0]), rs[0], dec);
    FirstRecord(enc(rs[0]), LogText(rs[1..], enc));
    ShownLine(enc(rs[0]), SplitLines(LogText(rs[1..], enc)));
  }

  // ---------- Inputs at which loading raises ----------

  /** An object with one member, whose name is one plain character and whose value is null. */
  function Named(c: char): JsonScanner.Value {
    JsonScanner.Single(c, JsonScanner.Literal("null"))
  }

  lemma PrintsName(c: char)
    ensures JsonScanner.Print(Named(c)) == ['{', '"', c] + "\":null}"
  {
    JsonScanner.PrintsSingle(c, JsonScanner.Literal("null"));
  }

  /** Its text, and a decoder that accepts this text and nothing else. */
  lemma NamedIsRecord(c: char, r: Result) returns (p: string, dec: string -> Option<Result>)
    requires ' ' <= c && c != '"' && c != '\\'
    ensures p == ['{', '"', c] + "\":null}" && IsObjectText(p)
    ensures IsRecord(p, r, dec)
  {
    var o := Named(c);
    p := ['{', '"', c] + "\":null}";
    PrintsName(c);
    assert JsonScanner.Good(o);
    var text := p;
    dec := t => if t == text then Some(r) else None;
  }

  /** U+2028 may stand in a JSON string, and a log of one such record does not load. */
  lemma SeparatorRaises(r: Result) returns (p: string, dec: string -> Option<Result>)
    ensures p == ['{', '"', '\U{2028}'] + "\":null}" && IsObjectText(p) && IsRecord(p, r, dec)
    ensures LoadFile(Utf8.Encode(p + "\n"), dec).None?
  {
    p, dec := NamedIsRecord('\U{2028}', r);
    assert IsBreak(p[2]);
    LoadsText(p + "\n", dec);
    assert p + "\n" + "" == p + "\n";
    BrokenRecordRaises(p, r, "", dec, map[]);
  }

  lemma EncodesAccent(rest: string)
    ensures [0x7B, 0x22, 0xC3, 0xA9] <= Utf8.Encode(['{', '"', '\U{E9}'] + rest)
  {
    var s0, s1, s2 := ['{', '"', '\U{E9}'] + rest, ['"', '\U{E9}'] + rest, ['\U{E9}'] + rest;
    assert s0[1..] == s1 && s1[1..] == s2 && s2[1..] == rest;
    assert Utf8.EncodeChar('{') == [0x7B] && Utf8.EncodeChar('"') == [0x22];
    assert Utf8.EncodeChar('\U{E9}') == [0xC3, 0xA9];
    assert s0[0] == '{' && s1[0] == '"' && s2[0] == '\U{E9}';
    assert Utf8.Encode(s2) == [0xC3, 0xA9] + Utf8.Encode(rest);
    assert Utf8.Encode(s1) == [0x22] + Utf8.Encode(s2);
    assert Utf8.Encode(s0) == [0x7B] + Utf8.Encode(s1);
  }

  /** A file whose only record was cut after the first of the two bytes of U+00E9 does not load,
      although no complete record is affected. */
  lemma TornCharacterRaises(r: Result) returns (p: string, cut: seq<Utf8.Byte>, dec: string -> Option<Result>)
    ensures p == ['{', '"', '\U{E9}'] + "\":null}" && IsObjectText(p) && BreakFree(p) && IsRecord(p, r, dec)
    ensures cut == [0x7B, 0x22, 0xC3] && cut <= Utf8.Encode(p)
    ensures LoadFile(cut, dec).None?
  {
    p, dec := NamedIsRecord('\U{E9}', r);
    cut := [0x7B, 0x22, 0xC3];
    EncodesAccent("\":null}");
    Utf8.CutDecodesIff(p, cut);
  }

  // ---------- The run loop ----------

  function ToRun(items: seq<string>, done: set<string>): seq<string> {
    if items == [] then []
    else (if items[0] in done then [] else [items[0]]) + ToRun(items[1..], done)
  }

  /** The report: results in planned order, whatever order they were produced in. */
  function Ordered(items: seq<string>, results: map<string, Result>): seq<Result> {
    if items == [] then []
    else (if items[0] in results then [results[items[0]]] else []) + Ordered(items[1..], results)
  }

  ghost predicate Distinct(rs: seq<Result>) {
    forall i, j :: 0 <= i < j < |rs| ==> rs[i].itemId != rs[j].itemId
  }

  /** One process: it finishes some of the items to run, each once, in any completion order. */
  ghost predicate Session(items: seq<string>, done: map<string, Result>, completions: seq<Result>) {
    Distinct(completions) && forall i :: 0 <= i < |completions| ==> completions[i].itemId in ToRun(items, done.Keys)
  }

  class EvalCheckpointStore {
    const enc: Result -> string
    const dec: string -> Option<Result>
    var file: seq<Utf8.Byte>

    constructor (enc: Result -> string, dec: string -> Option<Result>)
      ensures file == [] && this.enc == enc && this.dec == dec
    {
      this.enc, this.dec, file := enc, dec, [];
    }

    /** One record and one newline more, at the end of whatever the file holds. */
    method AppendResult(result: Result)
      modifies this
      ensures file == old(file) + LogFile([result], enc)
    {
      file := file + Utf8.Encode(enc(result));
      file := file + Utf8.Encode("\n");
      Utf8.EncodeConcat(enc(result), "\n");
      assert LogText([result], enc) == enc(result) + "\n" by {
        assert [result][1..] == [] && enc(result) + "\n" + "" == enc(result) + "\n";
      }
    }

    /** The resume path of `run`, from any file: load, select the unfinished items, then record each
        result as it completes.  `completions` is what this process finishes before it ends. */
    method Resume(items: seq<string>, completions: seq<Result>)
      returns (results: Option<map<string, Result>>, toRun: seq<string>)
      requires LoadFile(file, dec).Some? ==> Session(items, LoadFile(file, dec).value, completions)
      modifies this
      ensures results.None? <==> old(LoadFile(file, dec)).None?
      ensures results.None? ==> file == old(file) && toRun == []
      ensures results.Some? ==>
        && file == Extended(old(file), completions, enc)
        && toRun == ToRun(items, old(LoadFile(file, dec)).value.Keys)
        && results.value == Latest(completions, old(LoadFile(file, dec)).value)
    {
      toRun := [];
      results := LoadResults(file, dec);
      if results.None? {
        return;
      }
      toRun := ToRun(items, results.value.Keys);
      var resultsByItemId := results.value;
      NoMoreRecords(file, completions, enc);
      for i := 0 to |completions|
        invariant file == Extended(old(file), completions[..i], enc)
        invariant resultsByItemId == Latest(completions[..i], results.value)
      {
        AppendResult(completions[i]);
        OneMoreRecord(old(file), completions, i, enc, results.value);
        resultsByItemId := resultsByItemId[completions[i].itemId := completions[i]];
      }
      results := Some(resultsByItemId);
    }
  }

  /** A file with some records more. */
  function Extended(file: seq<Utf8.Byte>, rs: seq<Result>, enc: Result -> string): seq<Utf8.Byte> {
    file + LogFile(rs, enc)
  }

  lemma NoMoreRecords(file: seq<Utf8.Byte>, rs: seq<Result>, enc: Result -> string)
    ensures Extended(file, rs[..0], enc) == file && rs[..|rs|] == rs
  {
    assert rs[..0] == [] && file + [] == file;
  }

  lemma OneMoreRecord(file: seq<Utf8.Byte>, rs: seq<Result>, i: nat, enc: Result -> string, start: map<string, Result>)
    requires i < |rs|
    ensures Extended(file, rs[..i + 1], enc) == Extended(file, rs[..i], enc) + LogFile([rs[i]], enc)
    ensures Latest(rs[..i + 1], start) == Latest(rs[..i], start)[rs[i].itemId := rs[i]]
  {
    assert rs[..i + 1] == rs[..i] + [rs[i]];
    LogTextConcat(rs[..i], [rs[i]], enc);
    Utf8.EncodeConcat(LogText(rs[..i], enc), LogText([rs[i]], enc));
    LatestConcat(rs[..i], [rs[i]], start);
    LatestOfOne(rs[i], Latest(rs[..i], start));
    var a, b := LogFile(rs[..i], enc), LogFile([rs[i]], enc);
    assert file + (a + b) == file + a + b;
  }

  lemma LatestOfOne(r: Result, start: map<string, Result>)
    ensures Latest([r], start) == start[r.itemId := r]
  {
    assert [r][1..] == [];
  }

  // ---------- Main results: resuming ----------

  /** A series of processes, each of which loads the file that the earlier ones left, and stops at
      once when that raises. */
  ghost predicate Sessions(items: seq<string>, before: seq<Result>, sessions: seq<seq<Result>>,
                           enc: Result -> string, dec: string -> Option<Result>)
    decreases sessions
  {
    sessions == [] ||
    var loaded := LoadFile(LogFile(before, enc), dec);
    && loaded.Some? && Session(items, loaded.value, sessions[0])
    && Sessions(items, before + sessions[0], sessions[1..], enc, dec)
  }

  function Flatten(sessions: seq<seq<Result>>): seq<Result> {
    if sessions == [] then [] else sessions[0] + Flatten(sessions[1..])
  }

  lemma {:induction false} ToRunFacts(items: seq<string>, done: set<string>)
    ensures forall x :: x in ToRun(items, done) <==> x in items && x !in done
  {
    if items != [] {
      ToRunFacts(items[1..], done);
    }
  }

  lemma {:induction false} LatestFacts(rs: seq<Result>, start: map<string, Result>)
    requires Distinct(rs) && forall i :: 0 <= i < |rs| ==> rs[i].itemId !in start
    ensures Latest(rs, start).Keys == start.Keys + set r | r in rs :: r.itemId
    ensures forall r :: r in rs ==> Latest(rs, start)[r.itemId] == r
    ensures forall x :: x in start ==> Latest(rs, start)[x] == start[x]
  {
    if rs != [] {
      LatestFacts(rs[1..], start[rs[0].itemId := rs[0]]);
      assert forall r :: r in rs <==> r == rs[0] || r in rs[1..];
    }
  }

  /** However the work is cut into processes and in whatever order items complete, no item is
      run twice. */
  lemma {:induction false} NeverRunTwice(items: seq<string>, before: seq<Result>, sessions: seq<seq<Result>>,
                                         enc: Result -> string, dec: string -> Option<Result>)
    requires Framed(enc, dec) && Sessions(items, before, sessions, enc, dec) && Distinct(before)
    ensures Distinct(before + Flatten(sessions))
    decreases |sessions|
  {
    if sessions == [] {
      assert before + Flatten(sessions) == before;
    } else {
      ReplayIffBreakFree(before, enc, dec);
      SessionIsNew(items, before, sessions[0]);
      NeverRunTwice(items, before + sessions[0], sessions[1..], enc, dec);
      FlattenSplits(before, sessions);
    }
  }

  lemma FlattenSplits(before: seq<Result>, sessions: seq<seq<Result>>)
    requires sessions != []
    ensures before + Flatten(sessions) == before + sessions[0] + Flatten(sessions[1..])
  {}

  /** Only planned items are run. */
  lemma {:induction false} OnlyPlannedItems(items: seq<string>, before: seq<Result>, sessions: seq<seq<Result>>,
                                            r: Result, enc: Result -> string, dec: string -> Option<Result>)
    requires Sessions(items, before, sessions, enc, dec) && r in Flatten(sessions)
    ensures r.itemId in items
    decreases |sessions|
  {
    if r in sessions[0] {
      ToRunFacts(items, LoadFile(LogFile(before, enc), dec).value.Keys);
    } else {
      OnlyPlannedItems(items, before + sessions[0], sessions[1..], r, enc, dec);
    }
  }

  lemma SessionIsNew(items: seq<string>, before: seq<Result>, session: seq<Result>)
    requires Session(items, Latest(before, map[]), session) && Distinct(before)
    ensures Distinct(before + session)
  {
    var done := Latest(before, map[]).Keys;
    LatestFacts(before, map[]);
    ToRunFacts(items, done);
    forall i, j | 0 <= i < |before| && 0 <= j < |session|
      ensures before[i].itemId != session[j].itemId
    {
      assert before[i] in before && session[j].itemId in ToRun(items, done);
    }
  }

  /** The file after all sessions loads exactly when its records are break-free, and then the report
      made from it has one result per planned item, in planned order: that of a run that was never
      interrupted. */
  lemma ResumeEqualsUninterrupted(items: seq<string>, sessions: seq<seq<Result>>, outcome: string -> Result,
                                  enc: Result -> string, dec: string -> Option<Result>)
    requires Framed(enc, dec) && Sessions(items, [], sessions, enc, dec)
    requires forall r :: r in Flatten(sessions) ==> r == outcome(r.itemId)
    requires forall x :: x in items ==> exists r :: r in Flatten(sessions) && r.itemId == x
    ensures var loaded := LoadFile(LogFile(Flatten(sessions), enc), dec);
      && (loaded.Some? <==> AllBreakFree(Flatten(sessions), enc))
      && (loaded.Some? ==>
            Ordered(items, loaded.value) == seq(|items|, i requires 0 <= i < |items| => outcome(items[i])))
  {
    var rs := Flatten(sessions);
    ReplayIffBreakFree(rs, enc, dec);
    NeverRunTwice(items, [], sessions, enc, dec);
    assert [] + rs == rs;
    LatestFacts(rs, map[]);
    forall x | x in items
      ensures x in Latest(rs, map[]) && Latest(rs, map[])[x] == outcome(x)
    {
      var r :| r in rs && r.itemId == x;
    }
    OrderedIsPlanned(items, Latest(rs, map[]), outcome);
  }

  lemma {:induction false} OrderedIsPlanned(items: seq<string>, results: map<string, Result>, outcome: string -> Result)
    requires forall x :: x in items ==> x in results && results[x] == outcome(x)
    ensures Ordered(items, results) == seq(|items|, i requires 0 <= i < |items| => outcome(items[i]))
  {
    if items != [] {
      assert items[0] in items && forall x :: x in items[1..] ==> x in items;
      OrderedIsPlanned(items[1..], results, outcome);
    }
  }
}
