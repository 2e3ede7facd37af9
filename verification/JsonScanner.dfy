/**
  Finding a JSON object inside the free text of a model response.

  `_scan_json_object` runs a brace-depth, string and escape automaton from one "{" to the
  brace that closes it, and hands the candidate to `json.loads`.  The module relates that
  automaton to the grammar of RFC 8259 (sections 2 to 7), given as a syntax tree that keeps
  insignificant whitespace and every spelling of a string.  The grammar is widened by the three
  words that Python's parsers take for floats.

  `json.loads` is not modelled: it is the parameter `loads`.  It accepts a text, rejects it with
  a JSONDecodeError, or raises something else (a RecursionError on deep nesting, a ValueError
  on an integer with too many digits), which the scanner does not catch.
  */
module JsonScanner {
  import opened Options

  // ---------- The automaton ----------

  datatype Scan = Scan(depth: int, inString: bool, escaped: bool)

  const START := Scan(0, false, false)

  function Next(s: Scan, c: char): Scan {
    if s.inString then
      if s.escaped then s.(escaped := false)
      else if c == '\\' then s.(escaped := true)
      else if c == '"' then s.(inString := false)
      else s
    else if c == '"' then s.(inString := true)
    else if c == '{' then s.(depth := s.depth + 1)
    else if c == '}' then s.(depth := s.depth - 1)
    else s
  }

  /** The scan stops at a "}" outside strings that brings the depth back to zero. */
  predicate Closes(s: Scan, c: char) {
    !s.inString && c == '}' && s.depth == 1
  }

  function Feed(s: Scan, t: string): Scan
    decreases t
  {
    if t == "" then s else Feed(Next(s, t[0]), t[1..])
  }

  function FirstClose(s: Scan, t: string): (r: Option<nat>)
    ensures r.Some? ==> r.value < |t|
    decreases t
  {
    if t == "" then None
    else if Closes(s, t[0]) then Some(0)
    else match FirstClose(Next(s, t[0]), t[1..])
      case None => None
      case Some(i) => Some(i + 1)
  }

  /** `json.loads` on a candidate. */
  datatype Verdict = Accepts | Rejects | Raises

  /** An object's text; nothing; or an exception that is not caught. */
  datatype Scanned = Found(text: string) | Nothing | Broke

  function Judged(candidate: string, loads: string -> Verdict): Scanned {
    match loads(candidate)
    case Accepts => Found(candidate)
    case Rejects => Nothing
    case Raises => Broke
  }

  /** What a scan of `text` from `start` yields. */
  function ScanFrom(text: string, start: nat, loads: string -> Verdict): Scanned
    requires start <= |text|
  {
    match FirstClose(START, text[start..])
    case None => Nothing
    case Some(i) => Judged(text[start..start + i + 1], loads)
  }

  /** The automaton has read up to `index` and has not stopped. */
  predicate ReadTo(text: string, start: nat, index: nat, s: Scan) {
    && start <= index <= |text| && s == Feed(START, text[start..index])
    && FirstClose(START, text[start..]) ==
         match FirstClose(s, text[index..])
         case None => None
         case Some(i) => Some(index - start + i)
  }

  lemma ReadsOn(text: string, start: nat, index: nat, s: Scan)
    requires ReadTo(text, start, index, s) && index < |text|
    ensures if Closes(s, text[index]) then FirstClose(START, text[start..]) == Some(index - start)
            else ReadTo(text, start, index + 1, Next(s, text[index]))
  {
    FeedSnoc(START, text[start..index], text[index]);
    assert text[start..index + 1] == text[start..index] + [text[index]];
    assert text[index..][1..] == text[index + 1..];
  }

  method ScanJsonObject(text: string, start: nat, loads: string -> Verdict) returns (r: Scanned)
    requires start <= |text|
    ensures r == ScanFrom(text, start, loads)
  {
    var depth := 0;
    var inString := false;
    var escaped := false;
    assert text[start..start] == "";
    for index := start to |text|
      invariant ReadTo(text, start, index, Scan(depth, inString, escaped))
    {
      var character := text[index];
      ReadsOn(text, start, index, Scan(depth, inString, escaped));
      if inString {
        if escaped {
          escaped := false;
        } else if character == '\\' {
          escaped := true;
        } else if character == '"' {
          inString := false;
        }
        continue;
      }
      if character == '"' {
        inString := true;
      } else if character == '{' {
        depth := depth + 1;
      } else if character == '}' {
        depth := depth - 1;
        if depth == 0 {
          return Judged(text[start..index + 1], loads);
        }
      }
    }
    r := Nothing;
  }

  /** A brace from which the scan finds an object or breaks. */
  predicate Decides(text: string, i: nat, loads: string -> Verdict) {
    i < |text| && text[i] == '{' && !ScanFrom(text, i, loads).Nothing?
  }

  ghost predicate DecidesFirst(text: string, i: nat, loads: string -> Verdict) {
    Decides(text, i, loads) && forall j: nat :: j < i ==> !Decides(text, j, loads)
  }

  /** `Nothing` is the BenchmarkJsonError. */
  method ExtractFirstJsonObject(text: string, loads: string -> Verdict) returns (r: Scanned)
    ensures r.Nothing? <==> forall i: nat :: !Decides(text, i, loads)
    ensures forall i: nat :: DecidesFirst(text, i, loads) ==> r == ScanFrom(text, i, loads)
  {
    for index := 0 to |text|
      invariant forall j: nat :: j < index ==> !Decides(text, j, loads)
    {
      if text[index] == '{' {
        var parsed := ScanJsonObject(text, index, loads);
        if !parsed.Nothing? {
          assert Decides(text, index, loads);
          assert forall i: nat :: DecidesFirst(text, i, loads) ==> i == index;
          return parsed;
        }
      }
    }
    r := Nothing;
  }

  lemma {:induction false} FeedSnoc(s: Scan, t: string, c: char)
    ensures Feed(s, t + [c]) == Next(Feed(s, t), c)
    decreases t
  {
    if t == "" {
      assert t + [c] == [c];
      assert [c][1..] == "";
    } else {
      assert (t + [c])[1..] == t[1..] + [c];
      FeedSnoc(Next(s, t[0]), t[1..], c);
    }
  }

  lemma {:induction false} FeedConcat(s: Scan, a: string, b: string)
    ensures Feed(s, a + b) == Feed(Feed(s, a), b)
    ensures FirstClose(s, a).Some? ==> FirstClose(s, a + b) == FirstClose(s, a)
    ensures FirstClose(s, a).None? ==>
      FirstClose(s, a + b) == (match FirstClose(Feed(s, a), b) case None => None case Some(i) => Some(|a| + i))
    decreases a
  {
    if a == "" {
      assert a + b == b;
    } else {
      assert (a + b)[1..] == a[1..] + b;
      FeedConcat(Next(s, a[0]), a[1..], b);
    }
  }

  // ---------- The grammar of RFC 8259 ----------

  datatype StrChar = Plain(c: char) | Escape(c: char) | Unicode(hex: string)

  datatype Exponent = Exponent(mark: char, sign: string, digits: string)

  datatype Value =
    | Literal(word: string)
    | Number(minus: bool, whole: string, fraction: Option<string>, exponent: Option<Exponent>)
    | Str(chars: seq<StrChar>)
    | Array(gap: string, items: Items)
    | Object(gap: string, members: Members)

  /** Each element carries the whitespace around it. */
  datatype Items = NoItems | Item(lead: string, value: Value, trail: string, rest: Items)

  datatype Members = NoMembers
    | Member(lead: string, key: seq<StrChar>, mid: string, value: Value, trail: string, rest: Members)

  predicate IsWs(t: string) {
    forall i :: 0 <= i < |t| ==> t[i] in " \t\n\r"
  }

  predicate IsDigits(t: string) {
    t != "" && forall i :: 0 <= i < |t| ==> '0' <= t[i] <= '9'
  }

  predicate GoodChar(c: StrChar) {
    match c
    case Plain(p) => ' ' <= p && p != '"' && p != '\\'
    case Escape(e) => e in "\"\\/bfnrt"
    case Unicode(h) => |h| == 4 && forall i :: 0 <= i < 4 ==> IsHex(h[i])
  }

  predicate IsHex(c: char) {
    '0' <= c <= '9' || 'a' <= c <= 'f' || 'A' <= c <= 'F'
  }

  predicate GoodStr(cs: seq<StrChar>) {
    forall i :: 0 <= i < |cs| ==> GoodChar(cs[i])
  }

  predicate Good(v: Value) {
    match v
    case Literal(w) => w in {"true", "false", "null", "NaN", "Infinity", "-Infinity"}
    case Number(_, whole, fraction, exponent) =>
      && IsDigits(whole) && (whole[0] == '0' ==> |whole| == 1)
      && (fraction.Some? ==> IsDigits(fraction.value))
      && (exponent.Some? ==>
            exponent.value.mark in "eE" && exponent.value.sign in {"", "+", "-"} && IsDigits(exponent.value.digits))
    case Str(cs) => GoodStr(cs)
    case Array(gap, items) => IsWs(gap) && GoodItems(items)
    case Object(gap, members) => IsWs(gap) && GoodMembers(members)
  }

  predicate GoodItems(items: Items) {
    items.Item? ==> IsWs(items.lead) && Good(items.value) && IsWs(items.trail) && GoodItems(items.rest)
  }

  predicate GoodMembers(ms: Members) {
    ms.Member? ==>
      && IsWs(ms.lead) && GoodStr(ms.key) && IsWs(ms.mid)
      && Good(ms.value) && IsWs(ms.trail) && GoodMembers(ms.rest)
  }

  function PrintChar(c: StrChar): string {
    match c
    case Plain(p) => [p]
    case Escape(e) => ['\\', e]
    case Unicode(h) => "\\u" + h
  }

  function PrintChars(cs: seq<StrChar>): string {
    if cs == [] then "" else PrintChar(cs[0]) + PrintChars(cs[1..])
  }

  function PrintStr(cs: seq<StrChar>): string {
    "\"" + PrintChars(cs) + "\""
  }

  function PrintNumber(v: Value): string
    requires v.Number?
  {
    (if v.minus then "-" else "") + v.whole
    + (if v.fraction.Some? then "." + v.fraction.value else "")
    + (if v.exponent.Some? then [v.exponent.value.mark] + v.exponent.value.sign + v.exponent.value.digits else "")
  }

  function Print(v: Value): string {
    match v
    case Literal(w) => w
    case Number(_, _, _, _) => PrintNumber(v)
    case Str(cs) => PrintStr(cs)
    case Array(gap, items) => "[" + gap + PrintItems(items) + "]"
    case Object(gap, members) => "{" + (gap + PrintMembers(members)) + "}"
  }

  function PrintItems(items: Items): string {
    match items
    case NoItems => ""
    case Item(lead, v, trail, rest) =>
      lead + Print(v) + trail + (if rest.NoItems? then "" else "," + PrintItems(rest))
  }

  function PrintMembers(ms: Members): string {
    match ms
    case NoMembers => ""
    case Member(lead, key, mid, v, trail, rest) =>
      lead + PrintStr(key) + mid + ":" + Print(v) + trail + (if rest.NoMembers? then "" else "," + PrintMembers(rest))
  }

  // ---------- What a piece of text does to the automaton ----------

  /** Read at depth `d` outside strings, `t` closes nothing and leaves the state as it was. */
  predicate Keeps(t: string, d: int) {
    FirstClose(Scan(d, false, false), t).None? && Feed(Scan(d, false, false), t) == Scan(d, false, false)
  }

  lemma KeepsConcat(a: string, b: string, d: int)
    requires Keeps(a, d) && Keeps(b, d)
    ensures Keeps(a + b, d)
  {
    FeedConcat(Scan(d, false, false), a, b);
  }

  lemma {:induction false} QuietKeeps(t: string, d: int)
    requires forall i :: 0 <= i < |t| ==> t[i] != '"' && t[i] != '{' && t[i] != '}'
    ensures Keeps(t, d)
  {
    if t != "" {
      QuietKeeps(t[1..], d);
    }
  }

  lemma {:induction false} HexStaysInString(h: string, d: int)
    requires forall i :: 0 <= i < |h| ==> h[i] != '"' && h[i] != '\\'
    ensures FirstClose(Scan(d, true, false), h).None? && Feed(Scan(d, true, false), h) == Scan(d, true, false)
    decreases h
  {
    if h != "" {
      HexStaysInString(h[1..], d);
    }
  }

  /** Read inside a string, `t` closes nothing and stays inside. */
  predicate StaysInString(t: string, d: int) {
    FirstClose(Scan(d, true, false), t).None? && Feed(Scan(d, true, false), t) == Scan(d, true, false)
  }

  lemma EscapeStaysInString(e: char, d: int)
    ensures StaysInString(['\\', e], d)
  {
    var p := ['\\', e];
    assert p[1..] == [e] && [e][1..] == "";
    assert Feed(Scan(d, true, true), [e]) == Scan(d, true, false) && FirstClose(Scan(d, true, true), [e]).None?;
  }

  lemma UnicodeStaysInString(h: string, d: int)
    requires GoodChar(Unicode(h))
    ensures StaysInString("\\u" + h, d)
  {
    assert forall i :: 0 <= i < |h| ==> IsHex(h[i]);
    HexStaysInString(h, d);
    EscapeStaysInString('u', d);
    FeedConcat(Scan(d, true, false), ['\\', 'u'], h);
    assert "\\u" + h == ['\\', 'u'] + h;
  }

  lemma CharStaysInString(c: StrChar, d: int)
    requires GoodChar(c)
    ensures StaysInString(PrintChar(c), d)
  {
    match c
    case Plain(q) =>
      assert [q][1..] == "";
    case Escape(e) => EscapeStaysInString(e, d);
    case Unicode(h) => UnicodeStaysInString(h, d);
  }

  lemma {:induction false} CharsStayInString(cs: seq<StrChar>, d: int)
    requires GoodStr(cs)
    ensures StaysInString(PrintChars(cs), d)
  {
    if cs != [] {
      var s, p := Scan(d, true, false), PrintChar(cs[0]);
      CharStaysInString(cs[0], d);
      CharsStayInString(cs[1..], d);
      FeedConcat(s, p, PrintChars(cs[1..]));
    }
  }

  lemma StrKeeps(cs: seq<StrChar>, d: int)
    requires GoodStr(cs)
    ensures Keeps(PrintStr(cs), d)
  {
    var s := Scan(d, false, false);
    CharsStayInString(cs, d);
    FeedConcat(s, "\"", PrintChars(cs));
    FeedConcat(s, "\"" + PrintChars(cs), "\"");
  }

  lemma NumberKeeps(v: Value, d: int)
    requires v.Number? && Good(v)
    ensures Keeps(PrintNumber(v), d)
  {
    QuietKeeps(PrintNumber(v), d);
  }

  lemma BracesKeep(body: string, d: int)
    requires d >= 1 && Keeps(body, d + 1)
    ensures Keeps("{" + body + "}", d)
  {
    var s := Scan(d, false, false);
    FeedConcat(s, "{", body);
    FeedConcat(s, "{" + body, "}");
  }

  lemma {:induction false} ValueKeeps(v: Value, d: int)
    requires Good(v) && d >= 1
    ensures Keeps(Print(v), d)
    decreases v
  {
    match v
    case Literal(w) => QuietKeeps(w, d);
    case Number(_, _, _, _) => NumberKeeps(v, d);
    case Str(cs) => StrKeeps(cs, d);
    case Array(gap, items) =>
      QuietKeeps("[" + gap, d);
      ItemsKeep(items, d);
      QuietKeeps("]", d);
      KeepsConcat("[" + gap, PrintItems(items), d);
      KeepsConcat("[" + gap + PrintItems(items), "]", d);
    case Object(gap, members) =>
      QuietKeeps(gap, d + 1);
      MembersKeep(members, d + 1);
      KeepsConcat(gap, PrintMembers(members), d + 1);
      BracesKeep(gap + PrintMembers(members), d);
  }

  lemma {:induction false} ItemsKeep(items: Items, d: int)
    requires GoodItems(items) && d >= 1
    ensures Keeps(PrintItems(items), d)
    decreases items
  {
    match items
    case NoItems =>
    case Item(lead, v, trail, rest) =>
      QuietKeeps(lead, d);
      ValueKeeps(v, d);
      QuietKeeps(trail, d);
      ItemsKeep(rest, d);
      QuietKeeps(",", d);
      KeepsConcat(lead, Print(v), d);
      KeepsConcat(lead + Print(v), trail, d);
      KeepsConcat(",", PrintItems(rest), d);
      KeepsConcat(lead + Print(v) + trail, if rest.NoItems? then "" else "," + PrintItems(rest), d);
  }

  lemma {:induction false} MembersKeep(ms: Members, d: int)
    requires GoodMembers(ms) && d >= 1
    ensures Keeps(PrintMembers(ms), d)
    decreases ms
  {
    match ms
    case NoMembers =>
    case Member(lead, key, mid, v, trail, rest) =>
      QuietKeeps(lead, d);
      StrKeeps(key, d);
      QuietKeeps(mid, d);
      QuietKeeps(":", d);
      ValueKeeps(v, d);
      QuietKeeps(trail, d);
      MembersKeep(rest, d);
      QuietKeeps(",", d);
      KeepsConcat(lead, PrintStr(key), d);
      KeepsConcat(lead + PrintStr(key), mid, d);
      KeepsConcat(lead + PrintStr(key) + mid, ":", d);
      KeepsConcat(lead + PrintStr(key) + mid + ":", Print(v), d);
      KeepsConcat(lead + PrintStr(key) + mid + ":" + Print(v), trail, d);
      KeepsConcat(",", PrintMembers(rest), d);
      KeepsConcat(lead + PrintStr(key) + mid + ":" + Print(v) + trail,
                  if rest.NoMembers? then "" else "," + PrintMembers(rest), d);
  }

  // ---------- Main results ----------

  lemma FirstCloseCons(s: Scan, c: char, t: string)
    ensures FirstClose(s, [c] + t) ==
      if Closes(s, c) then Some(0)
      else match FirstClose(Next(s, c), t)
        case None => None
        case Some(i) => Some(i + 1)
  {
    assert ([c] + t)[1..] == t;
  }

  /** From `s`, a text that opens with `open` and goes on with a body that keeps the depth and a
      closing brace. */
  lemma BodyCloses(s: Scan, open: char, body: string, close: char, post: string)
    requires !Closes(s, open) && Next(s, open) == Scan(1, false, false) && Keeps(body, 1)
    requires Closes(Scan(1, false, false), close)
    ensures FirstClose(s, [open] + (body + ([close] + post))) == Some(|body| + 1)
  {
    FirstCloseCons(s, open, body + ([close] + post));
    FeedConcat(Next(s, open), body, [close] + post);
    FirstCloseCons(Next(s, open), close, post);
  }

  /** A printed object closes at its own last brace, whatever follows it. */
  lemma ObjectCloses(o: Value, post: string)
    requires o.Object? && Good(o)
    ensures FirstClose(START, Print(o) + post) == Some(|Print(o)| - 1)
  {
    var body := o.gap + PrintMembers(o.members);
    QuietKeeps(o.gap, 1);
    MembersKeep(o.members, 1);
    KeepsConcat(o.gap, PrintMembers(o.members), 1);
    BodyCloses(START, '{', body, '}', post);
    assert Print(o) + post == ['{'] + (body + (['}'] + post));
  }

  /** Scanning from an object's first brace returns exactly its printed text. */
  lemma ScanFindsObject(pre: string, o: Value, post: string, loads: string -> Verdict)
    requires o.Object? && Good(o)
    ensures ScanFrom(pre + Print(o) + post, |pre|, loads) == Judged(Print(o), loads)
  {
    var text := pre + Print(o) + post;
    assert text[|pre|..] == Print(o) + post;
    ObjectCloses(o, post);
    assert text[|pre|..|pre| + |Print(o)|] == Print(o);
  }

  /** A scan that comes to a decision has read its candidate and nothing more: neither the text
      before its start nor the text after the closing brace matters. */
  lemma ScanIsLocal(pre: string, t: string, post: string, loads: string -> Verdict)
    requires FirstClose(START, t).Some?
    ensures ScanFrom(pre + t + post, |pre|, loads) == ScanFrom(t, 0, loads)
  {
    var text := pre + t + post;
    assert t[0..] == t && text[|pre|..] == t + post;
    FeedConcat(START, t, post);
    var i := FirstClose(START, t).value;
    assert text[|pre|..|pre| + i + 1] == t[..i + 1];
  }

  predicate ClosesAt(s: Scan, t: string, k: nat)
    requires k < |t|
  {
    Closes(Feed(s, t[..k]), t[k])
  }

  /** The scan's meaning without its stopping rule: the result ends at the first brace, outside
      strings, that balances the braces read so far. */
  lemma {:induction false} FirstCloseIsFirstBalance(s: Scan, t: string, n: nat)
    ensures FirstClose(s, t) == Some(n) <==>
      n < |t| && ClosesAt(s, t, n) && forall k :: 0 <= k < n ==> !ClosesAt(s, t, k)
    decreases t
  {
    if t != "" {
      var s', t' := Next(s, t[0]), t[1..];
      assert t[..0] == "" && ClosesAt(s, t, 0) == Closes(s, t[0]);
      forall k | 0 <= k < |t'|
        ensures ClosesAt(s, t, k + 1) == ClosesAt(s', t', k)
      {
        assert t[..k + 1][1..] == t'[..k];
      }
      if n > 0 {
        FirstCloseIsFirstBalance(s', t', n - 1);
        assert forall k :: 0 < k < |t| ==> ClosesAt(s, t, k) == ClosesAt(s', t', k - 1);
        assert forall k :: 0 <= k < |t'| ==> ClosesAt(s', t', k) == ClosesAt(s, t, k + 1);
      }
    }
  }

  /** The first brace that decides. */
  lemma FirstDecides(text: string, k: nat, loads: string -> Verdict) returns (i: nat)
    requires Decides(text, k, loads)
    ensures i <= k && DecidesFirst(text, i, loads)
  {
    i := 0;
    while !Decides(text, i, loads)
      invariant i <= k && forall j: nat :: j < i ==> !Decides(text, j, loads)
      decreases k - i
    {
      i := i + 1;
    }
  }

  /** If an object that `json.loads` accepts occurs anywhere, some brace at or before it decides, so
      there is no error for a missing object; and extraction succeeds if and only if no scan that
      starts before the object breaks before another one finds something. */
  lemma ExtractionSucceeds(pre: string, o: Value, post: string, loads: string -> Verdict) returns (i: nat)
    requires o.Object? && Good(o) && loads(Print(o)).Accepts?
    ensures var text := pre + Print(o) + post;
      && i <= |pre| && DecidesFirst(text, i, loads)
      && (ScanFrom(text, i, loads).Found? <==>
            forall k :: 0 <= k < |pre| && text[k] == '{' && ScanFrom(text, k, loads).Broke? ==>
              exists j :: 0 <= j < k && text[j] == '{' && ScanFrom(text, j, loads).Found?)
  {
    var text := pre + Print(o) + post;
    ScanFindsObject(pre, o, post, loads);
    assert text[|pre|] == Print(o)[0] == '{';
    i := FirstDecides(text, |pre|, loads);
    if ScanFrom(text, i, loads).Broke? {
      forall j | 0 <= j < i && text[j] == '{'
        ensures !ScanFrom(text, j, loads).Found?
      {
        assert !Decides(text, j, loads);
      }
    } else {
      forall k | 0 <= k < |pre| && text[k] == '{' && ScanFrom(text, k, loads).Broke?
        ensures exists j :: 0 <= j < k && text[j] == '{' && ScanFrom(text, j, loads).Found?
      {
        assert Decides(text, k, loads);
        assert i < k;
      }
    }
  }

  /** A candidate on which `json.loads` breaks makes extraction break, whatever follows it. */
  lemma EarlierCandidateBreaks(candidate: Value, rest: string, loads: string -> Verdict)
    requires candidate.Object? && Good(candidate) && loads(Print(candidate)).Raises?
    ensures DecidesFirst(Print(candidate) + rest, 0, loads) && ScanFrom(Print(candidate) + rest, 0, loads) == Broke
  {
    ScanFindsObject("", candidate, rest, loads);
    assert "" + Print(candidate) + rest == Print(candidate) + rest;
    assert (Print(candidate) + rest)[0] == Print(candidate)[0] == '{';
  }

  /** An object with one member, whose name is one character. */
  function Single(c: char, v: Value): Value {
    Object("", Member("", [Plain(c)], "", v, "", NoMembers))
  }

  /** An integer of 4301 digits, one more than `int` converts, before an object without fault: the
      first one breaks, although the second would be found. */
  lemma HugeNumberBreaks() returns (huge: Value, small: Value, loads: string -> Verdict)
    ensures huge == Single('n', Number(false, seq(4301, _ => '1'), None, None)) && small == Single('n', Literal("null"))
    ensures Good(huge) && Good(small) && loads(Print(huge)).Raises? && loads(Print(small)).Accepts?
    ensures var text := Print(huge) + Print(small);
      && DecidesFirst(text, 0, loads) && ScanFrom(text, 0, loads) == Broke
      && ScanFrom(text, |Print(huge)|, loads) == Found(Print(small))
  {
    var digits := seq(4301, _ => '1');
    huge, small := Single('n', Number(false, digits, None, None)), Single('n', Literal("null"));
    var faulty, sound := Print(huge), Print(small);
    PrintsSingle('n', Number(false, digits, None, None));
    PrintsSingle('n', Literal("null"));
    assert |faulty| != |sound|;
    loads := t => if t == faulty then Raises else if t == sound then Accepts else Rejects;
    EarlierCandidateBreaks(huge, sound, loads);
    ScanFindsObject(faulty, small, "", loads);
    assert faulty + sound + "" == faulty + sound;
  }

  lemma PrintsKey(c: char)
    ensures PrintStr([Plain(c)]) == ['"', c, '"']
  {
    var name := [Plain(c)];
    assert name[1..] == [] && PrintChars(name) == [c] + PrintChars([]) == [c];
  }

  lemma PrintsSingle(c: char, v: Value)
    ensures Print(Single(c, v)) == ['{', '"', c, '"', ':'] + Print(v) + "}"
  {
    var key, body := PrintStr([Plain(c)]), Print(v);
    PrintsKey(c);
    assert PrintMembers(Single(c, v).members) == "" + key + "" + ":" + body + "" + "";
    assert "" + key + "" + ":" + body + "" + "" == ['"', c, '"', ':'] + body;
  }

  /** No printed object is a proper prefix of a text that starts with another one. */
  lemma ObjectsArePrefixFree(o: Value, p: Value, x: string, y: string)
    requires o.Object? && Good(o) && p.Object? && Good(p)
    requires Print(o) + x == Print(p) + y
    ensures Print(o) == Print(p) && x == y
  {
    ObjectCloses(o, x);
    ObjectCloses(p, y);
    assert |Print(o)| == |Print(p)|;
    assert Print(o) == (Print(o) + x)[..|Print(o)|] && Print(p) == (Print(p) + y)[..|Print(p)|];
    assert x == (Print(o) + x)[|Print(o)|..] && y == (Print(p) + y)[|Print(p)|..];
  }
}
