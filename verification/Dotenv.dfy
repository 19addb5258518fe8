/**
 The runtime environment file: quoting and reading one value, and writing and reading the whole file.
 Strings are sequences of Unicode scalar values; None stands for HarnessError.
 */
module Dotenv {
  import opened Options

  const BELL := '\U{07}'
  const BACKSPACE := '\U{08}'
  const TAB := '\t'
  const VTAB := '\U{0B}'
  const FORMFEED := '\U{0C}'
  const NEL := '\U{85}'
  const LINE_SEPARATOR := '\U{2028}'
  const PARAGRAPH_SEPARATOR := '\U{2029}'

  /** str.isspace, which is also what the regular expressions call white space. */
  predicate IsSpace(c: char) {
    var n := c as int;
    || 0x09 <= n <= 0x0D || 0x1C <= n <= 0x20 || n in {0x85, 0xA0, 0x1680}
    || 0x2000 <= n <= 0x200A || n in {0x2028, 0x2029, 0x202F, 0x205F, 0x3000}
  }

  /** A boundary of str.splitlines. */
  predicate IsLineBreak(c: char) {
    0x0A <= c as int <= 0x0D || 0x1C <= c as int <= 0x1E || c in {NEL, LINE_SEPARATOR, PARAGRAPH_SEPARATOR}
  }

  // ----- writing -----------------------------------------------------------

  const ESCAPED_CONTROLS := {BELL, BACKSPACE, TAB, VTAB, FORMFEED}

  function Escape(c: char): string {
    if c == '\\' then "\\\\" else if c == '"' then "\\\"" else if c == '$' then "$$"
    else if c == BELL then "\\a" else if c == BACKSPACE then "\\b" else if c == TAB then "\\t"
    else if c == VTAB then "\\v" else if c == FORMFEED then "\\f" else [c]
  }

  function Escaped(v: string): string {
    if v == "" then "" else Escape(v[0]) + Escaped(v[1..])
  }

  predicate Supported(v: string) {
    forall c | c in v :: c as int >= 32 || c in ESCAPED_CONTROLS
  }

  predicate NeedsQuotes(v: string) {
    exists c | c in v :: c in {'$', '#', '\'', '\\', '"'} || IsSpace(c) || c as int < 32
  }

  /** quote_runtime_value. */
  function Quote(v: string): Option<string> {
    if !Supported(v) then None
    else if NeedsQuotes(v) then Some("\"" + Escaped(v) + "\"")
    else Some(v)
  }

  // ----- reading -----------------------------------------------------------

  function SkipSpace(s: string): string {
    if s != "" && IsSpace(s[0]) then SkipSpace(s[1..]) else s
  }

  /** The closing quote, white space and an optional comment up to the end. */
  predicate Tail(s: string, q: char) {
    && s != "" && s[0] == q
    && var rest := SkipSpace(s[1..]);
       rest == "" || (rest[0] == '#' && '\n' !in rest[1..])
  }

  /**
   The backtracking match of ((?:\\q|[^q])*) before a tail: an escaped quote is tried first, then one
   other character, then the end of the group.  The result is the length of the group.
   */
  function Group(s: string, q: char): Option<nat>
    decreases |s|
  {
    var stop := if Tail(s, q) then Some(0) else None;
    if |s| >= 2 && s[0] == '\\' && s[1] == q && Group(s[2..], q).Some? then Some(Group(s[2..], q).value + 2)
    else if s != "" && s[0] != q && Group(s[1..], q).Some? then Some(Group(s[1..], q).value + 1)
    else stop
  }

  function Unescape(c: char): char {
    if c == 'a' then BELL else if c == 'b' then BACKSPACE else if c == 'f' then FORMFEED
    else if c == 'n' then '\n' else if c == 'r' then '\r' else if c == 't' then TAB
    else if c == 'v' then VTAB else c
  }

  predicate Escapable(c: char, q: char) {
    c in (if q == '\'' then {'\\', '\''} else {'\\', '\'', '"', 'a', 'b', 'f', 'n', 'r', 't', 'v'})
  }

  /** re.sub of the escape pattern: left to right, never overlapping. */
  function Unescaped(s: string, q: char): string {
    if |s| >= 2 && s[0] == '\\' && Escapable(s[1], q) then [Unescape(s[1])] + Unescaped(s[2..], q)
    else if s == "" then ""
    else [s[0]] + Unescaped(s[1..], q)
  }

  /** re.split(r"\s+#", value, maxsplit=1)[0]. */
  function BeforeComment(s: string): string {
    if s == "" then ""
    else if IsSpace(s[0]) && SkipSpace(s) != "" && SkipSpace(s)[0] == '#' then ""
    else [s[0]] + BeforeComment(s[1..])
  }

  function RStrip(s: string): string {
    if s != "" && IsSpace(s[|s| - 1]) then RStrip(s[..|s| - 1]) else s
  }

  /** dotenv_value. */
  function Decode(s: string): Option<string> {
    if s == "" || s[0] !in {'\'', '"'} then Some(RStrip(BeforeComment(s)))
    else
      var n := Group(s[1..], s[0]);
      if n.None? || n.value > |s| - 1 then None else Some(Unescaped(s[1..1 + n.value], s[0]))
  }

  /** str.replace("$$", "$"). */
  function Undollar(s: string): string {
    if |s| >= 2 && s[0] == '$' && s[1] == '$' then "$" + Undollar(s[2..])
    else if s == "" then ""
    else [s[0]] + Undollar(s[1..])
  }

  /** unquote_runtime_value. */
  function Unquote(s: string): Option<string> {
    var decoded := Decode(s);
    if decoded.None? then None else Some(Undollar(decoded.value))
  }

  // ----- the backtracking match is the longest match -----------------------

  /** The strings of (\\q|[^q])*: each quote follows a backslash. */
  predicate Quotable(g: string, q: char) {
    forall i | 0 <= i < |g| && g[i] == q :: i > 0 && g[i - 1] == '\\'
  }

  predicate Matches(s: string, q: char, n: nat) {
    n <= |s| && Quotable(s[..n], q) && Tail(s[n..], q)
  }

  lemma QuotableTail(s: string, q: char, n: nat)
    requires q != '\\' && 1 <= n <= |s|
    ensures s[0] != q && (n == 1 || s[0] != '\\' || s[1] != q) ==>
              (Quotable(s[..n], q) <==> Quotable(s[1..][..n - 1], q))
    ensures n >= 2 && s[0] == '\\' && s[1] == q ==> (Quotable(s[..n], q) <==> Quotable(s[2..][..n - 2], q))
  {
    var g := s[..n];
    if s[0] != q && (n == 1 || s[0] != '\\' || s[1] != q) {
      var h := s[1..][..n - 1];
      assert forall i | 0 <= i < n - 1 :: h[i] == g[i + 1];
      assert forall i | 1 <= i < n :: g[i] == h[i - 1];
    }
    if n >= 2 && s[0] == '\\' && s[1] == q {
      var h := s[2..][..n - 2];
      assert forall i | 0 <= i < n - 2 :: h[i] == g[i + 2];
      assert forall i | 2 <= i < n :: g[i] == h[i - 2];
    }
  }

  /** A match after the first character, or after an escaped quote, is a match with one or two more characters. */
  lemma MatchesShift(s: string, q: char, n: nat)
    requires q != '\\' && 1 <= n <= |s|
    ensures s[0] != q && (n == 1 || s[0] != '\\' || s[1] != q) ==> (Matches(s, q, n) <==> Matches(s[1..], q, n - 1))
    ensures n >= 2 && s[0] == '\\' && s[1] == q ==> (Matches(s, q, n) <==> Matches(s[2..], q, n - 2))
    ensures s[0] == q ==> !Matches(s, q, n)
  {
    hide Quotable, Tail;
    QuotableTail(s, q, n);
    assert s[n..] == s[1..][n - 1..];
    if n >= 2 { assert s[n..] == s[2..][n - 2..]; }
    if s[0] == q { NotQuotable(s[..n], q); }
  }

  lemma NotQuotable(g: string, q: char)
    requires g != "" && g[0] == q
    ensures !Quotable(g, q)
  {
  }

  predicate EscapedQuoteAhead(s: string, q: char) {
    |s| >= 2 && s[0] == '\\' && s[1] == q
  }

  /** The choices of the match at one character, in the order in which they are tried. */
  lemma GroupChoices(s: string, q: char)
    ensures Group(s, q) ==
            if EscapedQuoteAhead(s, q) && Group(s[2..], q).Some? then Some(Group(s[2..], q).value + 2)
            else if s != "" && s[0] != q && Group(s[1..], q).Some? then Some(Group(s[1..], q).value + 1)
            else if Tail(s, q) then Some(0) else None
  {
    hide Tail;
  }

  lemma EmptyMatch(s: string, q: char)
    ensures Matches(s, q, 0) <==> Tail(s, q)
  {
    hide Tail;
    assert s[..0] == "" && s[0..] == s;
    EmptyQuotable(q);
  }

  lemma {:induction false} GroupMatches(s: string, q: char)
    requires q != '\\' && Group(s, q).Some?
    ensures Group(s, q).value <= |s| && Matches(s, q, Group(s, q).value)
    decreases |s|
  {
    hide Group, Matches, Tail;
    GroupChoices(s, q);
    if EscapedQuoteAhead(s, q) && Group(s[2..], q).Some? {
      GroupMatches(s[2..], q);
      MatchesShift(s, q, Group(s, q).value);
    } else if s != "" && s[0] != q && Group(s[1..], q).Some? {
      GroupMatches(s[1..], q);
      if EscapedQuoteAhead(s, q) && Group(s, q).value >= 2 {
        MatchesShift(s[1..], q, Group(s, q).value - 1);
      }
      MatchesShift(s, q, Group(s, q).value);
    } else {
      EmptyMatch(s, q);
    }
  }

  lemma MatchesBound(s: string, q: char, n: nat)
    requires Matches(s, q, n)
    ensures n < |s|
  {
  }

  lemma {:induction false} GroupIsMaximal(s: string, q: char, n: nat)
    requires q != '\\' && Matches(s, q, n)
    ensures Group(s, q).Some? && n <= Group(s, q).value
    decreases |s|
  {
    hide Group, Matches, Tail;
    GroupChoices(s, q);
    MatchesBound(s, q, n);
    if n == 0 {
      EmptyMatch(s, q);
    } else {
      MatchesShift(s, q, n);
      if EscapedQuoteAhead(s, q) && n >= 2 {
        GroupIsMaximal(s[2..], q, n - 2);
      } else {
        GroupIsMaximal(s[1..], q, n - 1);
      }
    }
  }

  /** The group found by backtracking is the longest one, and is missed only when there is none. */
  lemma GroupIsLongest(s: string, q: char)
    requires q != '\\'
    ensures Group(s, q).Some? ==> Matches(s, q, Group(s, q).value)
    ensures forall n: nat | Matches(s, q, n) :: Group(s, q).Some? && n <= Group(s, q).value
  {
    hide Group, Matches;
    if Group(s, q).Some? {
      GroupMatches(s, q);
    }
    forall n: nat | Matches(s, q, n) ensures Group(s, q).Some? && n <= Group(s, q).value {
      GroupIsMaximal(s, q, n);
    }
  }

  lemma EmptyQuotable(q: char)
    ensures Quotable("", q)
  {
  }

  // ----- one value ---------------------------------------------------------

  lemma {:induction false} EscapedIsQuotable(v: string)
    ensures Quotable(Escaped(v), '"')
  {
    if v != "" {
      EscapedIsQuotable(v[1..]);
      assert Quotable(Escape(v[0]), '"');
      QuotableConcat(Escape(v[0]), Escaped(v[1..]), '"');
    }
  }

  lemma QuotableConcat(g: string, h: string, q: char)
    requires Quotable(g, q) && Quotable(h, q)
    ensures Quotable(g + h, q)
  {
    forall i | 0 <= i < |g + h| && (g + h)[i] == q ensures i > 0 && (g + h)[i - 1] == '\\' {
      if i >= |g| {
        assert h[i - |g|] == q;
      }
    }
  }

  /** What unescaping leaves: every dollar still doubled. */
  function Doubled(v: string): string {
    if v == "" then "" else (if v[0] == '$' then "$$" else [v[0]]) + Doubled(v[1..])
  }

  lemma TokenIsRead(c: char, rest: string)
    ensures Unescaped(Escape(c) + rest, '"') == (if c == '$' then "$$" else [c]) + Unescaped(rest, '"')
  {
    var e := Escape(c);
    var s := e + rest;
    if e[0] == '\\' {
      assert s[2..] == rest && s[1] == e[1];
    } else if |e| == 2 {
      assert s[1..] == ['$'] + rest && s[1..][1..] == rest;
    } else {
      assert s[1..] == rest;
    }
  }

  lemma {:induction false} UnescapedEscaped(v: string)
    ensures Unescaped(Escaped(v), '"') == Doubled(v)
  {
    hide Escape, Unescape;
    if v != "" {
      UnescapedEscaped(v[1..]);
      TokenIsRead(v[0], Escaped(v[1..]));
    }
  }

  lemma {:induction false} UndollarDoubled(v: string)
    ensures Undollar(Doubled(v)) == v
  {
    if v != "" {
      UndollarDoubled(v[1..]);
      var rest := Doubled(v[1..]);
      if v[0] == '$' {
        assert Doubled(v) == "$$" + rest && Doubled(v)[2..] == rest;
      } else {
        assert Doubled(v) == [v[0]] + rest && Doubled(v)[1..] == rest;
      }
      assert v == [v[0]] + v[1..];
    }
  }

  lemma {:induction false} PlainIsKept(v: string)
    requires !NeedsQuotes(v)
    ensures BeforeComment(v) == v && Undollar(v) == v
  {
    if v != "" {
      assert v[0] in v;
      assert forall c | c in v[1..] :: c in v;
      PlainIsKept(v[1..]);
      assert v == [v[0]] + v[1..];
    }
  }

  lemma QuotedDecodes(v: string)
    ensures Decode("\"" + Escaped(v) + "\"") == Some(Doubled(v))
  {
    var body := Escaped(v);
    var s := "\"" + body + "\"";
    assert s[1..] == body + "\"";
    EscapedIsQuotable(v);
    assert s[1..][..|body|] == body && s[1..][|body|..] == "\"";
    assert Tail("\"", '"');
    assert Matches(s[1..], '"', |body|);
    GroupIsLongest(s[1..], '"');
    assert s[1..][|s[1..]|..] == "";
    assert Group(s[1..], '"').value < |s[1..]|;
    assert s[1..1 + |body|] == body;
    UnescapedEscaped(v);
  }

  /** Every accepted value is read back unchanged, and exactly unsupported control characters are refused. */
  lemma ValueRoundTrip(v: string)
    ensures Quote(v).Some? <==> Supported(v)
    ensures Supported(v) ==> Unquote(Quote(v).value) == Some(v)
  {
    if Supported(v) {
      if NeedsQuotes(v) {
        QuotedDecodes(v);
        UndollarDoubled(v);
      } else {
        PlainIsKept(v);
        assert v != "" ==> v[0] in v && v[|v| - 1] in v;
      }
    }
  }

  // ----- the whole file ----------------------------------------------------

  datatype Entry = Entry(key: string, value: string)

  function Line(e: Entry): Option<string> {
    var quoted := Quote(e.value);
    if quoted.None? then None else Some(e.key + "=" + quoted.value)
  }

  /** The text that write_protected_runtime_env_file receives. */
  function Written(entries: seq<Entry>): Option<string> {
    if entries == [] then Some("")
    else
      var line, rest := Line(entries[0]), Written(entries[1..]);
      if line.None? || rest.None? then None else Some(line.value + "\n" + rest.value)
  }

  function LineLength(s: string): (n: nat)
    ensures n <= |s|
  {
    if s == "" || IsLineBreak(s[0]) then 0 else 1 + LineLength(s[1..])
  }

  /** str.splitlines, over a text whose line ends read_text has normalised. */
  function Lines(s: string): seq<string>
    decreases |s|
  {
    if s == "" then []
    else
      var n := LineLength(s);
      if n == |s| then [s]
      else [s[..n]] + Lines(s[n + (if s[n] == '\r' && n + 1 < |s| && s[n + 1] == '\n' then 2 else 1)..])
  }

  function KeyLength(line: string): (n: nat)
    requires '=' in line
    ensures n < |line| && line[n] == '=' && '=' !in line[..n]
  {
    if line[0] == '=' then 0 else
      var n := KeyLength(line[1..]);
      assert line[..n + 1] == [line[0]] + line[1..][..n];
      n + 1
  }

  predicate IsAssignment(line: string) {
    line != "" && line[0] != '#' && '=' in line
  }

  function ReadLines(lines: seq<string>, values: map<string, string>): Option<map<string, string>>
    decreases |lines|
  {
    if lines == [] then Some(values)
    else if !IsAssignment(lines[0]) then ReadLines(lines[1..], values)
    else
      var n := KeyLength(lines[0]);
      var value := Unquote(lines[0][n + 1..]);
      if value.None? then None else ReadLines(lines[1..], values[lines[0][..n] := value.value])
  }

  /** The loop of read_runtime_env. */
  method ReadRuntimeEnv(text: string) returns (result: Option<map<string, string>>)
    ensures result == ReadLines(Lines(text), map[])
  {
    var values: map<string, string> := map[];
    var lines := Lines(text);
    var i := 0;
    while i < |lines|
      invariant 0 <= i <= |lines|
      invariant ReadLines(lines[i..], values) == ReadLines(lines, map[])
    {
      var line := lines[i];
      assert lines[i..][1..] == lines[i + 1..];
      if IsAssignment(line) {
        var n := KeyLength(line);
        var value := Unquote(line[n + 1..]);
        if value.None? {
          return None;
        }
        values := values[line[..n] := value.value];
      }
      i := i + 1;
    }
    return Some(values);
  }

  function AsMap(entries: seq<Entry>, values: map<string, string>): map<string, string> {
    if entries == [] then values else AsMap(entries[1..], values[entries[0].key := entries[0].value])
  }

  predicate KeyOk(key: string) {
    key != "" && key[0] != '#' && '=' !in key && forall c | c in key :: !IsLineBreak(c)
  }

  predicate Distinct(entries: seq<Entry>) {
    forall i, j | 0 <= i < j < |entries| :: entries[i].key != entries[j].key
  }

  /** The three line boundaries that quoting lets through. */
  predicate HasHiddenBreak(v: string) {
    NEL in v || LINE_SEPARATOR in v || PARAGRAPH_SEPARATOR in v
  }

  lemma {:induction false} EscapedHasNoBreak(v: string)
    requires Supported(v) && !HasHiddenBreak(v)
    ensures forall c | c in Escaped(v) :: !IsLineBreak(c)
  {
    if v != "" {
      assert v[0] in v;
      assert forall c | c in v[1..] :: c in v;
      EscapedHasNoBreak(v[1..]);
      assert forall c | c in Escape(v[0]) :: !IsLineBreak(c);
    }
  }

  lemma {:induction false} FirstLine(a: string, rest: string)
    requires forall c | c in a :: !IsLineBreak(c)
    ensures LineLength(a + "\n" + rest) == |a|
  {
    var s := a + "\n" + rest;
    if a != "" {
      assert s[0] == a[0] && a[0] in a;
      assert s[1..] == a[1..] + "\n" + rest;
      FirstLine(a[1..], rest);
    }
  }

  lemma LinesSplit(a: string, rest: string)
    requires forall c | c in a :: !IsLineBreak(c)
    ensures Lines(a + "\n" + rest) == [a] + Lines(rest)
  {
    var s := a + "\n" + rest;
    FirstLine(a, rest);
    assert s[|a|] == '\n' && s[..|a|] == a && s[|a| + 1..] == rest;
  }

  lemma {:induction false} KeyLengthIs(key: string, rest: string)
    requires '=' !in key
    ensures '=' in key + "=" + rest && KeyLength(key + "=" + rest) == |key|
  {
    var s := key + "=" + rest;
    assert s[|key|] == '=';
    if key != "" {
      assert s[0] == key[0] && key[0] in key;
      assert s[1..] == key[1..] + "=" + rest;
      KeyLengthIs(key[1..], rest);
    }
  }

  lemma LineReadsBack(e: Entry)
    requires KeyOk(e.key) && Supported(e.value)
    ensures Line(e).Some?
    ensures var line := Line(e).value;
            IsAssignment(line) && line[..KeyLength(line)] == e.key
                && Unquote(line[KeyLength(line) + 1..]) == Some(e.value)
    ensures !HasHiddenBreak(e.value) ==> forall c | c in Line(e).value :: !IsLineBreak(c)
  {
    hide Unquote, Supported, NeedsQuotes;
    ValueRoundTrip(e.value);
    var quoted := Quote(e.value).value;
    var line := Line(e).value;
    KeyLengthIs(e.key, quoted);
    assert line[0] == e.key[0];
    assert line[|e.key| + 1..] == quoted;
    if !HasHiddenBreak(e.value) { QuotedHasNoBreak(e.value); }
  }

  lemma QuotedHasNoBreak(v: string)
    requires Supported(v) && !HasHiddenBreak(v)
    ensures Quote(v).Some? && forall c | c in Quote(v).value :: !IsLineBreak(c)
  {
    EscapedHasNoBreak(v);
    if !NeedsQuotes(v) {
      forall c | c in v ensures !IsLineBreak(c) { assert !IsSpace(c); }
    }
  }

  lemma {:induction false} CleanFileReadsBack(entries: seq<Entry>, values: map<string, string>)
    requires forall e | e in entries :: KeyOk(e.key) && Supported(e.value) && !HasHiddenBreak(e.value)
    ensures Written(entries).Some? && ReadLines(Lines(Written(entries).value), values) == Some(AsMap(entries, values))
  {
    hide Line, IsAssignment, KeyLength, Unquote, KeyOk, Supported, HasHiddenBreak;
    if entries != [] {
      var e := entries[0];
      assert e in entries;
      LineReadsBack(e);
      CleanFileReadsBack(entries[1..], values[e.key := e.value]);
      LinesSplit(Line(e).value, Written(entries[1..]).value);
    }
  }

  // ----- what a line reader can never return -------------------------------

  predicate Unbroken(s: string) {
    forall c | c in s :: !IsLineBreak(c)
  }

  lemma {:induction false} LinesAreUnbroken(s: string, line: string)
    requires line in Lines(s)
    ensures Unbroken(line)
    decreases |s|
  {
    if s != "" {
      var n := LineLength(s);
      PrefixIsUnbroken(s);
      if n < |s| && line != s[..n] {
        LinesAreUnbroken(s[n + (if s[n] == '\r' && n + 1 < |s| && s[n + 1] == '\n' then 2 else 1)..], line);
      } else {
        assert s[..|s|] == s;
      }
    }
  }

  lemma {:induction false} PrefixIsUnbroken(s: string)
    ensures Unbroken(s[..LineLength(s)])
  {
    if s != "" && !IsLineBreak(s[0]) {
      PrefixIsUnbroken(s[1..]);
      assert s[..LineLength(s)] == [s[0]] + s[1..][..LineLength(s[1..])];
    }
  }

  lemma {:induction false} UnescapedKeeps(s: string, q: char)
    requires !HasHiddenBreak(s)
    ensures !HasHiddenBreak(Unescaped(s, q))
    decreases |s|
  {
    if s != "" {
      assert s == [s[0]] + s[1..];
      if |s| >= 2 && s[0] == '\\' && Escapable(s[1], q) {
        assert s == [s[0], s[1]] + s[2..];
        UnescapedKeeps(s[2..], q);
      } else {
        UnescapedKeeps(s[1..], q);
      }
    }
  }

  lemma {:induction false} UndollarKeeps(s: string)
    requires !HasHiddenBreak(s)
    ensures !HasHiddenBreak(Undollar(s))
    decreases |s|
  {
    if s != "" {
      assert s == [s[0]] + s[1..];
      if |s| >= 2 && s[0] == '$' && s[1] == '$' {
        assert s == [s[0], s[1]] + s[2..];
        UndollarKeeps(s[2..]);
      } else {
        UndollarKeeps(s[1..]);
      }
    }
  }

  lemma {:induction false} BeforeCommentKeeps(s: string)
    requires !HasHiddenBreak(s)
    ensures !HasHiddenBreak(BeforeComment(s))
  {
    if s != "" {
      assert s == [s[0]] + s[1..];
      BeforeCommentKeeps(s[1..]);
    }
  }

  lemma {:induction false} RStripKeeps(s: string)
    requires !HasHiddenBreak(s)
    ensures !HasHiddenBreak(RStrip(s))
  {
    if s != "" {
      assert s == s[..|s| - 1] + [s[|s| - 1]];
      RStripKeeps(s[..|s| - 1]);
    }
  }

  lemma UnquotedHasNoHiddenBreak(s: string)
    requires !HasHiddenBreak(s) && Unquote(s).Some?
    ensures !HasHiddenBreak(Unquote(s).value)
  {
    if s == "" || s[0] !in {'\'', '"'} {
      BeforeCommentKeeps(s);
      RStripKeeps(BeforeComment(s));
    } else {
      var g := s[1..1 + Group(s[1..], s[0]).value];
      assert forall c | c in g :: c in s;
      UnescapedKeeps(g, s[0]);
    }
    UndollarKeeps(Decode(s).value);
  }

  predicate NoHiddenBreaks(values: map<string, string>) {
    forall key | key in values :: !HasHiddenBreak(values[key])
  }

  lemma {:induction false} ReadValuesHaveNoHiddenBreak(lines: seq<string>, values: map<string, string>)
    requires (forall line | line in lines :: Unbroken(line)) && NoHiddenBreaks(values)
    ensures ReadLines(lines, values).Some? ==> NoHiddenBreaks(ReadLines(lines, values).value)
    decreases |lines|
  {
    hide Unquote, HasHiddenBreak;
    if lines != [] {
      assert lines[0] in lines;
      if IsAssignment(lines[0]) {
        var raw := lines[0][KeyLength(lines[0]) + 1..];
        var value := Unquote(raw);
        if value.Some? {
          UnbrokenPart(lines[0], raw);
          UnquotedHasNoHiddenBreak(raw);
          ReadValuesHaveNoHiddenBreak(lines[1..], values[lines[0][..KeyLength(lines[0])] := value.value]);
        }
      } else {
        ReadValuesHaveNoHiddenBreak(lines[1..], values);
      }
    }
  }

  lemma UnbrokenPart(line: string, part: string)
    requires Unbroken(line) && forall c | c in part :: c in line
    ensures !HasHiddenBreak(part)
  {
  }

  lemma {:induction false} AsMapHas(entries: seq<Entry>, values: map<string, string>, k: nat)
    requires Distinct(entries) && k < |entries|
    ensures entries[k].key in AsMap(entries, values) && AsMap(entries, values)[entries[k].key] == entries[k].value
  {
    if k == 0 {
      AsMapKeeps(entries[1..], values[entries[0].key := entries[0].value], entries[0].key);
    } else {
      AsMapHas(entries[1..], values[entries[0].key := entries[0].value], k - 1);
    }
  }

  lemma {:induction false} AsMapKeeps(entries: seq<Entry>, values: map<string, string>, key: string)
    requires key in values && forall e | e in entries :: e.key != key
    ensures key in AsMap(entries, values) && AsMap(entries, values)[key] == values[key]
  {
    if entries != [] {
      assert entries[0] in entries;
      AsMapKeeps(entries[1..], values[entries[0].key := entries[0].value], key);
    }
  }

  /**
   A written file reads back as the values it was written from exactly when no value holds one of the
   line boundaries U+0085, U+2028 and U+2029, which quoting lets through and splitlines cuts at.
   */
  lemma FileRoundTrip(entries: seq<Entry>)
    requires Distinct(entries) && forall e | e in entries :: KeyOk(e.key) && Supported(e.value)
    ensures Written(entries).Some?
    ensures ReadLines(Lines(Written(entries).value), map[]) == Some(AsMap(entries, map[]))
            <==> forall e | e in entries :: !HasHiddenBreak(e.value)
  {
    hide Unquote, KeyOk, Supported, HasHiddenBreak, Line, IsAssignment, LineLength;
    FileIsWritten(entries);
    if forall e | e in entries :: !HasHiddenBreak(e.value) {
      CleanFileReadsBack(entries, map[]);
    } else {
      var k :| 0 <= k < |entries| && HasHiddenBreak(entries[k].value);
      var lines := Lines(Written(entries).value);
      forall line | line in lines ensures Unbroken(line) {
        LinesAreUnbroken(Written(entries).value, line);
      }
      ReadValuesHaveNoHiddenBreak(lines, map[]);
      AsMapHas(entries, map[], k);
    }
  }

  lemma {:induction false} FileIsWritten(entries: seq<Entry>)
    requires forall e | e in entries :: KeyOk(e.key) && Supported(e.value)
    ensures Written(entries).Some?
  {
    hide Line, Supported, KeyOk;
    if entries != [] {
      assert entries[0] in entries;
      LineReadsBack(entries[0]);
      FileIsWritten(entries[1..]);
    }
  }
}
