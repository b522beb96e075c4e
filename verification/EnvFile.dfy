/** `.env` text: `parseEnvFile`, how it composes, and exactly which bindings survive being printed. */
module EnvFile {
  import opened Common

  /** White space and line terminators, as `trim` removes them (section 22.1.3.32 of ECMA-262). */
  predicate IsSpace(c: char) {
    var n := c as int;
    9 <= n <= 13 || n == 32 || n == 0xA0 || n == 0x1680 || 0x2000 <= n <= 0x200A || n == 0x2028 || n == 0x2029
    || n == 0x202F || n == 0x205F || n == 0x3000 || n == 0xFEFF
  }

  function TrimEnd(s: string): string {
    if s != [] && IsSpace(s[|s| - 1]) then TrimEnd(s[..|s| - 1]) else s
  }

  function TrimStart(s: string): string {
    if s != [] && IsSpace(s[0]) then TrimStart(s[1..]) else s
  }

  function Trim(s: string): string {
    TrimStart(TrimEnd(s))
  }

  function IndexOf(s: string, c: char): (i: nat)
    ensures i <= |s| && c !in s[..i] && (i < |s| ==> s[i] == c)
  {
    if s == [] || s[0] == c then 0
    else
      var i := 1 + IndexOf(s[1..], c);
      assert s[..i] == [s[0]] + s[1..][..i - 1];
      i
  }

  function WithoutReturn(line: string): string {
    if line != [] && line[|line| - 1] == '\r' then line[..|line| - 1] else line
  }

  /** `text.split(/\r?\n/)`. */
  function Lines(text: string): (r: seq<string>)
    ensures r != []
    decreases |text|
  {
    var i := IndexOf(text, '\n');
    if i == |text| then [text] else [WithoutReturn(text[..i])] + Lines(text[i + 1..])
  }

  const EXPORT := ['e', 'x', 'p', 'o', 'r', 't', ' ']

  function WithoutExport(line: string): string {
    if EXPORT <= line then line[|EXPORT|..] else line
  }

  function Unquote(value: string): string {
    if |value| >= 2 && value[0] in {'"', '\''} && value[|value| - 1] == value[0] then value[1..|value| - 1] else value
  }

  /** One line: a binding, or nothing. */
  function ParseLine(raw: string): Option<(string, string)> {
    var line := Trim(raw);
    if line == [] || line[0] == '#' then None
    else
      var binding := WithoutExport(line);
      var eq := IndexOf(binding, '=');
      if eq == |binding| then None
      else
        var key := Trim(binding[..eq]);
        if key == [] then None else Some((key, Unquote(Trim(binding[eq + 1..]))))
  }

  const PROTO := ['_', '_', 'p', 'r', 'o', 't', 'o', '_', '_']

  /** `env[key] = value` on a plain object: assigning a string to `__proto__` has no effect. */
  function Bind(env: map<string, string>, binding: Option<(string, string)>): map<string, string> {
    if binding.None? || binding.value.0 == PROTO then env else env[binding.value.0 := binding.value.1]
  }

  function ParseLines(env: map<string, string>, lines: seq<string>): map<string, string>
    decreases |lines|
  {
    if lines == [] then env else ParseLines(Bind(env, ParseLine(lines[0])), lines[1..])
  }

  function Parse(text: string): map<string, string> {
    ParseLines(map[], Lines(text))
  }

  /** `parseEnvFile`. */
  method ParseEnvFile(text: string) returns (env: map<string, string>)
    ensures env == Parse(text)
  {
    env := map[];
    var lines := Lines(text);
    for i := 0 to |lines|
      invariant ParseLines(env, lines[i..]) == Parse(text)
    {
      var binding := ParseLine(lines[i]);
      assert lines[i..][1..] == lines[i + 1..];
      env := Bind(env, binding);
    }
  }

  // ----- composition ------------------------------------------------------------------------

  lemma {:induction false} ParseLinesAppend(env: map<string, string>, xs: seq<string>, ys: seq<string>)
    ensures ParseLines(env, xs + ys) == ParseLines(ParseLines(env, xs), ys)
    decreases |xs|
  {
    if xs == [] {
      assert xs + ys == ys;
    } else {
      assert (xs + ys)[1..] == xs[1..] + ys;
      ParseLinesAppend(Bind(env, ParseLine(xs[0])), xs[1..], ys);
    }
  }

  lemma MergeAssociates(a: map<string, string>, b: map<string, string>, c: map<string, string>)
    ensures (a + b) + c == a + (b + c)
  {
  }

  lemma BindOverrides(env: map<string, string>, binding: Option<(string, string)>)
    ensures Bind(env, binding) == env + Bind(map[], binding)
  {
  }

  lemma {:induction false} ParseLinesOverrides(env: map<string, string>, lines: seq<string>)
    ensures ParseLines(env, lines) == env + ParseLines(map[], lines)
    decreases |lines|
  {
    if lines != [] {
      var first := Bind(map[], ParseLine(lines[0]));
      ParseLinesOverrides(Bind(env, ParseLine(lines[0])), lines[1..]);
      ParseLinesOverrides(first, lines[1..]);
      BindOverrides(env, ParseLine(lines[0]));
      MergeAssociates(env, first, ParseLines(map[], lines[1..]));
    }
  }

  /** A carriage return at the end of a line is trimmed away with the rest of the white space. */
  lemma ReturnIsTrimmed(line: string)
    ensures ParseLine(WithoutReturn(line)) == ParseLine(line)
  {
  }

  lemma {:induction false} IndexIs(s: string, c: char, i: nat)
    requires i < |s| && s[i] == c && c !in s[..i]
    ensures IndexOf(s, c) == i
    decreases i
  {
    if i > 0 {
      assert s[0] == s[..i][0];
      assert s[..i][1..] == s[1..][..i - 1];
      IndexIs(s[1..], c, i - 1);
    }
  }

  /** The text up to its first newline, and after it. */
  lemma SplitAt(line: string, rest: string)
    requires '\n' !in line
    ensures Lines(line + ['\n'] + rest) == [WithoutReturn(line)] + Lines(rest)
  {
    var text := line + ['\n'] + rest;
    assert text[..|line|] == line && text[|line| + 1..] == rest;
    IndexIs(text, '\n', |line|);
  }

  /** The last line, which a following newline may rob of its carriage return. */
  function ClosedLast(lines: seq<string>): seq<string>
    requires lines != []
  {
    lines[..|lines| - 1] + [WithoutReturn(lines[|lines| - 1])]
  }

  lemma ClosedLastCons(line: string, lines: seq<string>)
    requires lines != []
    ensures ClosedLast([line] + lines) == [line] + ClosedLast(lines)
  {
  }

  lemma JoinOneLine(a: string, b: string)
    requires '\n' !in a
    ensures Lines(a + ['\n'] + b) == ClosedLast(Lines(a)) + Lines(b)
  {
    SplitAt(a, b);
    assert IndexOf(a, '\n') == |a|;
    assert ClosedLast([a]) == [WithoutReturn(a)];
  }

  lemma JoinMoreLines(line: string, rest: string, b: string)
    requires '\n' !in line
    requires Lines(rest + ['\n'] + b) == ClosedLast(Lines(rest)) + Lines(b)
    ensures Lines((line + ['\n'] + rest) + ['\n'] + b) == ClosedLast(Lines(line + ['\n'] + rest)) + Lines(b)
  {
    var more, head := rest + ['\n'] + b, WithoutReturn(line);
    assert (line + ['\n'] + rest) + ['\n'] + b == line + ['\n'] + more;
    SplitAt(line, rest);
    SplitAt(line, more);
    ClosedLastCons(head, Lines(rest));
    Associates(head, ClosedLast(Lines(rest)), Lines(b));
  }

  lemma Associates(head: string, a: seq<string>, b: seq<string>)
    ensures [head] + (a + b) == ([head] + a) + b
  {
  }

  /** Splitting at an inserted newline splits exactly there. */
  lemma {:induction false} LinesOfJoin(a: string, b: string)
    ensures Lines(a + ['\n'] + b) == ClosedLast(Lines(a)) + Lines(b)
    decreases |a|
  {
    if '\n' !in a {
      JoinOneLine(a, b);
    } else {
      var line, rest := CutLine(a);
      LinesOfJoin(rest, b);
      JoinMoreLines(line, rest, b);
    }
  }

  lemma CutLine(a: string) returns (line: string, rest: string)
    requires '\n' in a
    ensures '\n' !in line && a == line + ['\n'] + rest
  {
    var i := IndexOf(a, '\n');
    assert a[..|a|] == a;
    line, rest := a[..i], a[i + 1..];
  }

  /** For every two texts: joining them with a newline lets the second override the first. */
  lemma JoinOverrides(a: string, b: string)
    ensures Parse(a + ['\n'] + b) == Parse(a) + Parse(b)
  {
    var l := Lines(a);
    var init, last := l[..|l| - 1], l[|l| - 1];
    LinesOfJoin(a, b);
    ParseLinesAppend(map[], init + [WithoutReturn(last)], Lines(b));
    ParseLinesOverrides(ParseLines(map[], init + [WithoutReturn(last)]), Lines(b));
    ParseLinesAppend(map[], init, [WithoutReturn(last)]);
    ParseLinesAppend(map[], init, [last]);
    assert init + [last] == l;
    ReturnIsTrimmed(last);
    var env := ParseLines(map[], init);
    assert ParseLines(env, [last]) == Bind(env, ParseLine(last));
    assert ParseLines(env, [WithoutReturn(last)]) == Bind(env, ParseLine(WithoutReturn(last)));
  }

  // ----- printing ---------------------------------------------------------------------------

  type Quote = c: char | c == '"' || c == '\'' witness '"'

  function PrintLine(key: string, value: string, quote: Quote): string {
    key + ['=', quote] + value + [quote]
  }

  function Print(bindings: seq<(string, string)>, quote: Quote): string {
    if bindings == [] then [] else PrintLine(bindings[0].0, bindings[0].1, quote) + ['\n'] + Print(bindings[1..], quote)
  }

  function AsMap(bindings: seq<(string, string)>): map<string, string> {
    if bindings == [] then map[] else map[bindings[0].0 := bindings[0].1] + AsMap(bindings[1..])
  }

  predicate Printable(key: string, value: string) {
    && key != [] && Trim(key) == key && '=' !in key && '\n' !in key
    && key[0] != '#' && !(EXPORT <= key) && key != PROTO
    && '\n' !in value
  }

  predicate AllPrintable(bindings: seq<(string, string)>) {
    forall i :: 0 <= i < |bindings| ==> Printable(bindings[i].0, bindings[i].1)
  }

  lemma TrimIsTrimmed(s: string)
    ensures var t := Trim(s);
            && Trim(t) == t
            && (t != [] ==> !IsSpace(t[0]) && !IsSpace(t[|t| - 1]))
            && (forall c :: c in t ==> c in s)
  {
    TrimEndIsTrimmed(s);
    TrimStartIsTrimmed(TrimEnd(s));
  }

  lemma {:induction false} TrimEndIsTrimmed(s: string)
    ensures var t := TrimEnd(s);
            t <= s && (t != [] ==> !IsSpace(t[|t| - 1]))
  {
    if s != [] && IsSpace(s[|s| - 1]) {
      TrimEndIsTrimmed(s[..|s| - 1]);
    }
  }

  lemma {:induction false} TrimStartIsTrimmed(s: string)
    ensures var t := TrimStart(s);
            |t| <= |s| && t == s[|s| - |t|..] && (t != [] ==> !IsSpace(t[0]))
  {
    if s != [] && IsSpace(s[0]) {
      TrimStartIsTrimmed(s[1..]);
    }
  }

  /** Text with solid ends needs no trimming. */
  lemma SolidEnds(s: string)
    requires s != [] && !IsSpace(s[0]) && !IsSpace(s[|s| - 1])
    ensures Trim(s) == s
  {
  }

  /** A line that starts with a clean key and ends solidly: its first `=` ends the key. */
  lemma BindingLine(key: string, rest: string)
    requires Printable(key, []) && rest != [] && !IsSpace(rest[|rest| - 1])
    ensures ParseLine(key + ['='] + rest) == Some((key, Unquote(Trim(rest))))
  {
    var line := key + ['='] + rest;
    TrimIsTrimmed(key);
    assert line[0] == key[0] && line[|line| - 1] == rest[|rest| - 1];
    SolidEnds(line);
    if |key| < |EXPORT| {
      assert line[|key|] == '=' && EXPORT[|key|] != '=';
    } else {
      assert line[..|EXPORT|] == key[..|EXPORT|];
    }
    assert line[..|key|] == key && line[|key| + 1..] == rest;
    IndexIs(line, '=', |key|);
  }

  lemma QuotedValue(value: string, quote: Quote)
    ensures Unquote(Trim([quote] + value + [quote])) == value
  {
    var quoted := [quote] + value + [quote];
    SolidEnds(quoted);
    assert quoted[1..|quoted| - 1] == value;
  }

  lemma PrintedLine(key: string, value: string, quote: Quote)
    requires Printable(key, value)
    ensures ParseLine(PrintLine(key, value, quote)) == Some((key, value))
  {
    var quoted := [quote] + value + [quote];
    assert PrintLine(key, value, quote) == key + ['='] + quoted;
    BindingLine(key, quoted);
    QuotedValue(value, quote);
  }

  lemma PrintedIsNotExport(key: string, value: string, quote: Quote)
    requires '=' !in key
    ensures EXPORT <= PrintLine(key, value, quote) <==> EXPORT <= key
  {
    var line := PrintLine(key, value, quote);
    if |key| < |EXPORT| {
      assert line[|key|] == '=' && EXPORT[|key|] != '=';
    } else {
      assert line[..|EXPORT|] == key[..|EXPORT|];
    }
  }

  lemma PrintedEquals(key: string, value: string, quote: Quote)
    requires '=' !in key
    ensures IndexOf(PrintLine(key, value, quote), '=') == |key|
  {
    var line := PrintLine(key, value, quote);
    assert line[..|key|] == key;
    IndexIs(line, '=', |key|);
  }

  lemma NoNewlineOneLine(line: string)
    requires '\n' !in line
    ensures Lines(line) == [line] && Parse(line) == Bind(map[], ParseLine(line))
  {
    var i := IndexOf(line, '\n');
    assert i == |line|;
    assert ParseLines(map[], [line]) == ParseLines(Bind(map[], ParseLine(line)), []);
  }

  /** Printing any list of printable bindings and parsing it back yields the same map. */
  lemma {:induction false} PrintRoundTrip(bindings: seq<(string, string)>, quote: Quote)
    requires AllPrintable(bindings)
    ensures Parse(Print(bindings, quote)) == AsMap(bindings)
    decreases |bindings|
  {
    if bindings == [] {
      NoNewlineOneLine([]);
    } else {
      var (key, value) := bindings[0];
      PrintRoundTrip(bindings[1..], quote);
      PrintedLine(key, value, quote);
      NoNewlineOneLine(PrintLine(key, value, quote));
      JoinOverrides(PrintLine(key, value, quote), Print(bindings[1..], quote));
    }
  }

  /** A leading `export ` changes nothing. */
  lemma ExportIsIgnored(line: string)
    requires line != [] && Trim(line) == line && line[0] != '#' && !(EXPORT <= line)
    ensures ParseLine(EXPORT + line) == ParseLine(line)
  {
    TrimIsTrimmed(line);
    var exported := EXPORT + line;
    assert exported[0] == 'e' && exported[|exported| - 1] == line[|line| - 1];
    SolidEnds(exported);
    assert exported[|EXPORT|..] == line;
  }

  /** Blank lines and comments bind nothing. */
  lemma NothingToBind(line: string)
    requires Trim(line) == [] || Trim(line)[0] == '#' || '=' !in line
    ensures ParseLine(line).None?
  {
    TrimIsTrimmed(line);
    if Trim(line) != [] && Trim(line)[0] != '#' {
      var binding := WithoutExport(Trim(line));
      assert forall c :: c in binding ==> c in line;
    }
  }

  /** The value is a quoted one: both ends are the same quote. */
  predicate Quoted(value: string) {
    |value| >= 2 && value[0] in {'"', '\''} && value[|value| - 1] == value[0]
  }

  /** A value that is not quoted, even one with a single or a mismatched quote, is kept as it is; an empty one too. */
  lemma UnquotedLine(key: string, value: string)
    requires Printable(key, value) && Trim(value) == value && !Quoted(value)
    ensures ParseLine(key + ['='] + value) == Some((key, value))
  {
    if value == [] {
      EmptyValue(key);
    } else {
      TrimIsTrimmed(value);
      BindingLine(key, value);
    }
  }

  lemma EmptyValue(key: string)
    requires Printable(key, [])
    ensures ParseLine(key + ['='] + []) == Some((key, []))
  {
    var line := key + ['='] + [];
    TrimIsTrimmed(key);
    assert line[0] == key[0] && line[|line| - 1] == '=';
    SolidEnds(line);
    if |key| < |EXPORT| {
      assert line[|key|] == '=' && EXPORT[|key|] != '=';
    } else {
      assert line[..|EXPORT|] == key[..|EXPORT|];
    }
    assert line[..|key|] == key && line[|key| + 1..] == [];
    IndexIs(line, '=', |key|);
  }

  predicate Blank(s: string) {
    forall c :: c in s ==> IsSpace(c)
  }

  predicate Solid(s: string) {
    s != [] && !IsSpace(s[0]) && !IsSpace(s[|s| - 1])
  }

  lemma {:induction false} TrimEndPad(s: string, pad: string)
    requires Blank(pad) && (s == [] || !IsSpace(s[|s| - 1]))
    ensures TrimEnd(s + pad) == s
    decreases |pad|
  {
    if pad == [] {
      assert s + pad == s;
    } else {
      assert (s + pad)[|s + pad| - 1] == pad[|pad| - 1] && pad[|pad| - 1] in pad;
      assert (s + pad)[..|s + pad| - 1] == s + pad[..|pad| - 1];
      TrimEndPad(s, pad[..|pad| - 1]);
    }
  }

  lemma {:induction false} TrimStartPad(pad: string, s: string)
    requires Blank(pad) && (s == [] || !IsSpace(s[0]))
    ensures TrimStart(pad + s) == s
    decreases |pad|
  {
    if pad == [] {
      assert pad + s == s;
    } else {
      assert (pad + s)[0] == pad[0] && pad[0] in pad;
      assert (pad + s)[1..] == pad[1..] + s;
      TrimStartPad(pad[1..], s);
    }
  }

  /** Trimming takes all the white space around a text, and nothing else. */
  lemma TrimExactly(before: string, s: string, after: string)
    requires Blank(before) && Blank(after) && Solid(s)
    ensures Trim(before + s + after) == s
  {
    TrimEndPad(before + s, after);
    TrimStartPad(before, s);
  }

  lemma PaddedStart(key: string, pad: string, rest: string)
    requires Printable(key, []) && Blank(pad) && key != "export"
    ensures !(EXPORT <= key + pad + ['='] + rest)
  {
    var line := key + pad + ['='] + rest;
    if |key| >= |EXPORT| {
      assert line[..|EXPORT|] == key[..|EXPORT|];
    } else if |key| == 6 {
      assert line[..6] == key && EXPORT[..6] == "export";
    } else {
      assert line[|key|] == if pad == [] then '=' else pad[0];
      assert pad != [] ==> pad[0] in pad;
    }
  }

  lemma FirstEquals(key: string, pad: string, rest: string)
    requires '=' !in key && Blank(pad)
    ensures IndexOf(key + pad + ['='] + rest, '=') == |key| + |pad|
  {
    var line := key + pad + ['='] + rest;
    assert line[..|key| + |pad|] == key + pad;
    IndexIs(line, '=', |key| + |pad|);
  }

  lemma PaddedBinding(key: string, pad: string, rest: string)
    requires Printable(key, []) && Blank(pad) && key != "export" && rest != [] && !IsSpace(rest[|rest| - 1])
    ensures var line := key + pad + ['='] + rest;
            Solid(line) && ParseLine(line) == Some((key, Unquote(Trim(rest))))
  {
    var line := key + pad + ['='] + rest;
    TrimIsTrimmed(key);
    assert line[0] == key[0] && line[|line| - 1] == rest[|rest| - 1];
    SolidEnds(line);
    PaddedStart(key, pad, rest);
    FirstEquals(key, pad, rest);
    assert line[..|key| + |pad|] == [] + key + pad && line[|key| + |pad| + 1..] == rest;
    TrimExactly([], key, pad);
  }

  /** White space around a line, a key or a value is ignored. (After a key `export` it makes an export of the line.) */
  lemma PaddedLine(a: string, key: string, b: string, c: string, value: string, d: string)
    requires Printable(key, value) && Solid(value) && key != "export"
    requires Blank(a) && Blank(b) && Blank(c) && Blank(d)
    ensures ParseLine(a + (key + b + ['='] + (c + value)) + d) == ParseLine(key + ['='] + value)
  {
    var rest := c + value;
    assert rest[|rest| - 1] == value[|value| - 1];
    PaddedBinding(key, b, rest);
    TrimmedLine(a, key + b + ['='] + rest, d);
    assert rest == c + value + [];
    TrimExactly(c, value, []);
    SolidEnds(value);
    BindingLine(key, value);
  }

  lemma TrimmedLine(before: string, line: string, after: string)
    requires Blank(before) && Blank(after) && Solid(line)
    ensures ParseLine(before + line + after) == ParseLine(line)
  {
    TrimExactly(before, line, after);
    SolidEnds(line);
  }

  /** A key `export` with white space after it is not a key. */
  lemma SpacedExportIsNoKey(value: string)
    requires Solid(value)
    ensures ParseLine("export =" + value).None?
  {
    var line := "export =" + value;
    assert line[0] == 'e' && line[|line| - 1] == value[|value| - 1];
    SolidEnds(line);
    assert line[..7] == EXPORT && line[7..] == ['='] + value;
    assert (['='] + value)[..0] == [];
  }

  // ----- the condition is exact -------------------------------------------------------------

  /** What every parsed binding looks like, whatever the line. */
  lemma ParsedBinding(raw: string)
    requires '\n' !in raw && ParseLine(raw).Some?
    ensures var (key, value) := ParseLine(raw).value;
            key != [] && Trim(key) == key && '=' !in key && '\n' !in key && '\n' !in value
  {
    var line := Trim(raw);
    TrimIsTrimmed(raw);
    var binding := WithoutExport(line);
    assert forall c :: c in binding ==> c in line;
    var eq := IndexOf(binding, '=');
    TrimIsTrimmed(binding[..eq]);
    TrimIsTrimmed(binding[eq + 1..]);
    var quoted := Trim(binding[eq + 1..]);
    assert forall c :: c in Unquote(quoted) ==> c in quoted;
  }

  lemma {:induction false} LinesHaveNoNewline(text: string)
    ensures forall i :: 0 <= i < |Lines(text)| ==> '\n' !in Lines(text)[i]
    decreases |text|
  {
    var i := IndexOf(text, '\n');
    if i == |text| {
      assert text[..i] == text;
    } else {
      LinesHaveNoNewline(text[i + 1..]);
    }
  }

  predicate CleanBinding(key: string, value: string) {
    key != [] && Trim(key) == key && '=' !in key && '\n' !in key && key != PROTO && '\n' !in value
  }

  predicate AllClean(env: map<string, string>) {
    forall k :: k in env ==> CleanBinding(k, env[k])
  }

  lemma {:induction false} ParsedMapIsClean(env: map<string, string>, lines: seq<string>)
    requires forall i :: 0 <= i < |lines| ==> '\n' !in lines[i]
    requires AllClean(env)
    ensures AllClean(ParseLines(env, lines))
    decreases |lines|
  {
    if lines != [] {
      var binding := ParseLine(lines[0]);
      if binding.Some? {
        ParsedBinding(lines[0]);
        assert binding.value.0 != PROTO ==> CleanBinding(binding.value.0, binding.value.1);
      }
      assert AllClean(Bind(env, binding));
      ParsedMapIsClean(Bind(env, binding), lines[1..]);
    }
  }

  /** A clean key that starts like a comment is read as one. */
  lemma CommentedKey(key: string, value: string, quote: Quote)
    requires CleanBinding(key, value) && key[0] == '#'
    ensures Parse(PrintLine(key, value, quote)) == map[]
  {
    var line := PrintLine(key, value, quote);
    assert line[0] == '#' && line[|line| - 1] == quote;
    SolidEnds(line);
    NoNewlineOneLine(line);
  }

  lemma TrimShrinks(s: string)
    ensures |Trim(s)| <= |s|
  {
    TrimEndIsTrimmed(s);
    TrimStartIsTrimmed(TrimEnd(s));
  }

  /** A clean key that starts like an export loses that part of itself. */
  lemma ExportedKey(key: string, value: string, quote: Quote)
    requires CleanBinding(key, value) && key[0] != '#' && EXPORT <= key
    ensures ParseLine(PrintLine(key, value, quote)).Some? ==> |ParseLine(PrintLine(key, value, quote)).value.0| < |key|
  {
    var line, rest := PrintLine(key, value, quote), key[|EXPORT|..];
    TrimIsTrimmed(key);
    assert line[0] == key[0] && line[|line| - 1] == quote;
    SolidEnds(line);
    PrintedIsNotExport(key, value, quote);
    assert line[|EXPORT|..] == PrintLine(rest, value, quote);
    PrintedEquals(rest, value, quote);
    assert PrintLine(rest, value, quote)[..|rest|] == rest;
    TrimShrinks(rest);
  }

  lemma MisreadKey(key: string, value: string, quote: Quote)
    requires CleanBinding(key, value) && (key[0] == '#' || EXPORT <= key)
    ensures key !in Parse(PrintLine(key, value, quote))
  {
    if key[0] == '#' {
      CommentedKey(key, value, quote);
    } else {
      ExportedKey(key, value, quote);
      NoNewlineOneLine(PrintLine(key, value, quote));
    }
  }

  /** A binding survives printing and parsing if and only if it is printable. */
  lemma PrintableExactly(key: string, value: string, quote: Quote)
    ensures Parse(PrintLine(key, value, quote)) == map[key := value] <==> Printable(key, value)
  {
    var line := PrintLine(key, value, quote);
    if Printable(key, value) {
      PrintedLine(key, value, quote);
      NoNewlineOneLine(line);
    } else {
      LinesHaveNoNewline(line);
      ParsedMapIsClean(map[], Lines(line));
      var parsed := Parse(line);
      if parsed == map[key := value] {
        assert key in parsed && parsed[key] == value;
        assert CleanBinding(key, parsed[key]);
        MisreadKey(key, value, quote);
      }
    }
  }

  // ----- whole environments -----------------------------------------------------------------

  predicate DistinctKeys(bindings: seq<(string, string)>) {
    forall i, j :: 0 <= i < j < |bindings| ==> bindings[i].0 != bindings[j].0
  }

  predicate AllBindingsClean(bindings: seq<(string, string)>) {
    forall i :: 0 <= i < |bindings| ==> CleanBinding(bindings[i].0, bindings[i].1)
  }

  lemma {:induction false} AsMapKeys(bindings: seq<(string, string)>, key: string)
    ensures key in AsMap(bindings) ==> exists i :: 0 <= i < |bindings| && bindings[i].0 == key
    decreases |bindings|
  {
    if bindings != [] && key in AsMap(bindings) {
      AsMapKeys(bindings[1..], key);
      if key != bindings[0].0 {
        var i :| 0 <= i < |bindings| - 1 && bindings[1..][i].0 == key;
        assert bindings[i + 1].0 == key;
      }
    }
  }

  /** With distinct keys, the map holds every binding of the list. */
  lemma {:induction false} AsMapHolds(bindings: seq<(string, string)>, i: nat)
    requires DistinctKeys(bindings) && i < |bindings|
    ensures bindings[i].0 in AsMap(bindings) && AsMap(bindings)[bindings[i].0] == bindings[i].1
    decreases |bindings|
  {
    if i == 0 {
      AsMapKeys(bindings[1..], bindings[0].0);
    } else {
      AsMapHolds(bindings[1..], i - 1);
    }
  }

  /** Every key that is read back comes from one of the printed lines. */
  lemma {:induction false} KeySource(bindings: seq<(string, string)>, quote: Quote, key: string) returns (i: nat)
    requires key in Parse(Print(bindings, quote))
    ensures i < |bindings| && key in Parse(PrintLine(bindings[i].0, bindings[i].1, quote))
    decreases |bindings|
  {
    if bindings == [] {
      NoNewlineOneLine([]);
      assert false;
    } else {
      var line := PrintLine(bindings[0].0, bindings[0].1, quote);
      JoinOverrides(line, Print(bindings[1..], quote));
      if key in Parse(line) {
        i := 0;
      } else {
        var later := KeySource(bindings[1..], quote, key);
        i := later + 1;
      }
    }
  }

  /** A clean line yields its own key if that is printable, a shorter one if it starts like an export, or nothing. */
  lemma YieldedKey(key: string, value: string, quote: Quote, yielded: string)
    requires CleanBinding(key, value) && yielded in Parse(PrintLine(key, value, quote))
    ensures if Printable(key, value) then yielded == key else EXPORT <= key && |yielded| < |key|
  {
    NoNewlineOneLine(PrintLine(key, value, quote));
    if Printable(key, value) {
      PrintedLine(key, value, quote);
    } else if key[0] == '#' {
      CommentedKey(key, value, quote);
    } else {
      ExportedKey(key, value, quote);
    }
  }

  /** In an environment that is read back, a key like an export would need a longer one to come from. */
  lemma {:induction false} NoExportKey(bindings: seq<(string, string)>, quote: Quote, longest: nat, j: nat)
    requires AllBindingsClean(bindings) && DistinctKeys(bindings) && j < |bindings|
    requires Parse(Print(bindings, quote)) == AsMap(bindings)
    requires forall i :: 0 <= i < |bindings| ==> |bindings[i].0| <= longest
    ensures !(EXPORT <= bindings[j].0)
    decreases longest - |bindings[j].0|
  {
    if EXPORT <= bindings[j].0 {
      AsMapHolds(bindings, j);
      var i := KeySource(bindings, quote, bindings[j].0);
      YieldedKey(bindings[i].0, bindings[i].1, quote, bindings[j].0);
      NoExportKey(bindings, quote, longest, i);
    }
  }

  function LongestKey(bindings: seq<(string, string)>): nat {
    if bindings == [] then 0
    else if |bindings[0].0| > LongestKey(bindings[1..]) then |bindings[0].0| else LongestKey(bindings[1..])
  }

  lemma {:induction false} LongestKeyBounds(bindings: seq<(string, string)>)
    ensures forall i :: 0 <= i < |bindings| ==> |bindings[i].0| <= LongestKey(bindings)
    decreases |bindings|
  {
    if bindings != [] {
      LongestKeyBounds(bindings[1..]);
      assert bindings == [bindings[0]] + bindings[1..];
    }
  }

  lemma ReadBackIsClean(bindings: seq<(string, string)>, quote: Quote)
    requires DistinctKeys(bindings) && Parse(Print(bindings, quote)) == AsMap(bindings)
    ensures AllBindingsClean(bindings)
  {
    LinesHaveNoNewline(Print(bindings, quote));
    ParsedMapIsClean(map[], Lines(Print(bindings, quote)));
    forall i | 0 <= i < |bindings| ensures CleanBinding(bindings[i].0, bindings[i].1) {
      AsMapHolds(bindings, i);
    }
  }

  /** An environment survives printing and parsing if and only if every one of its bindings is printable. */
  lemma EnvironmentPrintsExactly(bindings: seq<(string, string)>, quote: Quote)
    requires DistinctKeys(bindings)
    ensures Parse(Print(bindings, quote)) == AsMap(bindings) <==> AllPrintable(bindings)
  {
    if AllPrintable(bindings) {
      PrintRoundTrip(bindings, quote);
    } else if Parse(Print(bindings, quote)) == AsMap(bindings) {
      ReadBackIsClean(bindings, quote);
      LongestKeyBounds(bindings);
      var j :| 0 <= j < |bindings| && !Printable(bindings[j].0, bindings[j].1);
      NoExportKey(bindings, quote, LongestKey(bindings), j);
      AsMapHolds(bindings, j);
      var i := KeySource(bindings, quote, bindings[j].0);
      NoExportKey(bindings, quote, LongestKey(bindings), i);
      YieldedKey(bindings[i].0, bindings[i].1, quote, bindings[j].0);
      assert false;
    }
  }

  lemma ExportedBinding(key: string, value: string, quote: Quote)
    requires Printable(key, value)
    ensures ParseLine(EXPORT + PrintLine(key, value, quote)) == Some((key, value))
  {
    var line := PrintLine(key, value, quote);
    assert line[0] == key[0] && line[|line| - 1] == quote;
    TrimIsTrimmed(key);
    SolidEnds(line);
    PrintedIsNotExport(key, value, quote);
    ExportIsIgnored(line);
    PrintedLine(key, value, quote);
  }

  lemma OneBinding(line: string, key: string, value: string)
    requires '\n' !in line && ParseLine(line) == Some((key, value)) && key != PROTO
    ensures Parse(line) == map[key := value]
  {
    NoNewlineOneLine(line);
  }

  lemma PrintedHasNoNewline(key: string, value: string, quote: Quote)
    requires '\n' !in key && '\n' !in value
    ensures '\n' !in PrintLine(key, value, quote)
  {
  }

  lemma ExportedLine(key: string, value: string, quote: Quote)
    requires Printable(key, value)
    ensures Parse(PrintLine(EXPORT + key, value, quote)) == map[key := value]
  {
    assert PrintLine(EXPORT + key, value, quote) == EXPORT + PrintLine(key, value, quote);
    ExportedBinding(key, value, quote);
    assert '\n' !in EXPORT;
    PrintedHasNoNewline(EXPORT + key, value, quote);
    OneBinding(PrintLine(EXPORT + key, value, quote), key, value);
  }

  lemma ParseOneLine(binding: (string, string), quote: Quote)
    ensures Parse(Print([binding], quote)) == Parse(PrintLine(binding.0, binding.1, quote))
  {
    var line := PrintLine(binding.0, binding.1, quote);
    assert [binding][1..] == [];
    NoNewlineOneLine([]);
    assert Print([binding], quote) == line + ['\n'] + [];
    JoinOverrides(line, []);
  }

  lemma ParseTwoLines(first: (string, string), second: (string, string), quote: Quote)
    ensures Parse(Print([first, second], quote)) ==
              Parse(PrintLine(first.0, first.1, quote)) + Parse(PrintLine(second.0, second.1, quote))
  {
    assert [first, second][1..] == [second];
    ParseOneLine(second, quote);
    JoinOverrides(PrintLine(first.0, first.1, quote), Print([second], quote));
  }

  /** One unprintable binding can take a printable one with it: `export a` overwrites `a`. */
  lemma ExportOverwrites(key: string, value: string, other: string, quote: Quote)
    requires Printable(key, value) && Printable(key, other)
    ensures Parse(Print([(key, value), (EXPORT + key, other)], quote)) == map[key := other]
  {
    ParseTwoLines((key, value), (EXPORT + key, other), quote);
    PrintedLine(key, value, quote);
    PrintedHasNoNewline(key, value, quote);
    OneBinding(PrintLine(key, value, quote), key, value);
    ExportedLine(key, other, quote);
  }
}
