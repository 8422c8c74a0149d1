/** The two line-driven configuration parsers: capability flags and feature flags. */
module ConfigLines {
  import opened Basics

  /** The parts of Python's text handling that the parsers use. */
  datatype Python = Python(space: char -> bool, lower: string -> string, toInt: string -> Option<int>)

  // ---- Lines ---------------------------------------------------------------------------------------

  function StripLeft(py: Python, s: string): string {
    if s != [] && py.space(s[0]) then StripLeft(py, s[1..]) else s
  }

  function StripRight(py: Python, s: string): string {
    if s != [] && py.space(s[|s| - 1]) then StripRight(py, s[..|s| - 1]) else s
  }

  function Strip(py: Python, s: string): string {
    StripRight(py, StripLeft(py, s))
  }

  /** A content line: what stands after its indentation. */
  datatype Line = Line(stripped: string, indent: nat)

  lemma {:induction false} StripLeftShortens(py: Python, s: string)
    ensures |StripLeft(py, s)| <= |s|
  {
    if s != [] && py.space(s[0]) { StripLeftShortens(py, s[1..]); }
  }

  /** None for blank lines and comments. */
  function ParseLine(py: Python, raw: string): Option<Line> {
    var line := StripRight(py, raw);
    var stripped := StripLeft(py, line);
    StripLeftShortens(py, line);
    if stripped == "" || stripped[0] == '#' then None else Some(Line(stripped, |line| - |stripped|))
  }

  /** Before the first colon, and after it; None when there is no colon. */
  function SplitColon(s: string): Option<(string, string)> {
    if s == [] then None
    else if s[0] == ':' then Some(("", s[1..]))
    else
      var rest := SplitColon(s[1..]);
      if rest.None? then None else Some(([s[0]] + rest.value.0, rest.value.1))
  }

  /** The index of the first `c` that a '#' follows, or -1 (`value.find`). */
  function FindBeforeHash(s: string, c: char): int {
    if |s| < 2 then -1
    else if s[0] == c && s[1] == '#' then 0
    else
      var i := FindBeforeHash(s[1..], c);
      if i == -1 then -1 else i + 1
  }

  lemma {:induction false} FindBeforeHashIs(s: string, c: char)
    ensures var i := FindBeforeHash(s, c);
            && -1 <= i && i + 1 < |s| + (if i == -1 then 1 else 0)
            && (i >= 0 ==> s[i] == c && s[i + 1] == '#')
            && forall k :: 0 <= k < |s| - 1 && (i == -1 || k < i) ==> !(s[k] == c && s[k + 1] == '#')
  {
    if |s| >= 2 && !(s[0] == c && s[1] == '#') {
      FindBeforeHashIs(s[1..], c);
      assert forall k :: 1 <= k < |s| ==> s[1..][k - 1] == s[k];
    }
  }

  function StripInlineComment(value: string): string {
    var spaceAt, tabAt := FindBeforeHash(value, ' '), FindBeforeHash(value, '\t');
    FindBeforeHashIs(value, ' ');
    FindBeforeHashIs(value, '\t');
    if spaceAt == -1 && tabAt == -1 then value
    else if spaceAt == -1 then value[..tabAt]
    else if tabAt == -1 then value[..spaceAt]
    else value[..if spaceAt < tabAt then spaceAt else tabAt]
  }

  /** A comment starts at the position. */
  ghost predicate CommentAt(value: string, i: int) {
    0 <= i < |value| - 1 && (value[i] == ' ' || value[i] == '\t') && value[i + 1] == '#'
  }

  /** The value is cut at the first comment start: a '#' after a blank or tab (section 6.6 of YAML 1.2). */
  lemma CutAtFirstComment(value: string)
    ensures StripInlineComment(value) <= value
    ensures StripInlineComment(value) != value ==> CommentAt(value, |StripInlineComment(value)|)
    ensures forall k :: 0 <= k < |StripInlineComment(value)| ==> !CommentAt(value, k)
  {
    FindBeforeHashIs(value, ' ');
    FindBeforeHashIs(value, '\t');
  }

  const TRUE_LITERALS: set<string> := {"true", "yes", "on", "1"}
  const FALSE_LITERALS: set<string> := {"false", "no", "off", "0"}

  function ParseBool(py: Python, s: string): Option<bool> {
    var low := py.lower(s);
    if low in TRUE_LITERALS then Some(true) else if low in FALSE_LITERALS then Some(false) else None
  }

  // ---- Capabilities ----------------------------------------------------------------------------------

  const CAPABILITIES: set<string> :=
    {"ENABLE_DYNAMIC_TOOLS", "REQUIRE_DYNAMIC_TOOL_SANDBOX", "ENABLE_MCP_GATEWAY_MANAGEMENT",
     "ENABLE_DYNAMIC_MCP_SERVERS", "ENABLE_SERVER_OPS"}

  datatype Caps = Caps(found: map<string, bool>, inBlock: bool)

  /** What a line does: change the state, earn a warning, or make the load raise. */
  datatype Effect<T> = Next(state: T) | Warn | Raise

  function CapsLine(py: Python, st: Caps, line: Line): Effect<Caps> {
    if line.indent == 0 then Next(st.(inBlock := "capabilities:" <= line.stripped))
    else if !st.inBlock then Next(st)
    else if "- " <= line.stripped then Raise
    else
      var parts := SplitColon(line.stripped);
      if parts.None? then Warn
      else
        var key := Strip(py, parts.value.0);
        var value := py.lower(Strip(py, StripInlineComment(parts.value.1)));
        if key !in CAPABILITIES then Warn
        else if value in TRUE_LITERALS then Next(st.(found := st.found[key := true]))
        else if value in FALSE_LITERALS then Next(st.(found := st.found[key := false]))
        else Warn
  }

  /** None: the load raises ValueError. */
  function LoadCaps(py: Python, st: Caps, lines: seq<Line>): Option<Caps>
    decreases lines
  {
    if lines == [] then Some(st)
    else match CapsLine(py, st, lines[0])
      case Next(st') => LoadCaps(py, st', lines[1..])
      case Warn => LoadCaps(py, st, lines[1..])
      case Raise => None
  }

  /** The lines that earn no warning. */
  function QuietCaps(py: Python, st: Caps, lines: seq<Line>): seq<Line>
    decreases lines
  {
    if lines == [] then []
    else match CapsLine(py, st, lines[0])
      case Next(st') => [lines[0]] + QuietCaps(py, st', lines[1..])
      case Warn => QuietCaps(py, st, lines[1..])
      case Raise => lines
  }

  function CapsWarnings(py: Python, st: Caps, lines: seq<Line>): nat
    decreases lines
  {
    if lines == [] then 0
    else match CapsLine(py, st, lines[0])
      case Next(st') => CapsWarnings(py, st', lines[1..])
      case Warn => 1 + CapsWarnings(py, st, lines[1..])
      case Raise => 0
  }

  const NO_CAPS := Caps(map[], false)

  method LoadCapabilities(py: Python, lines: seq<Line>) returns (found: Option<map<string, bool>>, warnings: nat)
    ensures found.Some? <==> LoadCaps(py, NO_CAPS, lines).Some?
    ensures found.Some? ==> found.value == LoadCaps(py, NO_CAPS, lines).value.found
                            && warnings == CapsWarnings(py, NO_CAPS, lines)
  {
    var st := NO_CAPS;
    warnings := 0;
    for i := 0 to |lines|
      invariant LoadCaps(py, st, lines[i..]) == LoadCaps(py, NO_CAPS, lines)
      invariant warnings + CapsWarnings(py, st, lines[i..]) == CapsWarnings(py, NO_CAPS, lines)
    {
      var line := lines[i];
      assert lines[i..][1..] == lines[i + 1..];
      if line.indent == 0 {
        st := st.(inBlock := "capabilities:" <= line.stripped);
        continue;
      }
      if !st.inBlock {
        continue;
      }
      if "- " <= line.stripped {
        return None, warnings;
      }
      var parts := SplitColon(line.stripped);
      if parts.None? {
        warnings := warnings + 1;
        continue;
      }
      var key := Strip(py, parts.value.0);
      var value := py.lower(Strip(py, StripInlineComment(parts.value.1)));
      if key !in CAPABILITIES {
        warnings := warnings + 1;
        continue;
      }
      if value in TRUE_LITERALS {
        st := st.(found := st.found[key := true]);
      } else if value in FALSE_LITERALS {
        st := st.(found := st.found[key := false]);
      } else {
        warnings := warnings + 1;
      }
    }
    found := Some(st.found);
  }

  /** Deleting every line that earned a warning changes nothing that is loaded, and leaves no warning. */
  lemma {:induction false} CapsWithoutWarnings(py: Python, st: Caps, lines: seq<Line>)
    requires LoadCaps(py, st, lines).Some?
    ensures LoadCaps(py, st, QuietCaps(py, st, lines)) == LoadCaps(py, st, lines)
    ensures CapsWarnings(py, st, QuietCaps(py, st, lines)) == 0
    ensures |QuietCaps(py, st, lines)| + CapsWarnings(py, st, lines) == |lines|
    decreases lines
  {
    if lines != [] {
      match CapsLine(py, st, lines[0])
      case Next(st') =>
        CapsWithoutWarnings(py, st', lines[1..]);
        var quiet := QuietCaps(py, st', lines[1..]);
        assert ([lines[0]] + quiet)[1..] == quiet;
      case Warn => CapsWithoutWarnings(py, st, lines[1..]);
    }
  }

  // ---- Feature flags -----------------------------------------------------------------------------------

  datatype FlagType = BoolFlag | IntFlag | StrFlag
  datatype FlagValue = BoolValue(b: bool) | IntValue(i: int) | StrValue(s: string)

  /** The flags that exist, with their types, and those that are only recognised to be refused. */
  datatype Schema = Schema(known: map<string, FlagType>, legacy: set<string>)

  datatype Prefix = Prefix(indent: nat, key: string)

  datatype Flags = Flags(found: map<string, FlagValue>, inBlock: bool, stack: seq<Prefix>)

  function Shallower(stack: seq<Prefix>, indent: nat): seq<Prefix> {
    if stack == [] then []
    else (if stack[0].indent < indent then [stack[0]] else []) + Shallower(stack[1..], indent)
  }

  function Dotted(active: seq<Prefix>, key: string): string {
    if active == [] then key else active[0].key + "." + Dotted(active[1..], key)
  }

  function BuildDotted(stack: seq<Prefix>, indent: nat, key: string): string {
    if Shallower(stack, indent) == [] || '.' in key then key else Dotted(Shallower(stack, indent), key)
  }

  function Undotted(s: string): string {
    Map((c: char) => if c == '_' then '.' else c, s)
  }

  function NormalizeKey(schema: Schema, dotted: string): string {
    if dotted in schema.known then dotted
    else if Undotted(dotted) in schema.known then Undotted(dotted)
    else dotted
  }

  function Unquote(s: string, q: char): string {
    StripChar(StripCharLeft(s, q), q)
  }

  function StripCharLeft(s: string, c: char): string {
    if s != [] && s[0] == c then StripCharLeft(s[1..], c) else s
  }

  function StripChar(s: string, c: char): string {
    if s != [] && s[|s| - 1] == c then StripChar(s[..|s| - 1], c) else s
  }

  /** None: not a value of the flag's type. */
  function ParseFlag(py: Python, t: FlagType, text: string): Option<FlagValue> {
    var val := Unquote(Unquote(text, '"'), '\'');
    match t
    case BoolFlag => if ParseBool(py, val).Some? then Some(BoolValue(ParseBool(py, val).value)) else None
    case IntFlag => if py.toInt(val).Some? then Some(IntValue(py.toInt(val).value)) else None
    case StrFlag => Some(StrValue(val))
  }

  /** Setting a flag by its full name. */
  function SetFlag(schema: Schema, py: Python, st: Flags, dotted: string, text: string): Effect<Flags> {
    var name := NormalizeKey(schema, dotted);
    if name in schema.legacy || name !in schema.known then Warn
    else
      var value := ParseFlag(py, schema.known[name], text);
      if value.None? then Warn else Next(st.(found := st.found[name := value.value]))
  }

  function FlagLine(schema: Schema, py: Python, st: Flags, line: Line): Effect<Flags> {
    if line.indent == 0 then Next(Flags(st.found, "feature_flags:" <= line.stripped, []))
    else if !st.inBlock then Next(st)
    else if "- " <= line.stripped then Warn
    else
      var parts := SplitColon(line.stripped);
      if parts.None? then Next(st)
      else
        var key := Strip(py, parts.value.0);
        var rest := Strip(py, StripInlineComment(parts.value.1));
        if rest == "" then Next(st.(stack := Shallower(st.stack, line.indent) + [Prefix(line.indent, key)]))
        else SetFlag(schema, py, st, BuildDotted(st.stack, line.indent, key), rest)
  }

  function LoadFlags(schema: Schema, py: Python, st: Flags, lines: seq<Line>): Flags
    decreases lines
  {
    if lines == [] then st
    else match FlagLine(schema, py, st, lines[0])
      case Next(st') => LoadFlags(schema, py, st', lines[1..])
      case _ => LoadFlags(schema, py, st, lines[1..])
  }

  function QuietFlags(schema: Schema, py: Python, st: Flags, lines: seq<Line>): seq<Line>
    decreases lines
  {
    if lines == [] then []
    else match FlagLine(schema, py, st, lines[0])
      case Next(st') => [lines[0]] + QuietFlags(schema, py, st', lines[1..])
      case _ => QuietFlags(schema, py, st, lines[1..])
  }

  function FlagWarnings(schema: Schema, py: Python, st: Flags, lines: seq<Line>): nat
    decreases lines
  {
    if lines == [] then 0
    else match FlagLine(schema, py, st, lines[0])
      case Next(st') => FlagWarnings(schema, py, st', lines[1..])
      case _ => 1 + FlagWarnings(schema, py, st, lines[1..])
  }

  const NO_FLAGS := Flags(map[], false, [])

  method LoadFeatureFlags(schema: Schema, py: Python, lines: seq<Line>)
    returns (found: map<string, FlagValue>, warnings: nat)
    ensures found == LoadFlags(schema, py, NO_FLAGS, lines).found
    ensures warnings == FlagWarnings(schema, py, NO_FLAGS, lines)
  {
    var st := NO_FLAGS;
    warnings := 0;
    for i := 0 to |lines|
      invariant LoadFlags(schema, py, st, lines[i..]) == LoadFlags(schema, py, NO_FLAGS, lines)
      invariant warnings + FlagWarnings(schema, py, st, lines[i..]) == FlagWarnings(schema, py, NO_FLAGS, lines)
    {
      var line := lines[i];
      assert lines[i..][1..] == lines[i + 1..];
      if line.indent == 0 {
        st := Flags(st.found, "feature_flags:" <= line.stripped, []);
        continue;
      }
      if !st.inBlock {
        continue;
      }
      if "- " <= line.stripped {
        warnings := warnings + 1;
        continue;
      }
      var parts := SplitColon(line.stripped);
      if parts.None? {
        continue;
      }
      var key := Strip(py, parts.value.0);
      var rest := Strip(py, StripInlineComment(parts.value.1));
      if rest == "" {
        st := st.(stack := Shallower(st.stack, line.indent) + [Prefix(line.indent, key)]);
        continue;
      }
      var name := NormalizeKey(schema, BuildDotted(st.stack, line.indent, key));
      if name in schema.legacy || name !in schema.known {
        warnings := warnings + 1;
        continue;
      }
      var value := ParseFlag(py, schema.known[name], rest);
      if value.None? {
        warnings := warnings + 1;
        continue;
      }
      st := st.(found := st.found[name := value.value]);
    }
    found := st.found;
  }

  lemma {:induction false} FlagsWithoutWarnings(schema: Schema, py: Python, st: Flags, lines: seq<Line>)
    ensures LoadFlags(schema, py, st, QuietFlags(schema, py, st, lines)) == LoadFlags(schema, py, st, lines)
    ensures FlagWarnings(schema, py, st, QuietFlags(schema, py, st, lines)) == 0
    ensures |QuietFlags(schema, py, st, lines)| + FlagWarnings(schema, py, st, lines) == |lines|
    decreases lines
  {
    if lines != [] {
      match FlagLine(schema, py, st, lines[0])
      case Next(st') =>
        FlagsWithoutWarnings(schema, py, st', lines[1..]);
        var quiet := QuietFlags(schema, py, st', lines[1..]);
        assert ([lines[0]] + quiet)[1..] == quiet;
      case _ => FlagsWithoutWarnings(schema, py, st, lines[1..]);
    }
  }

  // ---- The prefix stack ------------------------------------------------------------------------------------

  ghost predicate Indented(stack: seq<Prefix>) {
    forall i, j :: 0 <= i < j < |stack| ==> stack[i].indent < stack[j].indent
  }

  lemma {:induction false} ShallowerIsPrefix(stack: seq<Prefix>, indent: nat)
    requires Indented(stack)
    ensures Shallower(stack, indent) <= stack
    ensures forall i :: 0 <= i < |Shallower(stack, indent)| ==> Shallower(stack, indent)[i].indent < indent
    ensures |Shallower(stack, indent)| < |stack| ==> stack[|Shallower(stack, indent)|].indent >= indent
  {
    if stack != [] {
      ShallowerIsPrefix(stack[1..], indent);
      assert stack == [stack[0]] + stack[1..];
      if stack[0].indent >= indent {
        NoneShallower(stack, indent);
      }
    }
  }

  lemma {:induction false} NoneShallower(stack: seq<Prefix>, indent: nat)
    requires forall i :: 0 <= i < |stack| ==> stack[i].indent >= indent
    ensures Shallower(stack, indent) == []
  {
    if stack != [] { NoneShallower(stack[1..], indent); }
  }

  /** At every line the indents on the stack strictly increase. */
  lemma {:induction false} StackStaysIndented(schema: Schema, py: Python, st: Flags, lines: seq<Line>)
    requires Indented(st.stack)
    ensures Indented(LoadFlags(schema, py, st, lines).stack)
    decreases lines
  {
    if lines != [] {
      ShallowerIsPrefix(st.stack, lines[0].indent);
      match FlagLine(schema, py, st, lines[0])
      case Next(st') => StackStaysIndented(schema, py, st', lines[1..]);
      case _ => StackStaysIndented(schema, py, st, lines[1..]);
    }
  }

  // ---- From text to lines ----------------------------------------------------------------------------------

  /** `iter_yaml_lines` over the lines of a text. */
  function Lines(py: Python, raws: seq<string>): seq<Line>
    decreases raws
  {
    if raws == [] then []
    else
      var line := ParseLine(py, raws[0]);
      (if line.Some? then [line.value] else []) + Lines(py, raws[1..])
  }

  /** The text without the lines that earned a warning. */
  function QuietCapsText(py: Python, st: Caps, raws: seq<string>): seq<string>
    decreases raws
  {
    if raws == [] then []
    else match ParseLine(py, raws[0])
      case None => [raws[0]] + QuietCapsText(py, st, raws[1..])
      case Some(line) =>
        match CapsLine(py, st, line)
        case Next(st') => [raws[0]] + QuietCapsText(py, st', raws[1..])
        case Warn => QuietCapsText(py, st, raws[1..])
        case Raise => raws
  }

  function QuietFlagsText(schema: Schema, py: Python, st: Flags, raws: seq<string>): seq<string>
    decreases raws
  {
    if raws == [] then []
    else match ParseLine(py, raws[0])
      case None => [raws[0]] + QuietFlagsText(schema, py, st, raws[1..])
      case Some(line) =>
        match FlagLine(schema, py, st, line)
        case Next(st') => [raws[0]] + QuietFlagsText(schema, py, st', raws[1..])
        case _ => QuietFlagsText(schema, py, st, raws[1..])
  }

  lemma LinesOfCons(py: Python, raw: string, raws: seq<string>)
    ensures Lines(py, [raw] + raws)
            == (if ParseLine(py, raw).Some? then [ParseLine(py, raw).value] else []) + Lines(py, raws)
  {
    assert ([raw] + raws)[1..] == raws;
  }

  lemma {:induction false} QuietCapsTextLines(py: Python, st: Caps, raws: seq<string>)
    ensures Lines(py, QuietCapsText(py, st, raws)) == QuietCaps(py, st, Lines(py, raws))
    decreases raws
  {
    if raws != [] {
      match ParseLine(py, raws[0])
      case None =>
        QuietCapsTextLines(py, st, raws[1..]);
        LinesOfCons(py, raws[0], QuietCapsText(py, st, raws[1..]));
        assert Lines(py, raws) == Lines(py, raws[1..]);
      case Some(line) =>
        assert Lines(py, raws)[1..] == Lines(py, raws[1..]);
        match CapsLine(py, st, line) {
          case Next(st') =>
            QuietCapsTextLines(py, st', raws[1..]);
            LinesOfCons(py, raws[0], QuietCapsText(py, st', raws[1..]));
          case Warn => QuietCapsTextLines(py, st, raws[1..]);
          case Raise =>
        }
    }
  }

  lemma {:induction false} QuietFlagsTextLines(schema: Schema, py: Python, st: Flags, raws: seq<string>)
    ensures Lines(py, QuietFlagsText(schema, py, st, raws)) == QuietFlags(schema, py, st, Lines(py, raws))
    decreases raws
  {
    if raws != [] {
      match ParseLine(py, raws[0])
      case None =>
        QuietFlagsTextLines(schema, py, st, raws[1..]);
        LinesOfCons(py, raws[0], QuietFlagsText(schema, py, st, raws[1..]));
        assert Lines(py, raws) == Lines(py, raws[1..]);
      case Some(line) =>
        assert Lines(py, raws)[1..] == Lines(py, raws[1..]);
        match FlagLine(schema, py, st, line) {
          case Next(st') =>
            QuietFlagsTextLines(schema, py, st', raws[1..]);
            LinesOfCons(py, raws[0], QuietFlagsText(schema, py, st', raws[1..]));
          case _ => QuietFlagsTextLines(schema, py, st, raws[1..]);
        }
    }
  }

  /** For every text that loads: deleting all the lines that earned a warning leaves what is loaded
      unchanged, in both parsers, and no warning remains. */
  lemma WarnedLinesDoNothing(schema: Schema, py: Python, raws: seq<string>)
    ensures LoadCaps(py, NO_CAPS, Lines(py, raws)).Some? ==>
              var quiet := Lines(py, QuietCapsText(py, NO_CAPS, raws));
              LoadCaps(py, NO_CAPS, quiet) == LoadCaps(py, NO_CAPS, Lines(py, raws))
              && CapsWarnings(py, NO_CAPS, quiet) == 0
    ensures var quiet := Lines(py, QuietFlagsText(schema, py, NO_FLAGS, raws));
            LoadFlags(schema, py, NO_FLAGS, quiet) == LoadFlags(schema, py, NO_FLAGS, Lines(py, raws))
            && FlagWarnings(schema, py, NO_FLAGS, quiet) == 0
  {
    QuietCapsTextLines(py, NO_CAPS, raws);
    QuietFlagsTextLines(schema, py, NO_FLAGS, raws);
    if LoadCaps(py, NO_CAPS, Lines(py, raws)).Some? {
      CapsWithoutWarnings(py, NO_CAPS, Lines(py, raws));
    }
    FlagsWithoutWarnings(schema, py, NO_FLAGS, Lines(py, raws));
  }

  // ---- Nested and flat forms ----------------------------------------------------------------------------------

  /** Every value line with its full dotted key, and no parent lines. */
  function Flattened(schema: Schema, py: Python, st: Flags, lines: seq<Line>): seq<Line>
    decreases lines
  {
    if lines == [] then []
    else
      var st' := (match FlagLine(schema, py, st, lines[0]) case Next(next) => next case _ => st);
      FlatLine(py, st, lines[0]) + Flattened(schema, py, st', lines[1..])
  }

  function FlatLine(py: Python, st: Flags, line: Line): seq<Line> {
    var parts := SplitColon(line.stripped);
    if line.indent == 0 || !st.inBlock || "- " <= line.stripped || parts.None? then [line]
    else if Strip(py, StripInlineComment(parts.value.1)) == "" then []
    else [Line(BuildDotted(st.stack, line.indent, Strip(py, parts.value.0)) + ":" + parts.value.1, line.indent)]
  }

  ghost predicate Trimmed(py: Python, s: string) {
    s != [] ==> !py.space(s[0]) && !py.space(s[|s| - 1])
  }

  /** A key that survives being written down and read again. */
  ghost predicate GoodKey(py: Python, key: string) {
    ':' !in key && !("- " <= key) && Trimmed(py, key)
  }

  ghost predicate GoodStack(py: Python, stack: seq<Prefix>) {
    forall i :: 0 <= i < |stack| ==> GoodKey(py, stack[i].key)
  }

  /** What `ParseLine` delivers: something that does not start with a blank. */
  ghost predicate Parsed(py: Python, lines: seq<Line>) {
    forall i :: 0 <= i < |lines| ==> lines[i].stripped != "" && !py.space(lines[i].stripped[0])
  }

  lemma {:induction false} SplitColonIs(s: string)
    ensures SplitColon(s).Some? ==>
              ':' !in SplitColon(s).value.0 && s == SplitColon(s).value.0 + ":" + SplitColon(s).value.1
  {
    if s != [] && s[0] != ':' {
      SplitColonIs(s[1..]);
      assert s == [s[0]] + s[1..];
    }
  }

  lemma {:induction false} SplitColonFinds(key: string, rest: string)
    requires ':' !in key
    ensures SplitColon(key + ":" + rest) == Some((key, rest))
  {
    var s := key + ":" + rest;
    if key == [] {
      assert s[1..] == rest;
    } else {
      assert s[1..] == key[1..] + ":" + rest;
      SplitColonFinds(key[1..], rest);
      assert key == [key[0]] + key[1..];
    }
  }

  lemma {:induction false} StripRightIs(py: Python, s: string)
    ensures StripRight(py, s) <= s
    ensures StripRight(py, s) != [] ==> !py.space(StripRight(py, s)[|StripRight(py, s)| - 1])
    ensures s != [] && !py.space(s[|s| - 1]) ==> StripRight(py, s) == s
  {
    if s != [] && py.space(s[|s| - 1]) { StripRightIs(py, s[..|s| - 1]); }
  }

  lemma TrimmedStrips(py: Python, s: string)
    requires Trimmed(py, s)
    ensures Strip(py, s) == s
  {
    StripRightIs(py, s);
  }

  /** The key of a line that is no list item. */
  lemma LineKeyIsGood(py: Python, line: Line)
    requires line.stripped != "" && !py.space(line.stripped[0]) && !("- " <= line.stripped)
    requires SplitColon(line.stripped).Some?
    ensures GoodKey(py, Strip(py, SplitColon(line.stripped).value.0))
  {
    var raw := SplitColon(line.stripped).value.0;
    SplitColonIs(line.stripped);
    assert raw != [] ==> raw[0] == line.stripped[0];
    assert StripLeft(py, raw) == raw;
    StripRightIs(py, raw);
    var key := Strip(py, raw);
    assert key <= raw <= line.stripped;
    forall c | c in key ensures c in raw {
      var i :| 0 <= i < |key| && key[i] == c;
      assert raw[i] == c;
    }
  }

  lemma DotKeepsGood(py: Python, p: string, key: string)
    requires GoodKey(py, p) && GoodKey(py, key) && !py.space('.')
    ensures GoodKey(py, p + "." + key)
  {
    var s := p + "." + key;
    assert ':' !in s;
    assert !("- " <= s) by {
      if |p| >= 2 {
        assert s[..2] == p[..2];
      } else if |p| == 1 {
        assert s[1] == '.';
      } else {
        assert s[0] == '.';
      }
    }
    assert s[0] == if p != [] then p[0] else '.';
    assert s[|s| - 1] == if key != [] then key[|key| - 1] else '.';
  }

  lemma {:induction false} DottedIsGood(py: Python, active: seq<Prefix>, key: string)
    requires GoodStack(py, active) && GoodKey(py, key) && !py.space('.')
    ensures GoodKey(py, Dotted(active, key))
  {
    if active != [] {
      DottedIsGood(py, active[1..], key);
      DotKeepsGood(py, active[0].key, Dotted(active[1..], key));
    }
  }

  lemma {:induction false} ShallowerIsGood(py: Python, stack: seq<Prefix>, indent: nat)
    requires GoodStack(py, stack)
    ensures GoodStack(py, Shallower(stack, indent))
  {
    if stack != [] { ShallowerIsGood(py, stack[1..], indent); }
  }

  /** A value line and its flat form do the same. */
  lemma FlatValueLine(schema: Schema, py: Python, st: Flags, indent: nat, key: string, rest: string)
    requires indent > 0 && st.inBlock && GoodStack(py, st.stack) && GoodKey(py, key) && !py.space('.')
    requires Strip(py, StripInlineComment(rest)) != ""
    ensures var dotted := BuildDotted(st.stack, indent, key);
            FlagLine(schema, py, st.(stack := []), Line(dotted + ":" + rest, indent))
            == SetFlag(schema, py, st.(stack := []), dotted, Strip(py, StripInlineComment(rest)))
  {
    var dotted := BuildDotted(st.stack, indent, key);
    ShallowerIsGood(py, st.stack, indent);
    DottedIsGood(py, Shallower(st.stack, indent), key);
    SplitColonFinds(dotted, rest);
    TrimmedStrips(py, dotted);
    assert !("- " <= dotted + ":" + rest) by { NotListItem(dotted, rest); }
  }

  lemma NotListItem(key: string, rest: string)
    requires !("- " <= key)
    ensures !("- " <= key + ":" + rest)
  {
    var s := key + ":" + rest;
    if |key| >= 2 {
      assert s[..2] == key[..2];
    } else if |key| == 1 {
      assert s[1] == ':';
    } else {
      assert s[0] == ':';
    }
  }

  lemma SetFlagIgnoresStack(schema: Schema, py: Python, st: Flags, dotted: string, text: string)
    ensures var a, b := SetFlag(schema, py, st, dotted, text), SetFlag(schema, py, st.(stack := []), dotted, text);
            && (a.Next? <==> b.Next?)
            && (a.Next? ==> a.state.stack == st.stack && a.state.inBlock == st.inBlock && b.state == a.state.(stack := []))
            && !a.Raise? && !b.Raise?
  {
  }

  /** One line, nested on the left and flat on the right. */
  lemma FlatStep(schema: Schema, py: Python, st: Flags, line: Line)
    requires GoodStack(py, st.stack) && !py.space('.')
    requires line.stripped != "" && !py.space(line.stripped[0])
    ensures var st' := (match FlagLine(schema, py, st, line) case Next(next) => next case _ => st);
            GoodStack(py, st'.stack)
            && LoadFlags(schema, py, st.(stack := []), FlatLine(py, st, line)) == st'.(stack := [])
  {
    var parts := SplitColon(line.stripped);
    var flat := FlatLine(py, st, line);
    if line.indent == 0 || !st.inBlock || "- " <= line.stripped || parts.None? {
      assert flat == [line] && flat[1..] == [];
    } else {
      var key, rest := Strip(py, parts.value.0), parts.value.1;
      LineKeyIsGood(py, line);
      ShallowerIsGood(py, st.stack, line.indent);
      if Strip(py, StripInlineComment(rest)) != "" {
        assert flat[1..] == [];
        FlatValueLine(schema, py, st, line.indent, key, rest);
        SetFlagIgnoresStack(schema, py, st, BuildDotted(st.stack, line.indent, key), Strip(py, StripInlineComment(rest)));
      }
    }
  }

  lemma {:induction false} LoadFlagsAppend(schema: Schema, py: Python, st: Flags, a: seq<Line>, b: seq<Line>)
    ensures LoadFlags(schema, py, st, a + b) == LoadFlags(schema, py, LoadFlags(schema, py, st, a), b)
    decreases a
  {
    if a == [] {
      assert a + b == b;
    } else {
      assert (a + b)[1..] == a[1..] + b;
      match FlagLine(schema, py, st, a[0])
      case Next(st') => LoadFlagsAppend(schema, py, st', a[1..], b);
      case _ => LoadFlagsAppend(schema, py, st, a[1..], b);
    }
  }

  /** The nested and the flat dotted form of a configuration mean the same, whatever the schema. */
  lemma {:induction false} FlatteningKeepsMeaning(schema: Schema, py: Python, st: Flags, lines: seq<Line>)
    requires GoodStack(py, st.stack) && Parsed(py, lines) && !py.space('.')
    ensures LoadFlags(schema, py, st.(stack := []), Flattened(schema, py, st, lines))
            == LoadFlags(schema, py, st, lines).(stack := [])
    decreases lines
  {
    if lines != [] {
      var st' := (match FlagLine(schema, py, st, lines[0]) case Next(next) => next case _ => st);
      FlatStep(schema, py, st, lines[0]);
      LoadFlagsAppend(schema, py, st.(stack := []), FlatLine(py, st, lines[0]), Flattened(schema, py, st', lines[1..]));
      FlatteningKeepsMeaning(schema, py, st', lines[1..]);
    }
  }
}
