/** Settings written down as configuration text and read back by the two parsers. */
module ConfigRoundTrip {
  import opened Basics
  import opened ConfigLines

  datatype Setting = Setting(name: string, value: FlagValue)

  predicate Quote(c: char) {
    c == '"' || c == '\''
  }

  /** A value that needs no quoting: no blanks around it, no quotes at its ends, no comment in it. */
  ghost predicate Plain(py: Python, text: string) {
    && text != "" && Trimmed(py, text) && text[0] != '#'
    && !Quote(text[0]) && !Quote(text[|text| - 1])
    && forall k :: 0 <= k < |text| ==> !CommentAt(text, k)
  }

  ghost predicate PlainName(py: Python, name: string) {
    name != "" && name[0] != '#' && GoodKey(py, name)
  }

  /** What is taken from Python: blanks are white space and the header's ends are not, lower-case
      words stay as they are, and integers read back from the text `show` gives them. */
  ghost predicate Usual(py: Python, show: int -> string) {
    && py.space(' ') && !py.space(':') && !py.space('f') && !py.space('c')
    && py.lower("true") == "true" && py.lower("false") == "false"
    && Plain(py, "true") && Plain(py, "false")
    && forall i :: Plain(py, show(i)) && py.toInt(show(i)) == Some(i)
  }

  function ShowBool(b: bool): string {
    if b then "true" else "false"
  }

  function Show(show: int -> string, v: FlagValue): string {
    match v case BoolValue(b) => ShowBool(b) case IntValue(i) => show(i) case StrValue(s) => s
  }

  function Written(name: string, text: string): string {
    "  " + name + ": " + text
  }

  function TypeOf(v: FlagValue): FlagType {
    match v case BoolValue(_) => BoolFlag case IntValue(_) => IntFlag case StrValue(_) => StrFlag
  }

  /** A setting of an existing flag, of the right type. */
  ghost predicate Settable(schema: Schema, py: Python, s: Setting) {
    && s.name in schema.known && s.name !in schema.legacy && schema.known[s.name] == TypeOf(s.value)
    && PlainName(py, s.name) && (s.value.StrValue? ==> Plain(py, s.value.s))
  }

  // ---- One line -----------------------------------------------------------------------------------

  lemma WrittenParses(py: Python, name: string, text: string)
    requires py.space(' ') && PlainName(py, name) && Plain(py, text)
    ensures ParseLine(py, Written(name, text)) == Some(Line(name + ": " + text, 2))
  {
    var raw, stripped := Written(name, text), name + ": " + text;
    assert raw[|raw| - 1] == text[|text| - 1];
    StripRightIs(py, raw);
    assert raw[0] == ' ' && raw[1..][0] == ' ' && raw[1..][1..] == stripped;
    assert stripped[0] == name[0];
    assert StripLeft(py, stripped) == stripped;
    assert StripLeft(py, raw[1..]) == stripped;
  }

  lemma NoCommentBefore(text: string)
    requires text != "" && text[0] != '#' && forall k :: 0 <= k < |text| ==> !CommentAt(text, k)
    ensures StripInlineComment(" " + text) == " " + text
  {
    var value := " " + text;
    CutAtFirstComment(value);
    var k := |StripInlineComment(value)|;
    if CommentAt(value, k) && k > 0 {
      assert value[k] == text[k - 1] && value[k + 1] == text[k];
      assert CommentAt(text, k - 1);
    }
  }

  lemma ValueReadsBack(py: Python, text: string)
    requires py.space(' ') && Plain(py, text)
    ensures Strip(py, StripInlineComment(" " + text)) == text
  {
    NoCommentBefore(text);
    assert (" " + text)[1..] == text;
    assert StripLeft(py, " " + text) == StripLeft(py, text) == text;
    StripRightIs(py, text);
  }

  lemma SplitsAtName(py: Python, name: string, text: string)
    requires PlainName(py, name)
    ensures SplitColon(name + ": " + text) == Some((name, " " + text))
    ensures !("- " <= name + ": " + text)
    ensures Strip(py, name) == name
  {
    assert name + ": " + text == name + ":" + (" " + text);
    SplitColonFinds(name, " " + text);
    NotListItem(name, " " + text);
    TrimmedStrips(py, name);
  }

  lemma UnquoteLeaves(text: string, q: char)
    requires text != "" && text[0] != q && text[|text| - 1] != q
    ensures Unquote(text, q) == text
  {
  }

  lemma ValueParses(py: Python, show: int -> string, v: FlagValue)
    requires Usual(py, show) && (v.StrValue? ==> Plain(py, v.s))
    ensures Plain(py, Show(show, v)) && ParseFlag(py, TypeOf(v), Show(show, v)) == Some(v)
  {
    var text := Show(show, v);
    assert v.IntValue? ==> Plain(py, show(v.i)) && py.toInt(show(v.i)) == Some(v.i);
    UnquoteLeaves(text, '"');
    UnquoteLeaves(text, '\'');
  }

  lemma SettingTakesEffect(schema: Schema, py: Python, show: int -> string, found: map<string, FlagValue>, s: Setting)
    requires Usual(py, show) && Settable(schema, py, s)
    ensures ParseLine(py, Written(s.name, Show(show, s.value))).Some?
    ensures FlagLine(schema, py, Flags(found, true, []), ParseLine(py, Written(s.name, Show(show, s.value))).value)
            == Next(Flags(found[s.name := s.value], true, []))
  {
    var text := Show(show, s.value);
    ValueParses(py, show, s.value);
    WrittenParses(py, s.name, text);
    ValueReadsBack(py, text);
    SplitsAtName(py, s.name, text);
    assert BuildDotted([], 2, s.name) == s.name;
  }

  // ---- Whole files ------------------------------------------------------------------------------------

  function Text(show: int -> string, settings: seq<Setting>): seq<string> {
    if settings == [] then []
    else [Written(settings[0].name, Show(show, settings[0].value))] + Text(show, settings[1..])
  }

  /** Later settings of a name win. */
  function Assigned(found: map<string, FlagValue>, settings: seq<Setting>): map<string, FlagValue>
    decreases settings
  {
    if settings == [] then found else Assigned(found[settings[0].name := settings[0].value], settings[1..])
  }

  lemma {:induction false} SettingsLoad(schema: Schema, py: Python, show: int -> string,
                                        found: map<string, FlagValue>, settings: seq<Setting>)
    requires Usual(py, show) && forall i :: 0 <= i < |settings| ==> Settable(schema, py, settings[i])
    ensures LoadFlags(schema, py, Flags(found, true, []), Lines(py, Text(show, settings)))
            == Flags(Assigned(found, settings), true, [])
    ensures FlagWarnings(schema, py, Flags(found, true, []), Lines(py, Text(show, settings))) == 0
    decreases settings
  {
    if settings != [] {
      var s, rest := settings[0], Text(show, settings[1..]);
      var raw := Written(s.name, Show(show, s.value));
      SettingTakesEffect(schema, py, show, found, s);
      LinesOfCons(py, raw, rest);
      assert Lines(py, Text(show, settings))[1..] == Lines(py, rest);
      SettingsLoad(schema, py, show, found[s.name := s.value], settings[1..]);
    }
  }

  lemma HeaderParses(py: Python, header: string)
    requires header != "" && !py.space(header[0]) && !py.space(header[|header| - 1]) && header[0] != '#'
    ensures ParseLine(py, header) == Some(Line(header, 0))
  {
    StripRightIs(py, header);
  }

  /** Flags that are written down are read back, each with its value, and without a warning. */
  lemma FlagsRoundTrip(schema: Schema, py: Python, show: int -> string, settings: seq<Setting>)
    requires Usual(py, show) && forall i :: 0 <= i < |settings| ==> Settable(schema, py, settings[i])
    ensures var lines := Lines(py, ["feature_flags:"] + Text(show, settings));
            && LoadFlags(schema, py, NO_FLAGS, lines).found == Assigned(map[], settings)
            && FlagWarnings(schema, py, NO_FLAGS, lines) == 0
  {
    var rest := Text(show, settings);
    HeaderParses(py, "feature_flags:");
    LinesOfCons(py, "feature_flags:", rest);
    assert Lines(py, ["feature_flags:"] + rest)[1..] == Lines(py, rest);
    SettingsLoad(schema, py, show, map[], settings);
  }

  // ---- Capabilities -----------------------------------------------------------------------------------

  datatype Capability = Capability(name: string, on: bool)

  function CapText(caps: seq<Capability>): seq<string> {
    if caps == [] then [] else [Written(caps[0].name, ShowBool(caps[0].on))] + CapText(caps[1..])
  }

  function Granted(found: map<string, bool>, caps: seq<Capability>): map<string, bool>
    decreases caps
  {
    if caps == [] then found else Granted(found[caps[0].name := caps[0].on], caps[1..])
  }

  lemma BoolTexts(on: bool)
    ensures ShowBool(on) in TRUE_LITERALS <==> on
    ensures ShowBool(on) in FALSE_LITERALS <==> !on
  {
    assert "true" != "false";
    assert "true" !in FALSE_LITERALS && "false" !in TRUE_LITERALS;
  }

  lemma CapabilityTakesEffect(py: Python, show: int -> string, found: map<string, bool>, c: Capability)
    requires Usual(py, show) && c.name in CAPABILITIES && PlainName(py, c.name)
    ensures ParseLine(py, Written(c.name, ShowBool(c.on))).Some?
    ensures CapsLine(py, Caps(found, true), ParseLine(py, Written(c.name, ShowBool(c.on))).value)
            == Next(Caps(found[c.name := c.on], true))
  {
    var text := ShowBool(c.on);
    WrittenParses(py, c.name, text);
    ValueReadsBack(py, text);
    SplitsAtName(py, c.name, text);
    BoolTexts(c.on);
    assert py.lower(text) == text;
  }

  lemma {:induction false} CapabilitiesLoad(py: Python, show: int -> string, found: map<string, bool>,
                                            caps: seq<Capability>)
    requires Usual(py, show)
    requires forall i :: 0 <= i < |caps| ==> caps[i].name in CAPABILITIES && PlainName(py, caps[i].name)
    ensures LoadCaps(py, Caps(found, true), Lines(py, CapText(caps))) == Some(Caps(Granted(found, caps), true))
    ensures CapsWarnings(py, Caps(found, true), Lines(py, CapText(caps))) == 0
    decreases caps
  {
    if caps != [] {
      var c, rest := caps[0], CapText(caps[1..]);
      CapabilityTakesEffect(py, show, found, c);
      LinesOfCons(py, Written(c.name, ShowBool(c.on)), rest);
      assert Lines(py, CapText(caps))[1..] == Lines(py, rest);
      CapabilitiesLoad(py, show, found[c.name := c.on], caps[1..]);
    }
  }

  lemma CapabilitiesRoundTrip(py: Python, show: int -> string, caps: seq<Capability>)
    requires Usual(py, show)
    requires forall i :: 0 <= i < |caps| ==> caps[i].name in CAPABILITIES && PlainName(py, caps[i].name)
    ensures var lines := Lines(py, ["capabilities:"] + CapText(caps));
            && LoadCaps(py, NO_CAPS, lines) == Some(Caps(Granted(map[], caps), true))
            && CapsWarnings(py, NO_CAPS, lines) == 0
  {
    var rest := CapText(caps);
    HeaderParses(py, "capabilities:");
    LinesOfCons(py, "capabilities:", rest);
    assert Lines(py, ["capabilities:"] + rest)[1..] == Lines(py, rest);
    CapabilitiesLoad(py, show, map[], caps);
  }
}
