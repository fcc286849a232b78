/**
 * `DefaultLoggerEntryFormatter`: how one log entry becomes a sequence of
 * sink calls. The two switch tables map a `LogLevel` to its label and its
 * colour; `Format` clamps the entry's indent, writes the optional date and
 * time, the level label, the category, the optional event id, the trimmed
 * message and the exception, and closes the entry.
 */
module EntryFormat {
  import opened Quoting

  /**
   * `LogLevel` of Microsoft.Extensions.Logging. It is an `int` enum, so a
   * cast can produce a value outside the named ones; the tables map those
   * to their default case.
   */
  type LogLevel = int
  const Trace: LogLevel := 0
  const Debug: LogLevel := 1
  const Information: LogLevel := 2
  const Warning: LogLevel := 3
  const Error: LogLevel := 4
  const Critical: LogLevel := 5
  const NoLevel: LogLevel := 6

  predicate IsNamedLevel(level: LogLevel)
  {
    Trace <= level <= NoLevel
  }

  /** The colour hints the entry formatter passes to the sink. */
  datatype ColorCategory = None | Detail | DebugColor | Info | WarningColor | ErrorColor | SevereError

  /** A point in time, as the sink receives it; its text is the sink's business. */
  type Instant = int

  /** What the entry carries. `message` is what the entry's own formatter makes of its state. */
  datatype LoggerEntry = LoggerEntry(
    logLevel: LogLevel,
    timestampUtc: Instant,
    categoryName: string,
    eventIdText: string,
    message: string,
    exceptionText: ExceptionText)

  /** `entry.Exception`: absent, or the text of its `ToString()`. */
  datatype ExceptionText = NoException | Thrown(text: string)

  /** One call on the sink; `padWidth` 0 is the sink's default (no padding). */
  datatype EntryCall =
    | BeginEntry(indentLevel: int)
    | Date(utc: Instant, color: ColorCategory)
    | Timestamp(utc: Instant, color: ColorCategory)
    | Field(text: string, color: ColorCategory, padWidth: nat)
    | AbbreviatedTypeName(typeName: string, color: ColorCategory, padWidth: nat)
    | Lines(text: string, color: ColorCategory, relativeIndent: int)
    | EndEntry

  const DefaultMaxIndentLevel: int := 4
  const LevelWidth: nat := 7
  const CategoryWidth: nat := 36
  const EventIdWidth: nat := 6

  /** The formatter's settings, as `Format` reads them. */
  datatype EntrySettings = EntrySettings(
    includeDate: bool,
    includeTimestamp: bool,
    relativeIndentLevel: int,
    maxIndentLevel: int,
    includeEventId: bool)

  /** `LogLevelToColorCategory`. */
  function LogLevelToColorCategory(level: LogLevel): (r: ColorCategory)
    ensures r == None <==> !(Trace <= level <= Critical)
  {
    if level == Information then Info
    else if level == Warning then WarningColor
    else if level == Debug then Detail
    else if level == Trace then DebugColor
    else if level == Error then ErrorColor
    else if level == Critical then SevereError
    else None
  }

  /** `LogLevelToLabel`. */
  function LogLevelToLabel(level: LogLevel): (r: string)
    ensures r == "" <==> !IsNamedLevel(level)
    ensures |r| <= LevelWidth || level == Critical
  {
    if level == Information then "Info"
    else if level == Warning then "Warning"
    else if level == Debug then "Debug"
    else if level == Trace then "Trace"
    else if level == Error then "Error"
    else if level == Critical then "CRITICAL"
    else if level == NoLevel then "None"
    else ""
  }

  /** The entry's colour: the level's, and `None` when the sink does not do colour. */
  function EntryColor(level: LogLevel, colorEnabled: bool): (r: ColorCategory)
    ensures r == None <==> !colorEnabled || !(Trace <= level <= Critical)
  {
    if colorEnabled then LogLevelToColorCategory(level) else None
  }

  const Int32Min: int := -0x8000_0000
  const Int32Max: int := 0x7fff_ffff

  predicate IsInt32(x: int)
  {
    Int32Min <= x <= Int32Max
  }

  /** C#'s unchecked `int` addition: the sum brought into the `int` range modulo 2^32. */
  function AddInt32(a: int, b: int): (r: int)
    ensures IsInt32(r)
    ensures (a + b - r) % 0x1_0000_0000 == 0
    ensures IsInt32(a + b) ==> r == a + b
  {
    (a + b - Int32Min) % 0x1_0000_0000 + Int32Min
  }

  /** `Math.Min(indentLevel + relativeIndentLevel, maxIndentLevel)`, the sum taken in `int` arithmetic. */
  function EntryIndentLevel(indentLevel: int, relativeIndentLevel: int, maxIndentLevel: int): (r: int)
    ensures r <= maxIndentLevel && r <= AddInt32(indentLevel, relativeIndentLevel)
    ensures r == maxIndentLevel || r == AddInt32(indentLevel, relativeIndentLevel)
  {
    var sum := AddInt32(indentLevel, relativeIndentLevel);
    if sum <= maxIndentLevel then sum else maxIndentLevel
  }

  /**
   * When the writer's indent plus the relative indent overflows `int`, the
   * sum wraps to a negative number, and that (not `MaxIndentLevel`) is the
   * indent the entry begins at.
   */
  lemma IndentOverflowWraps(indentLevel: int, relativeIndentLevel: int, maxIndentLevel: int)
    requires IsInt32(indentLevel) && IsInt32(relativeIndentLevel) && 0 <= maxIndentLevel
    requires indentLevel + relativeIndentLevel > Int32Max
    ensures var r := EntryIndentLevel(indentLevel, relativeIndentLevel, maxIndentLevel);
      r == indentLevel + relativeIndentLevel - 0x1_0000_0000 && r < 0
  {
    var s := indentLevel + relativeIndentLevel;
    assert 0 <= s - Int32Min - 0x1_0000_0000 < 0x1_0000_0000;
  }

  /** The exception's colour: `Debug` when the entry's is, `Detail` otherwise. */
  function ExceptionColor(color: ColorCategory): (r: ColorCategory)
    ensures r == DebugColor <==> color == DebugColor
    ensures r == DebugColor || r == Detail
  {
    if color == DebugColor then DebugColor else Detail
  }

  /** `TrimStart`: drops the leading white space. */
  function TrimStart(s: string): (r: string)
    ensures |r| <= |s|
    decreases |s|
  {
    if s != [] && IsWhiteSpace(s[0]) then TrimStart(s[1..]) else s
  }

  /** `TrimEnd`: drops the trailing white space. */
  function TrimEnd(s: string): (r: string)
    ensures |r| <= |s|
    decreases |s|
  {
    if s != [] && IsWhiteSpace(s[|s| - 1]) then TrimEnd(s[..|s| - 1]) else s
  }

  /** `TrimStart` keeps a suffix that does not start with white space, and drops only white space. */
  lemma {:induction false} TrimStartShape(s: string)
    ensures var r := TrimStart(s);
      && r == s[|s| - |r|..]
      && (r != [] ==> !IsWhiteSpace(r[0]))
      && forall i | 0 <= i < |s| - |r| :: IsWhiteSpace(s[i])
    decreases |s|
  {
    if s != [] && IsWhiteSpace(s[0]) {
      TrimStartShape(s[1..]);
    }
  }

  /** `TrimEnd` keeps a prefix that does not end with white space, and drops only white space. */
  lemma {:induction false} TrimEndShape(s: string)
    ensures var r := TrimEnd(s);
      && r == s[..|r|]
      && (r != [] ==> !IsWhiteSpace(r[|r| - 1]))
      && forall i | |r| <= i < |s| :: IsWhiteSpace(s[i])
    decreases |s|
  {
    if s != [] && IsWhiteSpace(s[|s| - 1]) {
      TrimEndShape(s[..|s| - 1]);
    }
  }

  /** `string.Trim()`. */
  function Trim(s: string): (r: string)
    ensures |r| <= |s|
    ensures r != [] ==> !IsWhiteSpace(r[0]) && !IsWhiteSpace(r[|r| - 1])
  {
    var u := TrimStart(s);
    TrimStartShape(s);
    TrimEndShape(u);
    assert TrimEnd(u) != [] ==> TrimEnd(u)[0] == u[0];
    TrimEnd(u)
  }

  /** The optional date and time calls. */
  function Stamps(settings: EntrySettings, entry: LoggerEntry): seq<EntryCall>
  {
    (if settings.includeDate then [Date(entry.timestampUtc, DebugColor)] else [])
    + (if settings.includeTimestamp then [Timestamp(entry.timestampUtc, Detail)] else [])
  }

  /** The label, the category, the optional event id and the trimmed message. */
  function Fields(settings: EntrySettings, entry: LoggerEntry, color: ColorCategory): seq<EntryCall>
  {
    [Field(LogLevelToLabel(entry.logLevel), color, LevelWidth),
     AbbreviatedTypeName(entry.categoryName, DebugColor, CategoryWidth)]
    + (if settings.includeEventId then [Field(entry.eventIdText, color, EventIdWidth)] else [])
    + [Field(Trim(entry.message), color, 0)]
  }

  /** The exception's lines, when there is an exception. */
  function ExceptionLines(entry: LoggerEntry, color: ColorCategory): seq<EntryCall>
  {
    match entry.exceptionText
    case NoException => []
    case Thrown(text) => [Lines(text, ExceptionColor(color), 1)]
  }

  /** The calls `Format` makes for `entry` on a sink at `indentLevel`, in order. */
  function EntryCalls(settings: EntrySettings, entry: LoggerEntry, indentLevel: int, colorEnabled: bool): (r: seq<EntryCall>)
    ensures |r| >= 5 && r[0].BeginEntry? && r[|r| - 1] == EndEntry
    ensures r[0].indentLevel <= settings.maxIndentLevel
  {
    BodyHasNoBoundary(settings, entry, EntryColor(entry.logLevel, colorEnabled));
    [BeginEntry(EntryIndentLevel(indentLevel, settings.relativeIndentLevel, settings.maxIndentLevel))]
    + EntryBody(settings, entry, EntryColor(entry.logLevel, colorEnabled))
    + [EndEntry]
  }

  /** What goes between the opening and the closing of an entry. */
  function EntryBody(settings: EntrySettings, entry: LoggerEntry, color: ColorCategory): seq<EntryCall>
  {
    Stamps(settings, entry) + Fields(settings, entry, color) + ExceptionLines(entry, color)
  }

  /** Each named level has its own label. */
  lemma LabelsDistinct(a: LogLevel, b: LogLevel)
    requires IsNamedLevel(a) && IsNamedLevel(b) && a != b
    ensures LogLevelToLabel(a) != LogLevelToLabel(b)
  {
    assert LogLevelToLabel(a)[0] != LogLevelToLabel(b)[0];
  }

  /** The label is empty exactly for a value outside the named levels. */
  lemma LabelEmptyIffUnnamed(level: LogLevel)
    ensures LogLevelToLabel(level) == "" <==> !IsNamedLevel(level)
  {
    if IsNamedLevel(level) {
      assert |LogLevelToLabel(level)| > 0;
    }
  }

  /** Trace through Critical have a colour each, all different; `None` and unnamed values have none. */
  lemma ColorsDistinct(a: LogLevel, b: LogLevel)
    ensures LogLevelToColorCategory(a) == None <==> !(Trace <= a <= Critical)
    ensures Trace <= a <= Critical && Trace <= b <= Critical && a != b
            ==> LogLevelToColorCategory(a) != LogLevelToColorCategory(b)
  {
  }

  /** The entry's indent never exceeds the maximum, and is the requested one whenever that fits. */
  lemma IndentClamped(settings: EntrySettings, entry: LoggerEntry, indentLevel: int, colorEnabled: bool)
    ensures var calls := EntryCalls(settings, entry, indentLevel, colorEnabled);
      && calls[0].BeginEntry?
      && calls[0].indentLevel <= settings.maxIndentLevel
      && (IsInt32(indentLevel + settings.relativeIndentLevel)
          && indentLevel + settings.relativeIndentLevel <= settings.maxIndentLevel
          ==> calls[0].indentLevel == indentLevel + settings.relativeIndentLevel)
  {
  }

  predicate IsBoundary(call: EntryCall)
  {
    call.BeginEntry? || call.EndEntry?
  }

  /** Nothing between the opening and the closing opens or closes an entry. */
  lemma BodyHasNoBoundary(settings: EntrySettings, entry: LoggerEntry, color: ColorCategory)
    ensures var body := EntryBody(settings, entry, color);
      |body| >= 3 && forall i | 0 <= i < |body| :: !IsBoundary(body[i])
  {
    var stamps, fields, lines := Stamps(settings, entry), Fields(settings, entry, color), ExceptionLines(entry, color);
    assert forall i | 0 <= i < |stamps| :: !IsBoundary(stamps[i]);
    assert forall i | 0 <= i < |fields| :: !IsBoundary(fields[i]);
    assert forall i | 0 <= i < |lines| :: !IsBoundary(lines[i]);
    NoBoundaryJoined(stamps, fields);
    NoBoundaryJoined(stamps + fields, lines);
  }

  /** Two runs without a bracket call joined make one. */
  lemma NoBoundaryJoined(a: seq<EntryCall>, b: seq<EntryCall>)
    requires forall i | 0 <= i < |a| :: !IsBoundary(a[i])
    requires forall i | 0 <= i < |b| :: !IsBoundary(b[i])
    ensures forall i | 0 <= i < |a + b| :: !IsBoundary((a + b)[i])
  {
    forall i | 0 <= i < |a + b|
      ensures !IsBoundary((a + b)[i])
    {
      if i < |a| {
        assert (a + b)[i] == a[i];
      } else {
        assert (a + b)[i] == b[i - |a|];
      }
    }
  }

  /** Every entry is one `BeginEntry` ... `EndEntry` bracket, with no other bracket inside. */
  lemma EntryIsBracketed(settings: EntrySettings, entry: LoggerEntry, indentLevel: int, colorEnabled: bool)
    ensures var calls := EntryCalls(settings, entry, indentLevel, colorEnabled);
      && |calls| >= 5 && calls[0].BeginEntry? && calls[|calls| - 1] == EndEntry
      && forall i | 0 < i < |calls| - 1 :: !IsBoundary(calls[i])
  {
    var calls := EntryCalls(settings, entry, indentLevel, colorEnabled);
    var body := EntryBody(settings, entry, EntryColor(entry.logLevel, colorEnabled));
    BodyHasNoBoundary(settings, entry, EntryColor(entry.logLevel, colorEnabled));
    assert forall i | 0 < i < |calls| - 1 :: calls[i] == body[i - 1];
  }

  /** How many calls precede the level label: the opening and the enabled date and time. */
  function Preamble(settings: EntrySettings): nat
  {
    1 + (if settings.includeDate then 1 else 0) + (if settings.includeTimestamp then 1 else 0)
  }

  /** The body's layout: the stamps, then the fields in order, then the exception. */
  lemma BodyLayout(settings: EntrySettings, entry: LoggerEntry, color: ColorCategory)
    ensures var body := EntryBody(settings, entry, color);
      var k := Preamble(settings) - 1;
      var e := if settings.includeEventId then 1 else 0;
      && |body| == k + 3 + e + (if entry.exceptionText.Thrown? then 1 else 0)
      && (settings.includeDate ==> body[0] == Date(entry.timestampUtc, DebugColor))
      && (settings.includeTimestamp ==> body[k - 1] == Timestamp(entry.timestampUtc, Detail))
      && body[k] == Field(LogLevelToLabel(entry.logLevel), color, LevelWidth)
      && body[k + 1] == AbbreviatedTypeName(entry.categoryName, DebugColor, CategoryWidth)
      && (settings.includeEventId ==> body[k + 2] == Field(entry.eventIdText, color, EventIdWidth))
      && body[k + 2 + e] == Field(Trim(entry.message), color, 0)
      && (entry.exceptionText.Thrown? ==> body[k + 3 + e] == Lines(entry.exceptionText.text, ExceptionColor(color), 1))
  {
    var stamps := Stamps(settings, entry);
    var fields := Fields(settings, entry, color);
    var body := EntryBody(settings, entry, color);
    assert |stamps| == Preamble(settings) - 1;
    assert forall j | 0 <= j < |fields| :: body[|stamps| + j] == fields[j];
    assert forall j | 0 <= j < |stamps| :: body[j] == stamps[j];
  }

  /**
   * The field order: date and time when enabled, the label (7 wide), the
   * category (36 wide), the event id (6 wide) when enabled, the trimmed
   * message, and the exception's lines when there is one.
   */
  lemma FieldOrder(settings: EntrySettings, entry: LoggerEntry, indentLevel: int, colorEnabled: bool)
    ensures var calls := EntryCalls(settings, entry, indentLevel, colorEnabled);
      var color := EntryColor(entry.logLevel, colorEnabled);
      var k := Preamble(settings);
      var e := if settings.includeEventId then 1 else 0;
      && |calls| == k + 4 + e + (if entry.exceptionText.Thrown? then 1 else 0)
      && (settings.includeDate ==> calls[1] == Date(entry.timestampUtc, DebugColor))
      && (settings.includeTimestamp ==> calls[k - 1] == Timestamp(entry.timestampUtc, Detail))
      && calls[k] == Field(LogLevelToLabel(entry.logLevel), color, LevelWidth)
      && calls[k + 1] == AbbreviatedTypeName(entry.categoryName, DebugColor, CategoryWidth)
      && (settings.includeEventId ==> calls[k + 2] == Field(entry.eventIdText, color, EventIdWidth))
      && calls[k + 2 + e] == Field(Trim(entry.message), color, 0)
      && (entry.exceptionText.Thrown? ==> calls[k + 3 + e] == Lines(entry.exceptionText.text, ExceptionColor(color), 1))
  {
    var calls := EntryCalls(settings, entry, indentLevel, colorEnabled);
    var color := EntryColor(entry.logLevel, colorEnabled);
    var body := EntryBody(settings, entry, color);
    var begin := BeginEntry(EntryIndentLevel(indentLevel, settings.relativeIndentLevel, settings.maxIndentLevel));
    assert calls == [begin] + body + [EndEntry];
    BodyLayout(settings, entry, color);
    assert forall j | 0 <= j < |body| :: calls[1 + j] == body[j];
  }

  /** Every field of an entry is written in the entry's colour. */
  lemma FieldsInColor(settings: EntrySettings, entry: LoggerEntry, color: ColorCategory)
    ensures forall c | c in Fields(settings, entry, color) :: c.Field? ==> c.color == color
  {
    var fields := Fields(settings, entry, color);
    assert forall k | 0 <= k < |fields| :: fields[k].Field? ==> fields[k].color == color;
  }

  /** The date and the time are neither fields nor lines. */
  lemma StampsUncoloured(settings: EntrySettings, entry: LoggerEntry)
    ensures forall c | c in Stamps(settings, entry) :: !c.Field? && !c.Lines?
  {
  }

  /** Without colour on the sink, every field the entry writes is uncoloured and the exception is `Detail`. */
  lemma ColorOff(settings: EntrySettings, entry: LoggerEntry, indentLevel: int)
    ensures forall call | call in EntryCalls(settings, entry, indentLevel, false) ::
      (call.Field? ==> call.color == None) && (call.Lines? ==> call.color == Detail)
  {
    var stamps, fields, lines := Stamps(settings, entry), Fields(settings, entry, None), ExceptionLines(entry, None);
    assert forall c | c in fields :: c.Field? ==> c.color == None by {
      FieldsInColor(settings, entry, None);
    }
    assert forall c | c in stamps :: !c.Field? && !c.Lines? by {
      StampsUncoloured(settings, entry);
    }
    assert forall c | c in lines :: c.Lines? ==> c.color == Detail;
    assert EntryColor(entry.logLevel, false) == None;
    var calls := EntryCalls(settings, entry, indentLevel, false);
    var begin := BeginEntry(EntryIndentLevel(indentLevel, settings.relativeIndentLevel, settings.maxIndentLevel));
    assert calls == [begin] + (stamps + fields + lines) + [EndEntry];
  }

  /** The exception is written in `Debug` exactly for a Trace entry on a sink with colour. */
  lemma ExceptionColorIsDebugOnlyForTrace(level: LogLevel, colorEnabled: bool)
    ensures ExceptionColor(EntryColor(level, colorEnabled)) == DebugColor <==> colorEnabled && level == Trace
    ensures ExceptionColor(EntryColor(level, colorEnabled)) != DebugColor
            ==> ExceptionColor(EntryColor(level, colorEnabled)) == Detail
  {
  }

  /** Trimming leaves a run of `s` that neither starts nor ends with white space. */
  lemma TrimKeepsRun(s: string)
    ensures var t := Trim(s);
      var k := |s| - |TrimStart(s)|;
      && (t != [] ==> !IsWhiteSpace(t[0]) && !IsWhiteSpace(t[|t| - 1]))
      && k + |t| <= |s| && s[k..k + |t|] == t
  {
    var u := TrimStart(s);
    var t := TrimEnd(u);
    var k := |s| - |u|;
    assert u == s[k..] by {
      TrimStartShape(s);
    }
    assert t == u[..|t|] by {
      TrimEndShape(u);
    }
    assert s[k..][..|t|] == s[k..k + |t|];
  }

  /** What trimming removes, before and after that run, is white space only. */
  lemma TrimDropsOnlyWhiteSpace(s: string)
    ensures var t := Trim(s);
      var k := |s| - |TrimStart(s)|;
      && (forall i | 0 <= i < k :: IsWhiteSpace(s[i]))
      && (forall i | k + |t| <= i < |s| :: IsWhiteSpace(s[i]))
  {
    var u := TrimStart(s);
    var t := TrimEnd(u);
    var k := |s| - |u|;
    TrimStartShape(s);
    TrimEndShape(u);
    forall i | k + |t| <= i < |s|
      ensures IsWhiteSpace(s[i])
    {
      assert s[i] == u[i - k];
    }
  }

  /** A string that neither starts nor ends with white space is its own trim; so trimming twice is trimming once. */
  lemma TrimIdempotent(s: string)
    ensures (s == [] || (!IsWhiteSpace(s[0]) && !IsWhiteSpace(s[|s| - 1]))) ==> Trim(s) == s
    ensures Trim(Trim(s)) == Trim(s)
  {
    var t := Trim(s);
    TrimKeepsRun(s);
    TrimEndShape(TrimStart(s));
    assert TrimStart(t) == t;
    if s == [] || (!IsWhiteSpace(s[0]) && !IsWhiteSpace(s[|s| - 1])) {
      assert TrimStart(s) == s;
      assert TrimEnd(s) == s;
    }
  }
}

/**
 * The sink calls of the entry formatter and the formatter itself, as the
 * source writes them: a sequence of calls guarded by the settings fields.
 */
module EntryFormatting {
  import opened EntryFormat

  /** The part of the sink the entry formatter uses: its indent, whether it does colour, and the calls it receives. */
  class EntryWriter {
    const IsColorEnabled: bool
    var IndentLevel: int
    var calls: seq<EntryCall>

    constructor (colorEnabled: bool, indentLevel: int)
      ensures IsColorEnabled == colorEnabled && IndentLevel == indentLevel && calls == []
    {
      IsColorEnabled := colorEnabled;
      IndentLevel := indentLevel;
      calls := [];
    }

    /** Records `call`; every sink call of the entry formatter is one of these. */
    method Write(call: EntryCall)
      modifies this
      ensures calls == old(calls) + [call] && IndentLevel == old(IndentLevel)
    {
      calls := calls + [call];
    }
  }

  /** Writing an entry's calls one after the other appends the whole entry. */
  lemma EntryAppended(before: seq<EntryCall>, begin: EntryCall, stamps: seq<EntryCall>, fields: seq<EntryCall>, lines: seq<EntryCall>)
    ensures before + [begin] + stamps + fields + lines + [EndEntry]
         == before + ([begin] + (stamps + fields + lines) + [EndEntry])
  {
  }

  class DefaultLoggerEntryFormatter {
    var IncludeDate: bool
    var IncludeTimestamp: bool
    var RelativeIndentLevel: int
    var MaxIndentLevel: int
    var IncludeEventId: bool

    /** The defaults: indent at most 4, time but no date and no event id. */
    constructor ()
      ensures MaxIndentLevel == DefaultMaxIndentLevel && IncludeTimestamp
      ensures !IncludeDate && !IncludeEventId && RelativeIndentLevel == 0
    {
      MaxIndentLevel := DefaultMaxIndentLevel;
      IncludeTimestamp := true;
      IncludeDate := false;
      IncludeEventId := false;
      RelativeIndentLevel := 0;
    }

    function Settings(): EntrySettings
      reads this
    {
      EntrySettings(IncludeDate, IncludeTimestamp, RelativeIndentLevel, MaxIndentLevel, IncludeEventId)
    }

    /** `Format`: the calls of `EntryCalls`, made one by one; the sink's indent is left alone. */
    method Format(entry: LoggerEntry, w: EntryWriter)
      modifies w
      ensures w.calls == old(w.calls) + EntryCalls(Settings(), entry, old(w.IndentLevel), w.IsColorEnabled)
      ensures w.IndentLevel == old(w.IndentLevel)
    {
      var color := None;
      if w.IsColorEnabled {
        color := LogLevelToColorCategory(entry.logLevel);
      }
      var entryIndentLevel := AddInt32(w.IndentLevel, RelativeIndentLevel);
      entryIndentLevel := if entryIndentLevel <= MaxIndentLevel then entryIndentLevel else MaxIndentLevel;
      w.Write(BeginEntry(entryIndentLevel));
      WriteStamps(entry, w);
      WriteFields(entry, color, w);
      WriteException(entry, color, w);
      assert color == EntryColor(entry.logLevel, w.IsColorEnabled);
      assert entryIndentLevel == EntryIndentLevel(old(w.IndentLevel), RelativeIndentLevel, MaxIndentLevel);
      w.Write(EndEntry);
      EntryAppended(old(w.calls), BeginEntry(entryIndentLevel), Stamps(Settings(), entry),
                    Fields(Settings(), entry, color), ExceptionLines(entry, color));
    }

    /** The date and the time of day, each when configured. */
    method WriteStamps(entry: LoggerEntry, w: EntryWriter)
      modifies w
      ensures w.calls == old(w.calls) + Stamps(Settings(), entry)
      ensures w.IndentLevel == old(w.IndentLevel)
    {
      if IncludeDate {
        w.Write(Date(entry.timestampUtc, DebugColor));
      }
      if IncludeTimestamp {
        w.Write(Timestamp(entry.timestampUtc, Detail));
      }
    }

    /** The level label, the category, the event id when configured and the trimmed message. */
    method WriteFields(entry: LoggerEntry, color: ColorCategory, w: EntryWriter)
      modifies w
      ensures w.calls == old(w.calls) + Fields(Settings(), entry, color)
      ensures w.IndentLevel == old(w.IndentLevel)
    {
      w.Write(Field(LogLevelToLabel(entry.logLevel), color, LevelWidth));
      w.Write(AbbreviatedTypeName(entry.categoryName, DebugColor, CategoryWidth));
      if IncludeEventId {
        w.Write(Field(entry.eventIdText, color, EventIdWidth));
      }
      var message := entry.message;
      w.Write(Field(Trim(message), color, 0));
    }

    /** The exception, one level further in, when there is one. */
    method WriteException(entry: LoggerEntry, color: ColorCategory, w: EntryWriter)
      modifies w
      ensures w.calls == old(w.calls) + ExceptionLines(entry, color)
      ensures w.IndentLevel == old(w.IndentLevel)
    {
      match entry.exceptionText {
        case NoException =>
        case Thrown(text) =>
          var detailColor := if color == DebugColor then DebugColor else Detail;
          w.Write(Lines(text, detailColor, 1));
      }
    }
  }
}
