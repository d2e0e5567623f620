/** Rocket's console logger: the three-valued logging level, its parsing and
    display, the severity filter, and the rendering of one record. */
module Logger {
  import opened LogCrate
  import opened Paint
  import Decimal

  datatype Result<T> = Ok(value: T) | Err(error: string)

  /** The user-facing logging level. */
  datatype LoggingLevel =
    | Critical  // only errors and warnings
    | Normal    // everything except debug and trace information
    | Debug     // everything

  /* ---------------------------------------------------------------------- */
  /* Level policy                                                           */
  /* ---------------------------------------------------------------------- */

  /** The most verbose severity a level lets through. */
  function MaxLogLevel(level: LoggingLevel): (ceiling: LogLevel)
    ensures AtMost(Warn, ceiling)
    ensures AtMost(Info, ceiling) <==> level != Critical
    ensures AtMost(LogLevel.Debug, ceiling) <==> level == LoggingLevel.Debug
    ensures AtMost(Trace, ceiling) <==> level == LoggingLevel.Debug
  {
    match level
    case Critical => Warn
    case Normal => Info
    case Debug => Trace
  }

  /** A more verbose level never lowers the ceiling. */
  lemma CeilingMonotone()
    ensures AtMost(MaxLogLevel(Critical), MaxLogLevel(Normal))
    ensures AtMost(MaxLogLevel(Normal), MaxLogLevel(LoggingLevel.Debug))
    ensures MaxLogLevel(Critical) != MaxLogLevel(Normal)
    ensures MaxLogLevel(Normal) != MaxLogLevel(LoggingLevel.Debug)
  {
  }

  const ParseError := "a log level (debug, normal, critical)"

  /** Parses a level from its configuration token (case-sensitive). */
  function FromStr(s: string): (r: Result<LoggingLevel>)
    ensures r == Ok(Critical) <==> s == "critical"
    ensures r == Ok(Normal) <==> s == "normal"
    ensures r == Ok(LoggingLevel.Debug) <==> s == "debug"
    ensures r.Err? ==> r.error == ParseError
  {
    if s == "critical" then Ok(Critical)
    else if s == "normal" then Ok(Normal)
    else if s == "debug" then Ok(LoggingLevel.Debug)
    else Err(ParseError)
  }

  /** The token a level displays as; it is the token that parses back to it. */
  function Display(level: LoggingLevel): (s: string)
    ensures FromStr(s) == Ok(level)
    ensures s == "critical" || s == "normal" || s == "debug"
  {
    match level
    case Critical => "critical"
    case Normal => "normal"
    case Debug => "debug"
  }

  /** Every accepted token is displayed back unchanged. */
  lemma ParseDisplayRoundTrip(s: string)
    ensures FromStr(s).Ok? ==> Display(FromStr(s).value) == s
  {
  }

  lemma DisplayInjective(a: LoggingLevel, b: LoggingLevel)
    ensures Display(a) == Display(b) ==> a == b
  {
  }

  /** Whether a record of the given severity passes the level's filter. */
  function Enabled(level: LoggingLevel, severity: LogLevel): (b: bool)
    ensures b <==> severity == Error || severity == Warn
                   || (severity == Info && level != Critical)
                   || level == LoggingLevel.Debug
  {
    AtMost(severity, MaxLogLevel(level))
  }

  /** Whatever a level lets through, a more verbose level lets through too. */
  lemma EnabledMonotone(severity: LogLevel)
    ensures Enabled(Critical, severity) ==> Enabled(Normal, severity)
    ensures Enabled(Normal, severity) ==> Enabled(LoggingLevel.Debug, severity)
  {
  }

  /* ---------------------------------------------------------------------- */
  /* Records as the logging macros build them                               */
  /* ---------------------------------------------------------------------- */

  /** Target marking a record to be printed indented under the previous one. */
  const IndentTarget := "_"

  /** Target marking a startup announcement, emitted at Error. */
  const LaunchTarget := "launch"

  /** A record from one of the indenting macros (`error_!`, `warn_!`, ...). */
  function IndentedRecord(severity: LogLevel, loc: Location, message: string): Record {
    Record(severity, IndentTarget, loc, message)
  }

  /** A record from `launch_info!`. */
  function LaunchRecord(loc: Location, message: string): Record {
    Record(Error, LaunchTarget, loc, message)
  }

  /* ---------------------------------------------------------------------- */
  /* Rendering                                                              */
  /* ---------------------------------------------------------------------- */

  /** The severity a record is rendered with: launch records look like Info. */
  function EffectiveLevel(rec: Record): (severity: LogLevel)
    ensures rec.target == LaunchTarget ==> severity == Info
    ensures severity != rec.level ==> rec.target == LaunchTarget && severity == Info
  {
    if rec.target == LaunchTarget then Info else rec.level
  }

  /** Modules whose chatter is hidden unless the level is Debug: those whose
      path begins with the `hyper::` or the `rustls::` crate prefix. */
  predicate Noisy(modulePath: string)
    ensures Noisy(modulePath) <==>
      (|modulePath| >= 7 && modulePath[..7] == "hyper::")
      || (|modulePath| >= 8 && modulePath[..8] == "rustls::")
  {
    "hyper::" <= modulePath || "rustls::" <= modulePath
  }

  /** Whether the noise filter hides a record: never at Debug, and below
      Debug exactly for records from noisy modules. */
  predicate Suppressed(level: LoggingLevel, rec: Record)
    ensures level == LoggingLevel.Debug ==> !Suppressed(level, rec)
    ensures level != LoggingLevel.Debug ==> (Suppressed(level, rec) <==> Noisy(rec.location.modulePath))
  {
    level != LoggingLevel.Debug && Noisy(rec.location.modulePath)
  }

  predicate Indents(level: LoggingLevel, rec: Record) {
    rec.target == IndentTarget && level != Critical
  }

  /** What the indentation marker prints. */
  function IndentSegments(): seq<Segment> {
    [Plain("    "), Styled(White, "=>"), Plain(" ")]
  }

  /** The body printed for a record rendered at `severity`, with its styling. */
  function StyledBody(severity: LogLevel, rec: Record): (body: seq<Segment>)
    ensures |body| >= 2 && body[|body| - 1] == Plain("\n")
    ensures body[|body| - 2].text == rec.message
    ensures body[|body| - 2].color == Unstyled <==> severity == LogLevel.Debug
  {
    match severity
    case Info => [Styled(Blue, rec.message), Plain("\n")]
    case Trace => [Styled(Purple, rec.message), Plain("\n")]
    case Error => [StyledBold(Red, "Error:"), Plain(" "), Styled(Red, rec.message), Plain("\n")]
    case Warn => [StyledBold(Yellow, "Warning:"), Plain(" "), Styled(Yellow, rec.message), Plain("\n")]
    case Debug =>
      [Plain("\n"), StyledBold(Blue, "-->"), Plain(" ")]
      + [Styled(Blue, rec.location.file), Plain(":"),
         Styled(Blue, Decimal.NatToString(rec.location.line)), Plain("\n")]
      + [Plain(rec.message), Plain("\n")]
  }

  /** Everything the logger prints for one record, in order: nothing when
      the record is filtered out or comes from a noisy module, otherwise the
      optional indentation marker followed by the body. */
  function LogStyled(level: LoggingLevel, rec: Record): (out: seq<Segment>)
    ensures !Enabled(level, rec.level) ==> out == []
  {
    if !Enabled(level, rec.level) then []
    else
      var severity := EffectiveLevel(rec);
      if Suppressed(level, rec) then []
      else (if Indents(level, rec) then IndentSegments() else []) + StyledBody(severity, rec)
  }

  /** What the logger writes to standard output with styling disabled. */
  function Log(level: LoggingLevel, rec: Record): (out: string)
    ensures out == "" <==> !Enabled(level, rec.level) || Suppressed(level, rec)
  {
    var segs := LogStyled(level, rec);
    assert segs != [] ==> segs[|segs| - 1].text == "\n";
    Strip(segs)
  }

  /* ---------------------------------------------------------------------- */
  /* The plain-text form, stated independently of the styling              */
  /* ---------------------------------------------------------------------- */

  const IndentText := "    => "

  /** The documented plain layout of each severity's body. */
  function PlainBody(severity: LogLevel, rec: Record): (body: string)
    ensures |body| > 0 && body[|body| - 1] == '\n'
  {
    match severity
    case Error => "Error: " + rec.message + "\n"
    case Warn => "Warning: " + rec.message + "\n"
    case Info => rec.message + "\n"
    case Trace => rec.message + "\n"
    case Debug =>
      "\n--> " + rec.location.file + ":" + Decimal.NatToString(rec.location.line) + "\n"
      + rec.message + "\n"
  }

  lemma IndentSegmentsText()
    ensures Strip(IndentSegments()) == IndentText
  {
    var s := IndentSegments();
    assert s[..2][..1] == [s[0]];
    StripSingle(s[0]);
    assert s[..2] == s[..2][..1] + [s[1]];
  }

  /** With styling disabled every body prints exactly its plain layout. */
  lemma {:induction false} StyledBodyText(severity: LogLevel, rec: Record)
    ensures Strip(StyledBody(severity, rec)) == PlainBody(severity, rec)
  {
    match severity
    case Info => LineText(Styled(Blue, rec.message));
    case Trace => LineText(Styled(Purple, rec.message));
    case Error =>
      LabelledText(Red, "Error:", rec.message);
      assert "Error:" + " " == "Error: ";
    case Warn =>
      LabelledText(Yellow, "Warning:", rec.message);
      assert "Warning:" + " " == "Warning: ";
    case Debug => DebugText(rec);
  }

  /** One segment followed by a newline. */
  lemma LineText(seg: Segment)
    ensures Strip([seg, Plain("\n")]) == seg.text + "\n"
  {
    StripSingle(Plain("\n"));
    StripCons(seg, [Plain("\n")]);
    assert [seg, Plain("\n")] == [seg] + [Plain("\n")];
  }

  /** The two-line Debug form. */
  lemma DebugText(rec: Record)
    ensures Strip(StyledBody(LogLevel.Debug, rec)) == PlainBody(LogLevel.Debug, rec)
  {
    var file, message := rec.location.file, rec.message;
    var line := Decimal.NatToString(rec.location.line);
    var arrow := [Plain("\n"), StyledBold(Blue, "-->"), Plain(" ")];
    var place := [Styled(Blue, file), Plain(":"), Styled(Blue, line), Plain("\n")];
    var text := [Plain(message), Plain("\n")];
    assert StyledBody(LogLevel.Debug, rec) == arrow + place + text;
    PlaceText(file, line);
    LineText(Plain(message));
    DebugLines(arrow, place, text, file + ":" + line + "\n", message + "\n");
    assert "\n--> " + (file + ":" + line + "\n") + (message + "\n")
        == "\n--> " + file + ":" + line + "\n" + message + "\n";
  }

  lemma DebugLines(arrow: seq<Segment>, place: seq<Segment>, text: seq<Segment>,
                   placeText: string, messageLine: string)
    requires arrow == [Plain("\n"), StyledBold(Blue, "-->"), Plain(" ")]
    requires Strip(place) == placeText && Strip(text) == messageLine
    ensures Strip(arrow + place + text) == "\n--> " + placeText + messageLine
  {
    ArrowText();
    StripAppend(arrow, place);
    StripAppend(arrow + place, text);
  }

  lemma ArrowText()
    ensures Strip([Plain("\n"), StyledBold(Blue, "-->"), Plain(" ")]) == "\n--> "
  {
    var a2 := [Plain(" ")];
    var a1 := [StyledBold(Blue, "-->")] + a2;
    var a0 := [Plain("\n")] + a1;
    StripSingle(Plain(" "));
    StripCons(StyledBold(Blue, "-->"), a2);
    StripCons(Plain("\n"), a1);
    assert a0 == [Plain("\n"), StyledBold(Blue, "-->"), Plain(" ")];
    assert "\n" + ("-->" + " ") == "\n--> ";
  }

  lemma PlaceText(file: string, line: string)
    ensures Strip([Styled(Blue, file), Plain(":"), Styled(Blue, line), Plain("\n")])
            == file + ":" + line + "\n"
  {
    var p2 := [Styled(Blue, line), Plain("\n")];
    var p1 := [Plain(":")] + p2;
    var p0 := [Styled(Blue, file)] + p1;
    LineText(Styled(Blue, line));
    StripCons(Plain(":"), p2);
    StripCons(Styled(Blue, file), p1);
    assert p0 == [Styled(Blue, file), Plain(":"), Styled(Blue, line), Plain("\n")];
  }

  /** A bold label, a space and the message in the label's colour. */
  lemma LabelledText(color: Color, tag: string, msg: string)
    ensures Strip([StyledBold(color, tag), Plain(" "), Styled(color, msg), Plain("\n")])
            == tag + " " + msg + "\n"
  {
    var s3 := [Plain("\n")];
    var s2 := [Styled(color, msg)] + s3;
    var s1 := [Plain(" ")] + s2;
    var s0 := [StyledBold(color, tag)] + s1;
    StripSingle(Plain("\n"));
    StripCons(Styled(color, msg), s3);
    assert Strip(s2) == msg + "\n";
    StripCons(Plain(" "), s2);
    assert Strip(s1) == " " + (msg + "\n");
    StripCons(StyledBold(color, tag), s1);
    assert Strip(s0) == tag + (" " + (msg + "\n"));
    assert s0 == [StyledBold(color, tag), Plain(" "), Styled(color, msg), Plain("\n")];
  }

  /** The logger's output with styling disabled, in plain-text terms. */
  lemma {:induction false} LogPlainText(level: LoggingLevel, rec: Record)
    ensures Log(level, rec) ==
      if !Enabled(level, rec.level) || Suppressed(level, rec) then ""
      else (if Indents(level, rec) then IndentText else "") + PlainBody(EffectiveLevel(rec), rec)
  {
    if Enabled(level, rec.level) && !Suppressed(level, rec) {
      var prefix := if Indents(level, rec) then IndentSegments() else [];
      StripAppend(prefix, StyledBody(EffectiveLevel(rec), rec));
      StyledBodyText(EffectiveLevel(rec), rec);
      if Indents(level, rec) { IndentSegmentsText(); }
    }
  }

  /* ---------------------------------------------------------------------- */
  /* Properties of the rendering                                            */
  /* ---------------------------------------------------------------------- */

  /** Nothing is printed exactly when the record is filtered out by its own
      severity (before any launch remap) or comes from a noisy module below
      Debug; whatever is printed is newline-terminated. */
  lemma LogEmptyIff(level: LoggingLevel, rec: Record)
    ensures Log(level, rec) == "" <==> !Enabled(level, rec.level) || Suppressed(level, rec)
    ensures Log(level, rec) != "" ==> Log(level, rec)[|Log(level, rec)| - 1] == '\n'
  {
    LogPlainText(level, rec);
  }

  /** At level Debug every record is printed, noisy modules included. */
  lemma DebugPrintsEverything(rec: Record)
    ensures Log(LoggingLevel.Debug, rec) != ""
    ensures Log(LoggingLevel.Debug, rec) ==
      (if rec.target == IndentTarget then IndentText else "") + PlainBody(EffectiveLevel(rec), rec)
  {
    LogPlainText(LoggingLevel.Debug, rec);
  }

  /** A record from a noisy module prints nothing below Debug, whatever its
      severity. */
  lemma NoisyModuleSilent(level: LoggingLevel, rec: Record)
    requires level != LoggingLevel.Debug
    requires Noisy(rec.location.modulePath)
    ensures Log(level, rec) == ""
  {
    LogPlainText(level, rec);
  }

  /** A launch announcement passes the filter at every level (it is emitted
      at Error) and prints as a bare Info line: no "Error:" label and no
      indentation. */
  lemma LaunchPrintsAsInfo(level: LoggingLevel, loc: Location, message: string)
    ensures Enabled(level, LaunchRecord(loc, message).level)
    ensures Log(level, LaunchRecord(loc, message)) ==
      if level != LoggingLevel.Debug && Noisy(loc.modulePath) then "" else message + "\n"
  {
    LogPlainText(level, LaunchRecord(loc, message));
  }

  /** The filter looks at a record's own severity, before the launch remap: a
      launch-target Debug or Trace record prints nothing at Normal, although
      Normal lets Info, the severity it would be rendered with, through. */
  lemma LaunchFilteredBySeverity(rec: Record)
    requires rec.target == LaunchTarget
    requires rec.level == LogLevel.Debug || rec.level == Trace
    ensures Enabled(Normal, EffectiveLevel(rec))
    ensures Log(Normal, rec) == ""
  {
  }

  /** A printed record from the indentation target, below Critical, starts
      with the indentation marker, whatever its message. */
  lemma IndentedOutputHasMarker(level: LoggingLevel, rec: Record)
    requires Enabled(level, rec.level) && !Suppressed(level, rec)
    requires rec.target == IndentTarget && level != Critical
    ensures IndentText <= Log(level, rec)
  {
    LogPlainText(level, rec);
  }

  /** What the indenting macros print: the marker below Critical, then the
      body for the record's own severity. */
  lemma IndentedRecordText(level: LoggingLevel, severity: LogLevel, loc: Location, message: string)
    ensures Log(level, IndentedRecord(severity, loc, message)) ==
      if !Enabled(level, severity) || Suppressed(level, IndentedRecord(severity, loc, message)) then ""
      else (if level != Critical then IndentText else "")
           + PlainBody(severity, IndentedRecord(severity, loc, message))
  {
    LogPlainText(level, IndentedRecord(severity, loc, message));
  }

  /** A continuation warning at Critical prints the bare warning line. */
  lemma ContinuationWarningAtCritical(loc: Location, message: string)
    requires !Noisy(loc.modulePath)
    ensures Log(Critical, IndentedRecord(Warn, loc, message)) == "Warning: " + message + "\n"
  {
    var rec := IndentedRecord(Warn, loc, message);
    assert Enabled(Critical, Warn) && !Suppressed(Critical, rec);
    IndentedRecordText(Critical, Warn, loc, message);
    assert "" + PlainBody(Warn, rec) == PlainBody(Warn, rec);
  }

  /** At Normal the same warning is printed under the marker. */
  lemma ContinuationWarningAtNormal(loc: Location, message: string)
    requires !Noisy(loc.modulePath)
    ensures Log(Normal, IndentedRecord(Warn, loc, message)) == IndentText + "Warning: " + message + "\n"
  {
    var rec := IndentedRecord(Warn, loc, message);
    assert Enabled(Normal, Warn) && !Suppressed(Normal, rec);
    IndentedRecordText(Normal, Warn, loc, message);
    assert IndentText + PlainBody(Warn, rec) == IndentText + "Warning: " + message + "\n";
  }

  /** A printed record starts with the indentation marker exactly when its
      target is the indentation target and the level is not Critical
      (provided the message does not itself start with the marker's text). */
  lemma {:induction false} IndentPrefixIff(level: LoggingLevel, rec: Record)
    requires Enabled(level, rec.level) && !Suppressed(level, rec)
    requires !(IndentText <= rec.message)
    ensures IndentText <= Log(level, rec) <==> rec.target == IndentTarget && level != Critical
  {
    LogPlainText(level, rec);
    if !Indents(level, rec) {
      BodyHasNoMarker(EffectiveLevel(rec), rec);
    }
  }

  /** No body starts with the marker unless its message does. */
  lemma BodyHasNoMarker(severity: LogLevel, rec: Record)
    requires !(IndentText <= rec.message)
    ensures !(IndentText <= PlainBody(severity, rec))
  {
    var body := PlainBody(severity, rec);
    assert IndentText[0] == ' ';
    match severity
    case Info => MessageLineNotIndented(rec.message);
    case Trace => MessageLineNotIndented(rec.message);
    case Error => assert body[0] == 'E';
    case Warn => assert body[0] == 'W';
    case Debug => assert body[0] == '\n';
  }

  /** A message line starts with the marker only if the message does. */
  lemma MessageLineNotIndented(message: string)
    requires !(IndentText <= message)
    ensures !(IndentText <= message + "\n")
  {
    var line := message + "\n";
    if |message| >= |IndentText| {
      assert message[..|IndentText|] == line[..|IndentText|];
    } else {
      assert line[|message|] == '\n';
      assert IndentText[|message|] != '\n';
    }
  }
}
