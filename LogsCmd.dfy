/** bot/tacocat/cogs/developer/logs_cmd.py: the backend of /logs. It
    picks a log file, optionally keeps only the lines whose level tag
    satisfies a constraint, and answers with the text in a code fence,
    with "Nothing to send!", or with the whole file as an upload. */
module LogsCmd {
  import opened Wrappers
  import opened Exceptions
  import opened Text
  import Utils
  import opened Discord

  // ---------------------------------------------------------------- choices

  /** The `Logs` enum (values from `enum.auto()`). */
  const PROJECT: int := 1
  const DISCORD: int := 2

  const PROJECT_NAME: string := "tacocat"

  const LOG_CHOICES: seq<Choice<int>> := [Choice(PROJECT_NAME, PROJECT), Choice("discord.py", DISCORD)]

  /** The `Constraints` enum. */
  const ALL: int := 1
  const AT_LEAST: int := 2
  const AT_MOST: int := 3
  const ABOVE: int := 4
  const BELOW: int := 5
  const EXACTLY: int := 6

  const FILTER_CHOICES: seq<Choice<int>> := [
    Choice("At least", AT_LEAST), Choice("At most", AT_MOST), Choice("Above", ABOVE),
    Choice("Below", BELOW), Choice("Exactly", EXACTLY)]

  /** The `LogLevels` enum; its members in declaration order are `LEVELS`. */
  datatype LogLevel = DEBUG | INFO | WARNING | ERROR | CRITICAL | ALERT

  /** The custom level between ERROR and CRITICAL. */
  const LOG_ALERT_LEVEL: int := 45

  const LEVELS: seq<LogLevel> := [DEBUG, INFO, WARNING, ERROR, CRITICAL, ALERT]

  function LevelValue(l: LogLevel): int {
    match l
    case DEBUG => 10
    case INFO => 20
    case WARNING => 30
    case ERROR => 40
    case CRITICAL => 50
    case ALERT => LOG_ALERT_LEVEL
  }

  /** The member's name, which is also the level name in a log line. */
  function LevelName(l: LogLevel): string {
    match l
    case DEBUG => "DEBUG"
    case INFO => "INFO"
    case WARNING => "WARNING"
    case ERROR => "ERROR"
    case CRITICAL => "CRITICAL"
    case ALERT => "ALERT"
  }

  const LEVEL_CHOICES: seq<Choice<int>> := [
    Choice("DEBUG", 10), Choice("INFO", 20), Choice("WARNING", 30),
    Choice("ERROR", 40), Choice("CRITICAL", 50), Choice("ALERT", LOG_ALERT_LEVEL)]

  /** Every level is listed once, and each choice of the level parameter
      is that level's name and value. */
  lemma LevelTables()
    ensures forall l: LogLevel :: l in LEVELS
    ensures |LEVEL_CHOICES| == |LEVELS|
    ensures forall i :: 0 <= i < |LEVELS| ==>
      LEVEL_CHOICES[i] == Choice(LevelName(LEVELS[i]), LevelValue(LEVELS[i]))
    ensures forall l, m: LogLevel :: LevelName(l) == LevelName(m) ==> l == m
    ensures forall l, m: LogLevel :: LevelValue(l) == LevelValue(m) ==> l == m
  {
    forall l: LogLevel ensures l in LEVELS {
      match l
      case DEBUG => assert LEVELS[0] == l;
      case INFO => assert LEVELS[1] == l;
      case WARNING => assert LEVELS[2] == l;
      case ERROR => assert LEVELS[3] == l;
      case CRITICAL => assert LEVELS[4] == l;
      case ALERT => assert LEVELS[5] == l;
    }
  }
  /** Both log choices name a log file, and the filter choices offer each
      comparison (every `Constraints` member but ALL) exactly once. */
  lemma ChoiceTables(root: string)
    ensures forall c :: c in LOG_CHOICES ==> LogPath(root, c.value).Ok?
    ensures forall c :: c in FILTER_CHOICES ==> AT_LEAST <= c.value <= EXACTLY
    ensures |FILTER_CHOICES| == EXACTLY - AT_LEAST + 1
    ensures forall i, j :: 0 <= i < j < |FILTER_CHOICES| ==> FILTER_CHOICES[i].value != FILTER_CHOICES[j].value
  {
  }


  // ---------------------------------------------------------------- the regex

  /** The comparison behind each level constraint (`int.__ge__` and so on). */
  predicate Holds(constraint: int, value: int, level: int)
    requires AT_LEAST <= constraint <= EXACTLY
  {
    if constraint == AT_LEAST then value >= level
    else if constraint == AT_MOST then value <= level
    else if constraint == ABOVE then value > level
    else if constraint == BELOW then value < level
    else value == level
  }

  /** The names of the levels, in declaration order, whose value
      satisfies the constraint; SelectNamesSpec states which they are. */
  function SelectNames(levels: seq<LogLevel>, constraint: int, level: int): (r: seq<string>)
    requires AT_LEAST <= constraint <= EXACTLY
    ensures |r| <= |levels|
    decreases |levels|
  {
    if |levels| == 0 then []
    else
      var rest := SelectNames(levels[1..], constraint, level);
      if Holds(constraint, LevelValue(levels[0]), level) then [LevelName(levels[0])] + rest else rest
  }

  /** A level's name is selected exactly when its value satisfies the
      constraint, and nothing else is selected. */
  lemma {:induction false} SelectNamesSpec(levels: seq<LogLevel>, constraint: int, level: int)
    requires AT_LEAST <= constraint <= EXACTLY
    ensures forall l :: LevelName(l) in SelectNames(levels, constraint, level) <==>
      l in levels && Holds(constraint, LevelValue(l), level)
    ensures forall n :: n in SelectNames(levels, constraint, level) ==>
      exists l :: l in levels && n == LevelName(l)
    decreases |levels|
  {
    LevelTables();
    if |levels| > 0 {
      SelectNamesSpec(levels[1..], constraint, level);
      assert levels == [levels[0]] + levels[1..];
    }
  }

  /** EXACTLY selects the levels that AT_LEAST and AT_MOST both select,
      and the strict constraints select fewer than the loose ones. */
  lemma ConstraintRelations(l: LogLevel, level: int)
    ensures LevelName(l) in SelectNames(LEVELS, EXACTLY, level) <==>
      LevelName(l) in SelectNames(LEVELS, AT_LEAST, level) && LevelName(l) in SelectNames(LEVELS, AT_MOST, level)
    ensures LevelName(l) in SelectNames(LEVELS, ABOVE, level) ==> LevelName(l) in SelectNames(LEVELS, AT_LEAST, level)
    ensures LevelName(l) in SelectNames(LEVELS, BELOW, level) ==> LevelName(l) in SelectNames(LEVELS, AT_MOST, level)
    ensures LevelName(l) in SelectNames(LEVELS, AT_LEAST, level) <==> LevelName(l) !in SelectNames(LEVELS, BELOW, level)
  {
    LevelTables();
    ConstraintRelationsOn(LEVELS, l, level);
  }

  /** The relations of `ConstraintRelations`, for a level that is listed. */
  lemma ConstraintRelationsOn(levels: seq<LogLevel>, l: LogLevel, level: int)
    requires l in levels
    ensures LevelName(l) in SelectNames(levels, EXACTLY, level) <==>
      LevelName(l) in SelectNames(levels, AT_LEAST, level) && LevelName(l) in SelectNames(levels, AT_MOST, level)
    ensures LevelName(l) in SelectNames(levels, ABOVE, level) ==> LevelName(l) in SelectNames(levels, AT_LEAST, level)
    ensures LevelName(l) in SelectNames(levels, BELOW, level) ==> LevelName(l) in SelectNames(levels, AT_MOST, level)
    ensures LevelName(l) in SelectNames(levels, AT_LEAST, level) <==> LevelName(l) !in SelectNames(levels, BELOW, level)
  {
    SelectNamesSpec(levels, EXACTLY, level);
    SelectNamesSpec(levels, AT_LEAST, level);
    SelectNamesSpec(levels, AT_MOST, level);
    SelectNamesSpec(levels, ABOVE, level);
    SelectNamesSpec(levels, BELOW, level);
  }

  /** Filtering exactly at a level's own value keeps that one name. */
  lemma ExactlySelectsOne(l: LogLevel)
    ensures SelectNames(LEVELS, EXACTLY, LevelValue(l)) == [LevelName(l)]
  {
  }

  /** "At least ERROR" lists the names in declaration order, so ALERT (45)
      comes after CRITICAL (50). */
  lemma AtLeastError()
    ensures SelectNames(LEVELS, AT_LEAST, LevelValue(ERROR)) == ["ERROR", "CRITICAL", "ALERT"]
    ensures PatternSource(CompileRegex(AT_LEAST, LevelValue(ERROR)).value)
      == "^.*\\[(?:" + "ERROR" + "|" + "CRITICAL" + "|" + "ALERT" + ") *\\].*$"
  {
    var names := SelectNames(LEVELS, AT_LEAST, LevelValue(ERROR));
    assert names == ["ERROR", "CRITICAL", "ALERT"];
    JoinThree(names, "|");
  }

  /** Three names joined by a separator. */
  lemma JoinThree(names: seq<string>, sep: string)
    requires |names| == 3
    ensures Join(names, sep) == names[0] + sep + names[1] + sep + names[2]
  {
    var tail := names[1..];
    assert tail[1..] == [names[2]];
    assert Join(tail, sep) == names[1] + sep + names[2];
    assert Join(names, sep) == names[0] + sep + (names[1] + sep + names[2]);
  }

  /** The compiled pattern: `.*`, or the anchored pattern that looks for
      a bracketed level tag among the selected names. */
  datatype Pattern = AnyLine | LevelLines(names: seq<string>)

  /** The source text of the pattern. */
  function PatternSource(p: Pattern): string {
    match p
    case AnyLine => ".*"
    case LevelLines(names) => "^.*\\[(?:" + Join(names, "|") + ") *\\].*$"
  }

  /** `_compile_regex`. */
  function CompileRegex(constraint: int, level: int): (r: Result<Pattern, Error>)
    ensures r.Err? <==> !(ALL <= constraint <= EXACTLY)
    ensures r.Err? ==> r.error == InvariantError
    ensures r == Ok(AnyLine) <==> constraint == ALL
    ensures AT_LEAST <= constraint <= EXACTLY ==> r == Ok(LevelLines(SelectNames(LEVELS, constraint, level)))
    ensures r.Ok? && r.value.LevelLines? ==>
      forall l :: LevelName(l) in r.value.names <==> Holds(constraint, LevelValue(l), level)
  {
    if constraint == ALL then Ok(AnyLine)
    else if AT_LEAST <= constraint <= EXACTLY then
      SelectNamesSpec(LEVELS, constraint, level);
      LevelTables();
      Ok(LevelLines(SelectNames(LEVELS, constraint, level)))
    else Err(InvariantError)
  }

  /** The alternatives of `(?:N1|…|Nk)`: joining no names leaves the empty
      group `(?:)`, whose one alternative is the empty string. */
  function Alternatives(names: seq<string>): seq<string> {
    if |names| == 0 then [""] else names
  }

  /** The text at `j` is some spaces and then `]`. */
  predicate SpacesThenClose(line: string, j: nat) {
    exists k :: j <= k < |line| && line[k] == ']' && forall m :: j <= m < k ==> line[m] == ' '
  }

  /** `\[NAME *\]` matches at position `i`. */
  predicate TagAt(line: string, i: nat, name: string) {
    i + 1 + |name| <= |line| && line[i] == '[' && line[i + 1..i + 1 + |name|] == name
    && SpacesThenClose(line, i + 1 + |name|)
  }

  /** A line (no '\n' in it, so `.` covers all of it) that the anchored
      pattern matches in full. */
  predicate LineMatches(line: string, alts: seq<string>) {
    exists i: nat, a :: i < |line| && a in alts && TagAt(line, i, a)
  }

  function KeepMatching(lines: seq<string>, alts: seq<string>): (r: seq<string>)
    ensures |r| <= |lines|
    decreases |lines|
  {
    if |lines| == 0 then []
    else if LineMatches(lines[0], alts) then [lines[0]] + KeepMatching(lines[1..], alts)
    else KeepMatching(lines[1..], alts)
  }

  /** The kept lines are exactly the matching ones; KeepMatchingAppend
      adds that they keep their order and their number of occurrences. */
  lemma {:induction false} KeepMatchingSpec(lines: seq<string>, alts: seq<string>)
    ensures forall x :: x in KeepMatching(lines, alts) <==> x in lines && LineMatches(x, alts)
    decreases |lines|
  {
    if |lines| > 0 {
      KeepMatchingSpec(lines[1..], alts);
      assert lines == [lines[0]] + lines[1..];
    }
  }

  /** Filtering works line by line: the lines of `a + b` that are kept
      are those kept from `a`, then those kept from `b`. */
  lemma {:induction false} KeepMatchingAppend(a: seq<string>, b: seq<string>, alts: seq<string>)
    ensures KeepMatching(a + b, alts) == KeepMatching(a, alts) + KeepMatching(b, alts)
    decreases |a|
  {
    if |a| == 0 {
      assert a + b == b;
    } else {
      var ab := a + b;
      assert ab[0] == a[0];
      assert ab[1..] == a[1..] + b;
      KeepMatchingAppend(a[1..], b, alts);
      if LineMatches(a[0], alts) {
        assert KeepMatching(ab, alts) == [a[0]] + KeepMatching(ab[1..], alts);
        assert KeepMatching(a, alts) == [a[0]] + KeepMatching(a[1..], alts);
      } else {
        assert KeepMatching(ab, alts) == KeepMatching(ab[1..], alts);
        assert KeepMatching(a, alts) == KeepMatching(a[1..], alts);
      }
    }
  }

  /** A single line is kept exactly when it matches. */
  lemma KeepMatchingOne(x: string, alts: seq<string>)
    ensures KeepMatching([x], alts) == if LineMatches(x, alts) then [x] else []
  {
    assert [x][1..] == [];
  }

  /** Keeping lines adds no line break to them. */
  lemma {:induction false} KeptLackChar(lines: seq<string>, alts: seq<string>, c: char)
    requires forall k :: 0 <= k < |lines| ==> NoChar(lines[k], c)
    ensures forall k :: 0 <= k < |KeepMatching(lines, alts)| ==> NoChar(KeepMatching(lines, alts)[k], c)
    decreases |lines|
  {
    if |lines| > 0 {
      KeptLackChar(lines[1..], alts, c);
    }
  }

  /** When every line matches, all of them are kept. */
  lemma {:induction false} KeepAll(lines: seq<string>, alts: seq<string>)
    requires forall k :: 0 <= k < |lines| ==> LineMatches(lines[k], alts)
    ensures KeepMatching(lines, alts) == lines
    decreases |lines|
  {
    if |lines| > 0 {
      KeepAll(lines[1..], alts);
      assert lines == [lines[0]] + lines[1..];
    }
  }

  /** With no alternative, no line matches. */
  lemma {:induction false} KeepNone(lines: seq<string>)
    ensures KeepMatching(lines, []) == []
    decreases |lines|
  {
    if |lines| > 0 {
      KeepNone(lines[1..]);
    }
  }

  /** Keeping twice keeps the same lines. */
  lemma {:induction false} KeepTwice(lines: seq<string>, alts: seq<string>)
    ensures KeepMatching(KeepMatching(lines, alts), alts) == KeepMatching(lines, alts)
    decreases |lines|
  {
    if |lines| > 0 {
      KeepTwice(lines[1..], alts);
    }
  }

  /** `findall` of `.*` under MULTILINE: every non-empty line is followed
      by the empty match at its end; an empty line gives one empty match. */
  function FindallAny(lines: seq<string>): (r: seq<string>)
    ensures |r| >= |lines|
    decreases |lines|
  {
    if |lines| == 0 then []
    else (if |lines[0]| > 0 then [lines[0], ""] else [""]) + FindallAny(lines[1..])
  }

  /** `pattern.findall(content)`: the level pattern matches whole lines,
      so what it finds are the matching lines of the content. */
  function Findall(p: Pattern, content: string): seq<string> {
    match p
    case AnyLine => FindallAny(Split(content, '\n'))
    case LevelLines(names) => KeepMatching(Split(content, '\n'), Alternatives(names))
  }

  /** `"\n".join(pattern.findall(content))`, the filtered content. */
  function FilterContent(p: Pattern, content: string): string {
    Join(Findall(p, content), "\n")
  }

  // ---------------------------------------------------------------- empty selections

  /** The "Below DEBUG" and "Above CRITICAL" choices select no level. */
  lemma NoLevelSelected()
    ensures SelectNames(LEVELS, BELOW, LevelValue(DEBUG)) == []
    ensures SelectNames(LEVELS, ABOVE, LevelValue(CRITICAL)) == []
  {
  }

  /** As written, an empty selection compiles to `(?:)`, so a message
      line holding an empty list `[]` is kept although it has no level. */
  lemma EmptySelectionKeepsBrackets(line: string)
    requires line == "queue: []"
    ensures CompileRegex(BELOW, LevelValue(DEBUG)) == Ok(LevelLines([]))
    ensures FilterContent(LevelLines([]), line) == line
  {
    NoLevelSelected();
    BracketLineMatches(line);
    SplitNoSeparator(line, '\n');
    assert KeepMatching([line], [""]) == [line];
  }

  lemma BracketLineMatches(line: string)
    requires line == "queue: []"
    ensures LineMatches(line, [""])
  {
    assert line[7] == '[' && line[8] == ']';
    assert SpacesThenClose(line, 8);
    assert TagAt(line, 7, "");
  }

  /** The evidently intended filter: only the selected names are tags, so
      an empty selection keeps nothing. */
  function IntendedFindall(p: Pattern, content: string): seq<string> {
    match p
    case AnyLine => FindallAny(Split(content, '\n'))
    case LevelLines(names) => KeepMatching(Split(content, '\n'), names)
  }

  function IntendedFilterContent(p: Pattern, content: string): string {
    Join(IntendedFindall(p, content), "\n")
  }

  /** Every line the intended level filter keeps carries the tag of a
      selected level, one whose value satisfies the constraint; with no
      such level, nothing is kept. (Stated for any list of levels, the
      declared `LEVELS` among them.) */
  lemma IntendedFilterSound(levels: seq<LogLevel>, constraint: int, level: int, content: string)
    requires AT_LEAST <= constraint <= EXACTLY
    ensures var p := LevelLines(SelectNames(levels, constraint, level));
      forall x :: x in IntendedFindall(p, content) ==>
        exists l: LogLevel, i: nat :: l in levels && i < |x| && Holds(constraint, LevelValue(l), level) && TagAt(x, i, LevelName(l))
    ensures SelectNames(levels, constraint, level) == [] ==>
      IntendedFilterContent(LevelLines(SelectNames(levels, constraint, level)), content) == ""
  {
    var names := SelectNames(levels, constraint, level);
    var kept := KeepMatching(Split(content, '\n'), names);
    KeepMatchingSpec(Split(content, '\n'), names);
    forall x | x in kept
      ensures exists l: LogLevel, i: nat :: l in levels && i < |x| && Holds(constraint, LevelValue(l), level) && TagAt(x, i, LevelName(l))
    {
      TaggedBySelected(x, levels, constraint, level);
    }
    if names == [] {
      KeepNone(Split(content, '\n'));
    }
  }

  lemma TaggedBySelected(x: string, levels: seq<LogLevel>, constraint: int, level: int)
    requires AT_LEAST <= constraint <= EXACTLY
    requires LineMatches(x, SelectNames(levels, constraint, level))
    ensures exists l: LogLevel, i: nat :: l in levels && i < |x| && Holds(constraint, LevelValue(l), level) && TagAt(x, i, LevelName(l))
  {
    var names := SelectNames(levels, constraint, level);
    SelectNamesSpec(levels, constraint, level);
    var i: nat, a :| i < |x| && a in names && TagAt(x, i, a);
    var l :| l in levels && a == LevelName(l);
    assert Holds(constraint, LevelValue(l), level);
  }

  /** Whenever some level is selected, the intended filter and the one
      as written agree. */
  lemma IntendedAgreesWhenSelected(p: Pattern, content: string)
    requires p.LevelLines? ==> |p.names| > 0
    ensures IntendedFilterContent(p, content) == FilterContent(p, content)
  {
  }

  /** A level filter keeps precisely the lines of the content that the
      pattern matches. */
  lemma LevelFilterLines(names: seq<string>, content: string)
    ensures forall x :: x in Split(IntendedFilterContent(LevelLines(names), content), '\n') <==>
      (x in Split(content, '\n') && LineMatches(x, names))
      || (x == "" && KeepMatching(Split(content, '\n'), names) == [])
  {
    var kept := KeepMatching(Split(content, '\n'), names);
    KeepMatchingSpec(Split(content, '\n'), names);
    SplitPiecesLackSeparator(content, '\n');
    if |kept| == 0 {
      assert IntendedFilterContent(LevelLines(names), content) == "";
    } else {
      SplitPiecesLackSeparator(content, '\n');
      KeptLackChar(Split(content, '\n'), names, '\n');
      SplitJoin(kept, '\n');
    }
  }

  /** A log whose every line carries a selected tag passes unchanged. */
  lemma LevelFilterKeepsTaggedLog(names: seq<string>, content: string)
    requires forall k :: 0 <= k < |Split(content, '\n')| ==> LineMatches(Split(content, '\n')[k], names)
    ensures IntendedFilterContent(LevelLines(names), content) == content
  {
    KeepAll(Split(content, '\n'), names);
    JoinSplit(content, '\n');
  }

  /** Filtering filtered content changes nothing. */
  lemma LevelFilterIdempotent(names: seq<string>, content: string)
    ensures IntendedFilterContent(LevelLines(names), IntendedFilterContent(LevelLines(names), content))
      == IntendedFilterContent(LevelLines(names), content)
  {
    var lines := Split(content, '\n');
    var kept := KeepMatching(lines, names);
    if |kept| == 0 {
      var once := IntendedFilterContent(LevelLines(names), content);
      assert once == "";
      assert Split(once, '\n') == [""];
      assert !LineMatches("", names);
      assert KeepMatching([""], names) == [];
    } else {
      SplitPiecesLackSeparator(content, '\n');
      KeptLackChar(Split(content, '\n'), names, '\n');
      SplitJoin(kept, '\n');
      KeepTwice(lines, names);
    }
  }

  /** The unfiltered pattern is not the identity: each non-empty line
      gains an empty match, so a one-line log comes back with a newline. */
  lemma AnyLineAddsNewline(line: string)
    requires |line| > 0 && NoChar(line, '\n')
    ensures IntendedFilterContent(AnyLine, line) == line + "\n"
  {
    SplitNoSeparator(line, '\n');
    assert FindallAny([line]) == [line, ""];
    assert Join([line, ""], "\n") == line + "\n" + Join([""], "\n");
  }

  // ---------------------------------------------------------------- sending

  /** The log files: `<root>/logs/bot.log` and `<root>/logs/discord.log`
      under the program's root directory. */
  function ProgramLogPath(root: string): string {
    root + "/logs/bot.log"
  }

  function DiscordLogPath(root: string): string {
    root + "/logs/discord.log"
  }

  /** `_get_log_path`. */
  function LogPath(root: string, logChoice: int): (r: Result<string, Error>)
    ensures r.Err? <==> logChoice !in {PROJECT, DISCORD}
    ensures r.Err? ==> r.error == InvariantError
    ensures r.Ok? ==> Basename(r.value) == if logChoice == PROJECT then "bot.log" else "discord.log"
  {
    if logChoice == PROJECT then
      BasenameOfJoin(root + "/logs", "bot.log");
      assert root + "/logs" + "/" + "bot.log" == ProgramLogPath(root);
      Ok(ProgramLogPath(root))
    else if logChoice == DISCORD then
      BasenameOfJoin(root + "/logs", "discord.log");
      assert root + "/logs" + "/" + "discord.log" == DiscordLogPath(root);
      Ok(DiscordLogPath(root))
    else Err(InvariantError)
  }

  /** An interaction response: the log file uploaded under a file name, or
      a text message; either may be ephemeral. */
  datatype LogResponse = Upload(path: string, filename: string, ephemeral: bool) | Message(text: string, ephemeral: bool)

  const NOTHING_TO_SEND: string := "Nothing to send!"

  /** The three ways `send_log_content` answers, given the content. */
  function ChooseResponse(path: string, content: string, ephemeral: bool): (r: LogResponse)
    ensures r.ephemeral == ephemeral
    ensures r.Upload? <==> |content| + 10 > Utils.MESSAGE_LENGTH_LIMIT
    ensures r.Upload? ==> r.path == path && r.filename == Basename(path)
    ensures r.Message? ==> |r.text| <= Utils.MESSAGE_LENGTH_LIMIT
    ensures r.Message? ==> (r.text == NOTHING_TO_SEND <==> |content| == 0 || IsSpace(content))
    ensures r.Message? && r.text != NOTHING_TO_SEND ==> r.text == "```" + content + "```"
  {
    if |content| + 10 > Utils.MESSAGE_LENGTH_LIMIT then Upload(path, Basename(path), ephemeral)
    else if |content| == 0 || IsSpace(content) then Message(NOTHING_TO_SEND, ephemeral)
    else
      assert ("```" + content + "```")[0] != NOTHING_TO_SEND[0];
      Message("```" + content + "```", ephemeral)
  }

  /** `send_log_content`, with `read` giving the text of a file. The
      filter is the intended one, which differs from the code as written
      only when no level is selected. */
  function SendLogContent(root: string, read: string -> string, logChoice: int,
                          constraint: Option<int>, level: Option<int>, ephemeral: bool)
    : (r: Result<LogResponse, Error>)
    ensures r.Err? <==>
      logChoice !in {PROJECT, DISCORD}
      || (constraint.Some? && (level.None? || !(ALL <= constraint.value <= EXACTLY)))
    ensures r.Err? ==> r.error == InvariantError
    ensures r.Ok? ==> r.value.ephemeral == ephemeral
    ensures r.Ok? && r.value.Upload? ==> r.value.path == LogPath(root, logChoice).value
    ensures r.Ok? && constraint.None? ==>
      var path := LogPath(root, logChoice).value;
      r.value == ChooseResponse(path, read(path), ephemeral)
    ensures r.Ok? && constraint.Some? ==>
      var path := LogPath(root, logChoice).value;
      r.value == ChooseResponse(path, IntendedFilterContent(CompileRegex(constraint.value, level.value).value, read(path)), ephemeral)
  {
    var path :- LogPath(root, logChoice);
    var content := read(path);
    if constraint.None? then Ok(ChooseResponse(path, content, ephemeral))
    else if level.None? then Err(InvariantError)
    else
      var pattern :- CompileRegex(constraint.value, level.value);
      Ok(ChooseResponse(path, IntendedFilterContent(pattern, content), ephemeral))
  }

  /** An over-long answer uploads the whole file, even when it was the
      filtered text that was too long. */
  lemma UploadIsWholeFile(root: string, read: string -> string, logChoice: int,
                          constraint: Option<int>, level: Option<int>, ephemeral: bool)
    requires SendLogContent(root, read, logChoice, constraint, level, ephemeral).Ok?
    requires SendLogContent(root, read, logChoice, constraint, level, ephemeral).value.Upload?
    ensures var u := SendLogContent(root, read, logChoice, constraint, level, ephemeral).value;
      u.path in {ProgramLogPath(root), DiscordLogPath(root)} && u.filename in {"bot.log", "discord.log"}
  {
  }
}
