/** bot/utils.py: the message length limit, `detail_call`,
    `render_timestamp`, the permission predicates and `has_humans`. */
module Utils {
  import opened Wrappers
  import opened Text
  import opened Discord

  /** Discord's default message length limit, in characters. */
  const MESSAGE_LENGTH_LIMIT: nat := 2000

  // ---------------------------------------------------------------- detail_call

  /** The parent of a command: a group with a `qualified_name`, or an
      object without one (the `AttributeError` branch). */
  datatype Parent = Group(qualifiedName: string) | NamelessParent

  datatype Command = Command(name: string, parent: Option<Parent>)

  /** What `detail_call` reads from a context: `str(ctx.author)`,
      `str(ctx.channel)`, `str(ctx.guild)` (none in a DM), the command,
      the cog's qualified name and whether an interaction is attached. */
  datatype CallInfo = CallInfo(
    author: string,
    channel: string,
    guild: Option<string>,
    command: Option<Command>,
    cog: Option<string>,
    interaction: bool)

  function GuildPart(guild: Option<string>): string {
    match guild
    case None => "<DM>"
    case Some(g) => "\"" + g + "\""
  }

  function ContextPart(c: CallInfo): string {
    c.author + " @ #" + c.channel + " @ " + GuildPart(c.guild)
  }

  /** The command's full name: parent group words joined by ':', then
      the cog name and "::" in front when there is a cog. */
  function CommandName(c: CallInfo): string {
    var name :=
      match c.command
      case None => "<Unknown>"
      case Some(Command(n, None)) => n
      case Some(Command(n, Some(Group(q)))) => Join(Words(q), ":") + ":" + n
      case Some(Command(n, Some(NamelessParent))) => "<Unknown>:" + n;
    match c.cog
    case None => name
    case Some(cog) => cog + "::" + name
  }

  function MethodName(interaction: bool): string {
    if interaction then "slash" else "prefix"
  }

  /** `detail_call(ctx)`. */
  function DetailCall(c: CallInfo): (r: string)
    ensures StartsWith(r, c.author + " @ #" + c.channel + " @ ")
  {
    var tail := " called " + CommandName(c) + " (" + MethodName(c.interaction) + ").";
    PrefixOfAppend(c.author + " @ #" + c.channel + " @ ", GuildPart(c.guild), tail);
    ContextPart(c) + tail
  }

  /** `a` begins `a + b + rest`. */
  lemma PrefixOfAppend(a: string, b: string, rest: string)
    ensures StartsWith(a + b + rest, a)
  {
    assert (a + b + rest)[..|a|] == a;
  }

  predicate EndsWith(s: string, suffix: string) {
    |suffix| <= |s| && s[|s| - |suffix|..] == suffix
  }

  lemma SuffixCharAt(s: string, suffix: string, k: nat)
    requires EndsWith(s, suffix) && k < |suffix|
    ensures s[|s| - |suffix| + k] == suffix[k]
  {
    assert s[|s| - |suffix|..][k] == s[|s| - |suffix| + k];
  }

  /** The tail of the detail string tells how the command was invoked,
      in both directions. */
  lemma DetailCallMethod(c: CallInfo)
    ensures EndsWith(DetailCall(c), " (slash).") <==> c.interaction
    ensures EndsWith(DetailCall(c), " (prefix).") <==> !c.interaction
  {
    var r := DetailCall(c);
    var head := ContextPart(c);
    if c.interaction {
      assert r == head + (" called " + CommandName(c) + " (slash).");
      assert r[|r| - 9..] == " (slash).";
      if EndsWith(r, " (prefix).") {
        SuffixCharAt(r, " (prefix).", 2);
        assert false;
      }
    } else {
      assert r == head + (" called " + CommandName(c) + " (prefix).");
      assert r[|r| - 10..] == " (prefix).";
      if EndsWith(r, " (slash).") {
        SuffixCharAt(r, " (slash).", 2);
        assert false;
      }
    }
  }

  /** The example in the docstring of `detail_call`: /logs bot in the
      Developer cog, invoked as a slash command. */
  lemma DetailCallExample(c: CallInfo)
    requires c == CallInfo("vinlin#5616", "bot-spam", Some("Taco Notes"),
                           Some(Command("bot", Some(Group("logs")))), Some("Developer"), true)
    ensures DetailCall(c) == "vinlin#5616 @ #bot-spam @ \"Taco Notes\" called Developer::logs:bot (slash)."
  {
    ExampleCommandName(c);
    ExampleContext(c);
    var context, name := "vinlin#5616 @ #bot-spam @ \"Taco Notes\"", "Developer::logs:bot";
    SlashCall(c, context, name);
    ExampleText(context, name);
  }

  lemma ExampleText(context: string, name: string)
    requires context == "vinlin#5616 @ #bot-spam @ \"Taco Notes\"" && name == "Developer::logs:bot"
    ensures context + " called " + name + " (slash)."
      == "vinlin#5616 @ #bot-spam @ \"Taco Notes\" called Developer::logs:bot (slash)."
  {
  }

  lemma ExampleCommandName(c: CallInfo)
    requires c.command == Some(Command("bot", Some(Group("logs")))) && c.cog == Some("Developer")
    ensures CommandName(c) == "Developer::logs:bot"
  {
    WordsOfWord("logs");
    assert Join(["logs"], ":") == "logs";
  }

  lemma ExampleContext(c: CallInfo)
    requires c.author == "vinlin#5616" && c.channel == "bot-spam" && c.guild == Some("Taco Notes")
    ensures ContextPart(c) == "vinlin#5616 @ #bot-spam @ \"Taco Notes\""
  {
  }

  lemma SlashCall(c: CallInfo, context: string, name: string)
    requires c.interaction && ContextPart(c) == context && CommandName(c) == name
    ensures DetailCall(c) == context + " called " + name + " (slash)."
  {
  }

  /** A string without whitespace is a single word. */
  lemma WordsOfWord(w: string)
    requires |w| > 0 && forall i :: 0 <= i < |w| ==> !IsSpaceChar(w[i])
    ensures Words(w) == [w]
  {
    LeadingWordOfWord(w, "");
    assert w + "" == w;
    assert w[|w|..] == "";
  }

  /** A word as `split()` produces it: non-empty, without whitespace. */
  predicate IsWord(w: string) {
    |w| > 0 && forall i :: 0 <= i < |w| ==> !IsSpaceChar(w[i])
  }

  /** Splitting a space-joined list of words gives the words back. */
  lemma {:induction false} WordsOfJoin(ws: seq<string>)
    requires forall k :: 0 <= k < |ws| ==> IsWord(ws[k])
    ensures Words(Join(ws, " ")) == ws
    decreases |ws|
  {
    if |ws| == 0 {
    } else if |ws| == 1 {
      WordsOfWord(ws[0]);
    } else {
      var rest := Join(ws[1..], " ");
      var s := Join(ws, " ");
      assert s == ws[0] + (" " + rest);
      LeadingWordOfWord(ws[0], " " + rest);
      assert s[0] == ws[0][0];
      assert s[|ws[0]|..] == " " + rest;
      assert (" " + rest)[1..] == rest;
      WordsOfJoin(ws[1..]);
      assert Words(" " + rest) == Words(rest);
      assert Words(s) == [ws[0]] + Words(s[|ws[0]|..]);
      assert ws == [ws[0]] + ws[1..];
    }
  }

  /** A parent group's qualified name, whatever its number of words,
      becomes its words joined by ':' before the command's name, with
      "cog::" in front when there is a cog. */
  lemma GroupWordsJoined(c: CallInfo, ws: seq<string>, n: string)
    requires c.command == Some(Command(n, Some(Group(Join(ws, " ")))))
    requires forall k :: 0 <= k < |ws| ==> IsWord(ws[k])
    ensures c.cog.None? ==> CommandName(c) == Join(ws, ":") + ":" + n
    ensures c.cog.Some? ==> CommandName(c) == c.cog.value + "::" + Join(ws, ":") + ":" + n
  {
    var q := Join(ws, " ");
    GroupName(c, q, n);
    WordsOfJoin(ws);
  }

  lemma GroupName(c: CallInfo, q: string, n: string)
    requires c.command == Some(Command(n, Some(Group(q))))
    ensures c.cog.None? ==> CommandName(c) == Join(Words(q), ":") + ":" + n
    ensures c.cog.Some? ==> CommandName(c) == c.cog.value + "::" + Join(Words(q), ":") + ":" + n
  {
  }

  /** The name part without a group: "<Unknown>" with no command, the
      command's own name with no parent, "<Unknown>:name" when the
      parent has no qualified name, and "cog::" in front of each when
      there is a cog. */
  lemma CommandNameParts(c: CallInfo)
    ensures c.cog.Some? ==> StartsWith(CommandName(c), c.cog.value + "::")
    ensures c.cog.None? && c.command.None? ==> CommandName(c) == "<Unknown>"
    ensures c.cog.Some? && c.command.None? ==> CommandName(c) == c.cog.value + "::<Unknown>"
    ensures c.command.Some? ==> EndsWith(CommandName(c), c.command.value.name)
    ensures c.cog.None? && c.command.Some? && c.command.value.parent.None? ==>
      CommandName(c) == c.command.value.name
    ensures c.command.Some? && c.command.value.parent == Some(NamelessParent) ==>
      EndsWith(CommandName(c), "<Unknown>:" + c.command.value.name)
  {
    var r := CommandName(c);
    if c.cog.Some? {
      var k := c.cog.value;
      assert r[..|k + "::"|] == k + "::";
    }
    if c.command.Some? {
      var n := c.command.value.name;
      assert r[|r| - |n|..] == n;
      if c.command.value.parent == Some(NamelessParent) {
        assert r[|r| - |"<Unknown>:" + n|..] == "<Unknown>:" + n;
      }
    }
  }

  /** The whole detail string: "{context} called {name} ({method}).",
      where the context ends in "<DM>" for a call without a guild and in
      the quoted guild name otherwise. */
  lemma DetailCallShape(c: CallInfo)
    ensures c.guild.None? ==>
      DetailCall(c) == c.author + " @ #" + c.channel + " @ " + "<DM>"
        + " called " + CommandName(c) + " (" + MethodName(c.interaction) + ")."
    ensures c.guild.Some? ==>
      DetailCall(c) == c.author + " @ #" + c.channel + " @ " + "\"" + c.guild.value + "\""
        + " called " + CommandName(c) + " (" + MethodName(c.interaction) + ")."
  {
    var n, m := CommandName(c), MethodName(c.interaction);
    assert DetailCall(c) == ContextPart(c) + (" called " + n + " (" + m + ").");
    if c.guild.None? {
      SpliceTail(c.author + " @ #" + c.channel + " @ " + "<DM>", n, m);
    } else {
      SpliceTail(c.author + " @ #" + c.channel + " @ " + "\"" + c.guild.value + "\"", n, m);
    }
  }

  lemma SpliceTail(context: string, n: string, m: string)
    ensures context + (" called " + n + " (" + m + ").") == context + " called " + n + " (" + m + ")."
  {
  }

  lemma {:induction false} LeadingWordOfWord(w: string, rest: string)
    requires forall i :: 0 <= i < |w| ==> !IsSpaceChar(w[i])
    requires |rest| == 0 || IsSpaceChar(rest[0])
    ensures LeadingWord(w + rest) == w
    decreases |w|
  {
    if |w| > 0 {
      assert (w + rest)[1..] == w[1..] + rest;
      LeadingWordOfWord(w[1..], rest);
      assert w == [w[0]] + w[1..];
    } else {
      assert w + rest == rest;
    }
  }

  // ---------------------------------------------------------------- timestamps

  datatype TimestampFormat =
    DEFAULT | SHORT_TIME | LONG_TIME | SHORT_DATE | LONG_DATE | SHORT_DATETIME | LONG_DATETIME | RELATIVE

  /** The format codes of `TimestampFormat`; DEFAULT has none. */
  function FormatCode(f: TimestampFormat): Option<char> {
    match f
    case DEFAULT => None
    case SHORT_TIME => Some('t')
    case LONG_TIME => Some('T')
    case SHORT_DATE => Some('d')
    case LONG_DATE => Some('D')
    case SHORT_DATETIME => Some('f')
    case LONG_DATETIME => Some('F')
    case RELATIVE => Some('R')
  }

  function FormatOfCode(c: char): Option<TimestampFormat> {
    if c == 't' then Some(SHORT_TIME)
    else if c == 'T' then Some(LONG_TIME)
    else if c == 'd' then Some(SHORT_DATE)
    else if c == 'D' then Some(LONG_DATE)
    else if c == 'f' then Some(SHORT_DATETIME)
    else if c == 'F' then Some(LONG_DATETIME)
    else if c == 'R' then Some(RELATIVE)
    else None
  }

  /** `render_timestamp`, given the already rounded Unix time. */
  function RenderTimestamp(timestamp: int, format: TimestampFormat): (r: string)
    ensures StartsWith(r, "<t:") && r[|r| - 1] == '>'
  {
    var suffix := match FormatCode(format) case None => "" case Some(c) => ":" + [c];
    "<t:" + IntToString(timestamp) + suffix + ">"
  }

  /** Reads a rendered timestamp back: "<t:N>" or "<t:N:c>". */
  function ParseTimestamp(s: string): Option<(int, TimestampFormat)> {
    if |s| < 5 || !StartsWith(s, "<t:") || s[|s| - 1] != '>' then None
    else
      var body := s[3..|s| - 1];
      if |body| >= 3 && body[|body| - 2] == ':' then
        match (ParseInt(body[..|body| - 2]), FormatOfCode(body[|body| - 1]))
        case (Some(n), Some(f)) => Some((n, f))
        case _ => None
      else
        match ParseInt(body)
        case Some(n) => Some((n, DEFAULT))
        case None => None
  }

  /** Rendering loses nothing: the time and the format can be read back. */
  lemma ParseRenderTimestamp(timestamp: int, format: TimestampFormat)
    ensures ParseTimestamp(RenderTimestamp(timestamp, format)) == Some((timestamp, format))
  {
    var n := IntToString(timestamp);
    ParseIntToString(timestamp);
    match FormatCode(format)
    case None =>
      assert RenderTimestamp(timestamp, format) == "<t:" + n + ">";
      ParseBare(n, timestamp);
    case Some(c) =>
      assert FormatOfCode(c) == Some(format);
      assert RenderTimestamp(timestamp, format) == "<t:" + n + ":" + [c] + ">";
      ParseCoded(n, timestamp, c, format);
  }

  lemma ParseBare(n: string, i: int)
    requires |n| >= 1 && NoChar(n, ':') && ParseInt(n) == Some(i)
    ensures ParseTimestamp("<t:" + n + ">") == Some((i, DEFAULT))
  {
    var s := "<t:" + n + ">";
    assert s[..3] == "<t:" && s[|s| - 1] == '>';
    assert s[3..|s| - 1] == n;
  }

  lemma ParseCoded(n: string, i: int, c: char, f: TimestampFormat)
    requires |n| >= 1 && ParseInt(n) == Some(i) && FormatOfCode(c) == Some(f)
    ensures ParseTimestamp("<t:" + n + ":" + [c] + ">") == Some((i, f))
  {
    var s := "<t:" + n + ":" + [c] + ">";
    assert s[..3] == "<t:" && s[|s| - 1] == '>';
    var body := s[3..|s| - 1];
    assert body == n + ":" + [c];
    assert body[..|body| - 2] == n;
  }

  // ---------------------------------------------------------------- permissions

  /** The check of `is_dev`. */
  predicate IsDev(userId: int, developerId: int) {
    userId == developerId
  }

  /** The check of `is_superuser`. */
  predicate IsSuperuser(userId: int, developerId: int, superuserIds: set<int>) {
    userId == developerId || userId in superuserIds
  }

  /** The developer passes the superuser check whatever the superuser set. */
  lemma DevIsSuperuser(userId: int, developerId: int, superuserIds: set<int>)
    ensures IsDev(userId, developerId) ==> IsSuperuser(userId, developerId, superuserIds)
    ensures IsSuperuser(userId, developerId, superuserIds) && userId !in superuserIds ==> IsDev(userId, developerId)
  {
  }

  // ---------------------------------------------------------------- has_humans

  /** `has_humans`: `any(not member.bot for member in channel.members)`,
      scanning the members in order. */
  function HasHumans(members: seq<Member>): bool
    decreases |members|
  {
    |members| > 0 && (!members[0].bot || HasHumans(members[1..]))
  }

  /** The scan answers exactly whether some member is not a bot; an empty
      channel has no humans. */
  lemma {:induction false} HasHumansIff(members: seq<Member>)
    ensures HasHumans(members) <==> exists i :: 0 <= i < |members| && !members[i].bot
    ensures |members| == 0 ==> !HasHumans(members)
    decreases |members|
  {
    if |members| > 0 {
      HasHumansIff(members[1..]);
      if !HasHumans(members) {
        forall i | 0 <= i < |members| ensures members[i].bot {
          if i > 0 { assert members[i] == members[1..][i - 1]; }
        }
      } else if members[0].bot {
        var j :| 0 <= j < |members[1..]| && !members[1..][j].bot;
        assert members[j + 1] == members[1..][j];
      }
    }
  }
}
