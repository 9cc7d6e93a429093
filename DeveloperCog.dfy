/** bot/commands/developer/cog.py: the /logs command of the Developer
    cog. It is open to superusers only, fills in the optional filter
    arguments, and hands the request to the logs backend. */
module DeveloperCog {
  import opened Wrappers
  import opened Exceptions
  import opened Discord
  import Utils
  import opened LogsCmd

  const UNAUTHORIZED: string := "Only select superusers can view the program logs."

  /** The defaults `view_logs` evaluates: without a level nothing is
      filtered (a filter alone is dropped); a level without a filter means
      that level exactly. */
  function Defaults(filter: Option<Choice<int>>, level: Option<Choice<int>>): (r: (Option<int>, Option<int>))
    ensures r.0.None? <==> level.None?
    ensures r.1.None? <==> level.None?
    ensures level.Some? ==> r.1 == Some(level.value.value)
    ensures level.Some? && filter.None? ==> r.0 == Some(EXACTLY)
    ensures level.Some? && filter.Some? ==> r.0 == Some(filter.value.value)
  {
    if level.None? then (None, None)
    else if filter.None? then (Some(EXACTLY), Some(level.value.value))
    else (Some(filter.value.value), Some(level.value.value))
  }

  /** The body of `view_logs`; the message is ephemeral unless `show` is set. */
  function ViewLogs(root: string, read: string -> string, logChoice: Choice<int>,
                    filter: Option<Choice<int>>, level: Option<Choice<int>>, showMsg: bool)
    : (r: Result<LogResponse, Error>)
    ensures r.Ok? ==> r.value.ephemeral == !showMsg
    ensures r.Err? ==> r.error == InvariantError
  {
    var (constraint, lvl) := Defaults(filter, level);
    SendLogContent(root, read, logChoice.value, constraint, lvl, !showMsg)
  }

  /** Whatever is picked from the offered choices, the backend does not
      raise: the `InvariantError` paths cannot be reached from /logs. */
  lemma ViewLogsTotalOnChoices(root: string, read: string -> string, logChoice: Choice<int>,
                               filter: Option<Choice<int>>, level: Option<Choice<int>>, showMsg: bool)
    requires logChoice in LOG_CHOICES
    requires filter.Some? ==> filter.value in FILTER_CHOICES
    requires level.Some? ==> level.value in LEVEL_CHOICES
    ensures ViewLogs(root, read, logChoice, filter, level, showMsg).Ok?
  {
  }

  /** A filter given without a level is ignored. */
  lemma FilterWithoutLevelIgnored(root: string, read: string -> string, logChoice: Choice<int>,
                                  filter: Choice<int>, showMsg: bool)
    ensures ViewLogs(root, read, logChoice, Some(filter), None, showMsg)
      == ViewLogs(root, read, logChoice, None, None, showMsg)
  {
  }

  /** A level given without a filter filters that level exactly. */
  lemma LevelAloneIsExactly(root: string, read: string -> string, logChoice: Choice<int>,
                            level: Choice<int>, showMsg: bool)
    ensures ViewLogs(root, read, logChoice, None, Some(level), showMsg)
      == ViewLogs(root, read, logChoice, Some(Choice("Exactly", EXACTLY)), Some(level), showMsg)
  {
  }

  /** Without a level the answer is built from the whole log file. */
  lemma NoLevelShowsWholeLog(root: string, read: string -> string, logChoice: Choice<int>,
                             filter: Option<Choice<int>>, showMsg: bool)
    requires logChoice in LOG_CHOICES
    ensures var path := LogPath(root, logChoice.value).value;
      ViewLogs(root, read, logChoice, filter, None, showMsg) == Ok(ChooseResponse(path, read(path), !showMsg))
  {
  }

  /** What the caller of /logs gets: the error embed of `view_logs_error`
      (always ephemeral) when the superuser check fails, otherwise the
      backend's response. */
  datatype Outcome = Denied(description: string) | Answered(response: LogResponse)

  /** /logs: the `is_superuser` check runs before the callback. */
  function LogsCommand(userId: int, developerId: int, superuserIds: set<int>,
                       root: string, read: string -> string, logChoice: Choice<int>,
                       filter: Option<Choice<int>>, level: Option<Choice<int>>, showMsg: bool)
    : (r: Result<Outcome, Error>)
    ensures !Utils.IsSuperuser(userId, developerId, superuserIds) ==> r == Ok(Denied(UNAUTHORIZED))
    ensures r.Ok? && r.value.Answered? ==> Utils.IsSuperuser(userId, developerId, superuserIds)
    ensures Utils.IsSuperuser(userId, developerId, superuserIds) ==>
      var v := ViewLogs(root, read, logChoice, filter, level, showMsg);
      && (v.Ok? ==> r == Ok(Answered(v.value)))
      && (v.Err? ==> r == Err(v.error))
  {
    if !Utils.IsSuperuser(userId, developerId, superuserIds) then Ok(Denied(UNAUTHORIZED))
    else
      var response :- ViewLogs(root, read, logChoice, filter, level, showMsg);
      Ok(Answered(response))
  }

  /** Every superuser who picks from the offered choices is answered
      with the backend's response. */
  lemma SuperuserAnswered(userId: int, developerId: int, superuserIds: set<int>,
                          root: string, read: string -> string, logChoice: Choice<int>,
                          filter: Option<Choice<int>>, level: Option<Choice<int>>, showMsg: bool)
    requires Utils.IsSuperuser(userId, developerId, superuserIds)
    requires logChoice in LOG_CHOICES
    requires filter.Some? ==> filter.value in FILTER_CHOICES
    requires level.Some? ==> level.value in LEVEL_CHOICES
    ensures ViewLogs(root, read, logChoice, filter, level, showMsg).Ok?
    ensures LogsCommand(userId, developerId, superuserIds, root, read, logChoice, filter, level, showMsg)
      == Ok(Answered(ViewLogs(root, read, logChoice, filter, level, showMsg).value))
  {
    ViewLogsTotalOnChoices(root, read, logChoice, filter, level, showMsg);
  }

  /** The developer is never turned away, whoever else is a superuser,
      and gets the backend's response. */
  lemma DeveloperAlwaysAnswered(developerId: int, superuserIds: set<int>,
                                root: string, read: string -> string, logChoice: Choice<int>,
                                filter: Option<Choice<int>>, level: Option<Choice<int>>, showMsg: bool)
    requires logChoice in LOG_CHOICES
    requires filter.Some? ==> filter.value in FILTER_CHOICES
    requires level.Some? ==> level.value in LEVEL_CHOICES
    ensures LogsCommand(developerId, developerId, superuserIds, root, read, logChoice, filter, level, showMsg)
      == Ok(Answered(ViewLogs(root, read, logChoice, filter, level, showMsg).value))
  {
    Utils.DevIsSuperuser(developerId, developerId, superuserIds);
    SuperuserAnswered(developerId, developerId, superuserIds, root, read, logChoice, filter, level, showMsg);
  }
}
