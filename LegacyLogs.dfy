/** bot/tacocat/cogs/developer/logs.py: the earlier backend of the logs
    command, whose choices carry the log paths themselves and which
    answers with a plain (never ephemeral) message. */
module LegacyLogs {
  import opened Text
  import Utils
  import opened Discord
  import opened LogsCmd

  /** `LOG_CHOICES`: the choice values are the paths of the log files. */
  function LegacyLogChoices(root: string): seq<Choice<string>> {
    [Choice(PROJECT_NAME, ProgramLogPath(root)), Choice("discord.py", DiscordLogPath(root))]
  }

  /** `send_log_content(ctx, log_path)`, given the file's content. */
  function LegacySendLogContent(path: string, content: string): (r: LogResponse)
    ensures !r.ephemeral
    ensures r.Upload? <==> |content| + 10 > Utils.MESSAGE_LENGTH_LIMIT
    ensures r.Upload? ==> r.path == path && r.filename == Basename(path)
    ensures r.Message? ==> r.text == "```" + content + "```" && |r.text| <= Utils.MESSAGE_LENGTH_LIMIT
  {
    if |content| + 10 > Utils.MESSAGE_LENGTH_LIMIT then Upload(path, Basename(path), false)
    else Message("```" + content + "```", false)
  }

  /** On content that is not blank the newer backend answers as this one
      did (with the message not ephemeral). */
  lemma LegacyAgreesOnNonBlank(path: string, content: string)
    requires |content| > 0 && !IsSpace(content)
    ensures LegacySendLogContent(path, content) == ChooseResponse(path, content, false)
  {
  }

  /** On blank content this backend sends an empty code fence, where the
      newer one says there is nothing to send. */
  lemma LegacyBlankDiffers(path: string)
    ensures LegacySendLogContent(path, "") == Message("``````", false)
    ensures ChooseResponse(path, "", false) == Message(NOTHING_TO_SEND, false)
  {
  }

  /** Each offered log is uploaded under its own file name. */
  lemma LegacyUploadNames(root: string, content: string)
    requires |content| + 10 > Utils.MESSAGE_LENGTH_LIMIT
    ensures LegacySendLogContent(LegacyLogChoices(root)[0].value, content).filename == "bot.log"
    ensures LegacySendLogContent(LegacyLogChoices(root)[1].value, content).filename == "discord.log"
  {
    BasenameOfJoin(root + "/logs", "bot.log");
    assert root + "/logs" + "/" + "bot.log" == ProgramLogPath(root);
    BasenameOfJoin(root + "/logs", "discord.log");
    assert root + "/logs" + "/" + "discord.log" == DiscordLogPath(root);
  }
}
