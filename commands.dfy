/** The slash-command dispatcher of the plugin (`ExecuteCommand` and its two
    handlers). It is a pure decision over the command text, the arguments the
    host passes, and what the host's collaborators answer: each collaborator is
    an oracle input, and the calls made to it are recorded in order so that
    "this was never called" can be stated. The image job itself is only
    handed over here (`Execution.job`); module ImagineJob runs it. */
module Commands {
  import opened Wrappers
  import opened GoStrings

  /** The fields of `model.CommandArgs` that the dispatcher reads. */
  datatype CommandArgs = CommandArgs(command: string, userId: string, channelId: string, rootId: string)

  /** A channel as returned by the host's channel lookup. */
  datatype Channel = Channel(id: string, name: string)

  /** What the dispatcher returns to the host: an `AppError` with its HTTP
      status, or one of the three `CommandResponse` shapes it builds. */
  datatype Reply =
    | Error(status: int)
    | Empty
    | Redirect(location: string)
    | Ephemeral(text: string, channelId: string)

  /** A synchronous call into a collaborator, in the order it was made. */
  datatype Call =
    | GetChannel(channelId: string)
    | CheckUsage(userId: string, channel: Channel)
    | StartThread(rootId: string, userId: string)

  /** The work an `/imagine` hands to the background: the prompt and the
      two argument fields the job reads. */
  datatype Job = Job(prompt: string, channelId: string, userId: string)

  /** The answers of the synchronous collaborators, as functions of their
      arguments: `pluginAPI.Channel.Get`, `checkUsageRestrictions` and
      `startNewSummaryThread`. */
  datatype Collaborators = Collaborators(
    getChannel: string -> Result<Channel>,
    checkUsage: (string, Channel) -> Outcome,
    startThread: (string, string) -> Result<string>)

  /** One run of `ExecuteCommand`: its reply, the collaborator calls in order,
      and the background job it started, if any. */
  datatype Execution = Execution(reply: Reply, calls: seq<Call>, job: Option<Job>)

  const StatusInternalServerError := 500
  const StatusUnauthorized := 401

  const SummarizeVerb := "/summarize"
  const ImagineVerb := "/imagine"
  const RedirectPrefix := "/_redirect/pl/"
  const ChannelSummaryText := "Channel summarization not implmented"
  const ImagineText := "Generating image, please wait."

  /** The command text split into its verb (slash included) and the rest. */
  datatype ParsedCommand = ParsedCommand(verb: string, prompt: string)

  /** Trim the text, split it once on the first plain space; the verb is the
      first piece and the prompt is the remaining piece joined back, or "". */
  function ParseCommand(text: string): (p: ParsedCommand)
    ensures ' ' !in p.verb
    ensures p.verb == [] <==> TrimSpace(text) == []
    ensures ' ' in TrimSpace(text) ==> p.verb + " " + p.prompt == TrimSpace(text)
    ensures ' ' !in TrimSpace(text) ==> p.verb == TrimSpace(text) && p.prompt == []
  {
    var split := SplitFirst(TrimSpace(text), ' ');
    assert |split| == 2 ==> split[1..] == [split[1]];
    ParsedCommand(split[0], Join(split[1..], " "))
  }

  /** `ParseCommand` is determined by the trimmed text's split. */
  lemma ParseCommandFromSplit(text: string, split: seq<string>)
    requires SplitFirst(TrimSpace(text), ' ') == split
    ensures ParseCommand(text) == ParsedCommand(split[0], Join(split[1..], " "))
  {
  }

  /** Parsing undoes writing a verb, one space and a prompt, provided the verb
      is a single space-free word and the prompt does not end in white space
      (a prompt may start with further spaces: they stay in the prompt). */
  lemma ParseOfVerbAndPrompt(verb: string, prompt: string)
    requires verb != [] && ' ' !in verb && Trimmed(verb)
    requires prompt == [] || !IsSpace(prompt[|prompt| - 1])
    ensures ParseCommand(verb + " " + prompt) == ParsedCommand(verb, prompt)
  {
    var text := verb + " " + prompt;
    if prompt == [] {
      assert text == [] + verb + " ";
      assert AllSpace(" ");
      TrimSpaceOfPadded([], verb, " ");
      assert SplitFirst(verb, ' ') == [verb];
      ParseCommandFromSplit(text, [verb]);
    } else {
      assert text == verb + [' '] + prompt;
      assert Trimmed(text) by {
        assert text[0] == verb[0] && text[|text| - 1] == prompt[|prompt| - 1];
      }
      TrimSpaceOfTrimmed(text);
      SplitFirstAfterPrefix(verb, ' ', prompt);
      ParseCommandFromSplit(text, [verb, prompt]);
      assert [verb, prompt][1..] == [prompt];
    }
  }

  /** White space around the command text changes neither verb nor prompt. */
  lemma ParseIgnoresPadding(pre: string, text: string, post: string)
    requires AllSpace(pre) && AllSpace(post)
    ensures ParseCommand(pre + text + post) == ParseCommand(text)
  {
    TrimSpaceIgnoresPadding(pre, text, post);
  }

  /** The host's channel lookup and usage restriction both let the user
      through. */
  predicate Authorized(args: CommandArgs, env: Collaborators) {
    && env.getChannel(args.channelId).Ok?
    && env.checkUsage(args.userId, env.getChannel(args.channelId).value).Pass?
  }

  /** The two guard calls an authorized invocation always makes first. */
  function GuardCalls(args: CommandArgs, env: Collaborators): seq<Call>
    requires env.getChannel(args.channelId).Ok?
  {
    [GetChannel(args.channelId), CheckUsage(args.userId, env.getChannel(args.channelId).value)]
  }

  /** `summarizeCurrentContext`: in a thread, start the summary thread and
      redirect to the post it returns; outside a thread, a fixed ephemeral
      notice. A failing thread start is passed up as an error. */
  function SummarizeCurrentContext(args: CommandArgs, env: Collaborators): (r: (Result<Reply>, seq<Call>))
    ensures args.rootId == [] ==> r == (Ok(Ephemeral(ChannelSummaryText, args.channelId)), [])
    ensures args.rootId != [] ==> r.1 == [StartThread(args.rootId, args.userId)]
    ensures args.rootId != [] ==> (r.0.Ok? <==> env.startThread(args.rootId, args.userId).Ok?)
    ensures r.0.Ok? && args.rootId != [] ==>
      r.0.value == Redirect(RedirectPrefix + env.startThread(args.rootId, args.userId).value)
  {
    if args.rootId != "" then
      var post := env.startThread(args.rootId, args.userId);
      if post.Err? then (Err(post.error), [StartThread(args.rootId, args.userId)])
      else (Ok(Redirect(RedirectPrefix + post.value)), [StartThread(args.rootId, args.userId)])
    else
      (Ok(Ephemeral(ChannelSummaryText, args.channelId)), [])
  }

  /** `imagine`: hand the job to the background and report success at once;
      the returned error is always nil, whatever the job will do. */
  function Imagine(args: CommandArgs, prompt: string): (r: (Option<string>, Job))
    ensures r.0 == None
    ensures r.1.prompt == prompt && r.1.channelId == args.channelId && r.1.userId == args.userId
  {
    (None, Job(prompt, args.channelId, args.userId))
  }

  /** `ExecuteCommand`. `args == None` models a nil `args` pointer. The
      channel lookup and the usage check run before the verb is looked at,
      so they happen for every verb; nothing further happens unless both
      pass. */
  function ExecuteCommand(args: Option<CommandArgs>, env: Collaborators): (e: Execution)
    ensures args.None? ==> e == Execution(Error(StatusInternalServerError), [], None)
    ensures args.Some? ==> |e.calls| >= 1 && e.calls[0] == GetChannel(args.value.channelId)
    ensures args.Some? && env.getChannel(args.value.channelId).Err? ==>
      e == Execution(Error(StatusInternalServerError), [GetChannel(args.value.channelId)], None)
    ensures e.reply == Error(StatusUnauthorized) <==>
      args.Some? && env.getChannel(args.value.channelId).Ok? && !Authorized(args.value, env)
    ensures args.Some? && env.getChannel(args.value.channelId).Ok? && !Authorized(args.value, env) ==>
      e.calls == GuardCalls(args.value, env) && e.job == None
    ensures (e.job.Some? || |e.calls| > 2) ==> args.Some? && Authorized(args.value, env)
    ensures args.Some? && Authorized(args.value, env) ==>
      |e.calls| >= 2 && e.calls[..2] == GuardCalls(args.value, env)
  {
    if args.None? then Execution(Error(StatusInternalServerError), [], None)
    else
      var a := args.value;
      var channel := env.getChannel(a.channelId);
      if channel.Err? then Execution(Error(StatusInternalServerError), [GetChannel(a.channelId)], None)
      else
        var guards := [GetChannel(a.channelId), CheckUsage(a.userId, channel.value)];
        if env.checkUsage(a.userId, channel.value).Fail? then Execution(Error(StatusUnauthorized), guards, None)
        else
          var parsed := ParseCommand(a.command);
          var command := parsed.verb;
          if command != SummarizeVerb && command != ImagineVerb then Execution(Empty, guards, None)
          else if command == SummarizeVerb then
            var (response, calls) := SummarizeCurrentContext(a, env);
            if response.Err? then Execution(Error(StatusInternalServerError), guards + calls, None)
            else Execution(response.value, guards + calls, None)
          else if command == ImagineVerb then
            var (err, job) := Imagine(a, parsed.prompt);
            if err.Some? then Execution(Error(StatusInternalServerError), guards, None)
            else Execution(Ephemeral(ImagineText, a.channelId), guards, Some(job))
          else Execution(Empty, guards, None)
  }

  /** No call other than the two guards was made. */
  predicate OnlyGuardCalls(calls: seq<Call>) {
    forall c | c in calls :: c.GetChannel? || c.CheckUsage?
  }

  /** Any verb other than exactly "/summarize" or "/imagine" is answered with
      an empty response once the guards pass, and never starts a thread or a
      job; before that, only the guards' own errors can occur. */
  lemma UnknownVerbIsIgnored(args: CommandArgs, env: Collaborators)
    requires ParseCommand(args.command).verb != SummarizeVerb
    requires ParseCommand(args.command).verb != ImagineVerb
    ensures var e := ExecuteCommand(Some(args), env);
      && OnlyGuardCalls(e.calls)
      && e.job == None
      && (e.reply == Empty <==> Authorized(args, env))
      && (Authorized(args, env) ==> e.calls == GuardCalls(args, env))
      && (e.reply == Empty || e.reply == Error(StatusInternalServerError) || e.reply == Error(StatusUnauthorized))
  {
  }

  /** "/summarize" inside a thread starts exactly one summary thread and
      redirects to the post it returns; a failing start is a 500 error. It
      never produces an ephemeral message and never starts a job. */
  lemma SummarizeInThread(args: CommandArgs, env: Collaborators)
    requires ParseCommand(args.command).verb == SummarizeVerb
    requires args.rootId != [] && Authorized(args, env)
    ensures var e := ExecuteCommand(Some(args), env);
      && e.calls == GuardCalls(args, env) + [StartThread(args.rootId, args.userId)]
      && e.job == None
      && !e.reply.Ephemeral?
      && (env.startThread(args.rootId, args.userId).Ok? ==>
            e.reply == Redirect(RedirectPrefix + env.startThread(args.rootId, args.userId).value))
      && (env.startThread(args.rootId, args.userId).Err? ==> e.reply == Error(StatusInternalServerError))
  {
  }

  /** "/summarize" outside a thread returns the fixed notice for the
      invoking channel and never calls the thread starter. */
  lemma SummarizeInChannel(args: CommandArgs, env: Collaborators)
    requires ParseCommand(args.command).verb == SummarizeVerb
    requires args.rootId == [] && Authorized(args, env)
    ensures var e := ExecuteCommand(Some(args), env);
      && e.reply == Ephemeral(ChannelSummaryText, args.channelId)
      && e.calls == GuardCalls(args, env)
      && e.job == None
  {
  }

  /** "/imagine" with any prompt, "" included, answers with the fixed
      notice for the invoking channel and hands exactly one job with that
      prompt to the background; the reply does not depend on the prompt, and
      no thread is started. */
  lemma ImagineDispatchesJob(args: CommandArgs, env: Collaborators)
    requires ParseCommand(args.command).verb == ImagineVerb && Authorized(args, env)
    ensures var e := ExecuteCommand(Some(args), env);
      && e.reply == Ephemeral(ImagineText, args.channelId)
      && e.calls == GuardCalls(args, env)
      && e.job == Some(Job(ParseCommand(args.command).prompt, args.channelId, args.userId))
  {
  }

  /** Typing "/imagine " and a prompt hands exactly that prompt to the job,
      however many spaces it starts with. */
  lemma ImaginePromptIsTheRestOfTheLine(args: CommandArgs, env: Collaborators, prompt: string)
    requires args.command == ImagineVerb + " " + prompt
    requires prompt == [] || !IsSpace(prompt[|prompt| - 1])
    requires Authorized(args, env)
    ensures ExecuteCommand(Some(args), env).job == Some(Job(prompt, args.channelId, args.userId))
    ensures ExecuteCommand(Some(args), env).reply == Ephemeral(ImagineText, args.channelId)
  {
    ParseOfVerbAndPrompt(ImagineVerb, prompt);
    ImagineDispatchesJob(args, env);
  }

  /** The reply to an "/imagine" is the same whatever the prompt. */
  lemma ImagineReplyIgnoresPrompt(args: CommandArgs, other: CommandArgs, env: Collaborators)
    requires ParseCommand(args.command).verb == ImagineVerb
    requires ParseCommand(other.command).verb == ImagineVerb
    requires other.userId == args.userId && other.channelId == args.channelId
    ensures ExecuteCommand(Some(args), env).reply == ExecuteCommand(Some(other), env).reply
  {
  }

  /** The example "/imagine a red fox" by an authorized user. */
  lemma RedFoxExample(args: CommandArgs, env: Collaborators)
    requires args.command == "/imagine a red fox" && Authorized(args, env)
    ensures ExecuteCommand(Some(args), env) ==
      Execution(Ephemeral(ImagineText, args.channelId), GuardCalls(args, env),
                Some(Job("a red fox", args.channelId, args.userId)))
  {
    assert args.command == ImagineVerb + " " + "a red fox";
    ImaginePromptIsTheRestOfTheLine(args, env, "a red fox");
  }

  /** A tab is not a separator: "/imagine\tfox" is one verb with no
      prompt. */
  lemma TabIsPartOfVerb()
    ensures ParseCommand("/imagine\tfox") == ParsedCommand("/imagine\tfox", "")
  {
    var text := "/imagine\tfox";
    assert Trimmed(text);
    TrimSpaceOfTrimmed(text);
    assert ' ' !in text;
    ParseCommandFromSplit(text, [text]);
  }

  /** So an authorized "/imagine\tfox" gets the empty response and starts
      no job. */
  lemma TabDoesNotSeparate(args: CommandArgs, env: Collaborators)
    requires args.command == "/imagine\tfox" && Authorized(args, env)
    ensures ExecuteCommand(Some(args), env) == Execution(Empty, GuardCalls(args, env), None)
  {
    TabIsPartOfVerb();
    assert ParseCommand(args.command).verb != SummarizeVerb;
    assert ParseCommand(args.command).verb != ImagineVerb;
    UnknownVerbIsIgnored(args, env);
  }
}
