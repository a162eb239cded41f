/** One slash-command invocation end to end: the reply is decided first and
    returned to the host; a job handed over by `/imagine` runs afterwards and
    can only add effects to the host's journal, never change the reply. */
module Plugin {
  import opened Wrappers
  import opened Commands
  import opened ImagineJob

  /** `ExecuteCommand` followed by the detached `imagine` job, run here
      sequentially after the reply is fixed. */
  method ServeCommand(
    api: PluginApi,
    args: Option<CommandArgs>,
    env: Collaborators,
    generate: string -> Result<Image>,
    encode: Image -> Result<seq<byte>>)
    returns (reply: Reply)
    modifies api
    ensures reply == ExecuteCommand(args, env).reply
    ensures var e := ExecuteCommand(args, env);
      api.journal == old(api.journal) +
        (if e.job.Some? then JobEffects(e.job.value, generate, encode, api.uploadFile, api.createPost) else [])
  {
    var execution := ExecuteCommand(args, env);
    reply := execution.reply;
    if execution.job.Some? {
      Run(api, execution.job.value, generate, encode);
    }
  }
}
