/** The background job that `/imagine` starts: generate an image from the
    prompt, PNG-encode it, upload the bytes to the channel and post a message
    that carries the uploaded file. The steps run strictly in that order and
    the job stops at the first failure, which it only logs. */
module ImagineJob {
  import opened Wrappers
  import opened Commands

  newtype byte = x: int | 0 <= x < 256

  /** An image as the generator returns it. */
  datatype Image = Image(pixels: seq<byte>)

  datatype FileInfo = FileInfo(id: string, name: string)

  datatype Post = Post(message: string, channelId: string, userId: string, fileIds: seq<string>)

  /** A host call with an effect the job can make, in the order made. */
  datatype Effect =
    | Uploaded(data: seq<byte>, channelId: string, name: string)
    | Posted(post: Post)
    | Logged(message: string, error: string)
  {
    function Tag(): EffectTag {
      match this
      case Uploaded(_, _, _) => UploadTag
      case Posted(_) => PostTag
      case Logged(_, _) => LogTag
    }
  }

  datatype EffectTag = UploadTag | PostTag | LogTag

  /** The steps of the job, in order. */
  datatype Stage = Generating | Encoding | Uploading | Posting

  const FileName := "generated-image.png"
  const MessagePrefix := "Image generated by the AI from the text: "

  /** The message logged when a stage fails. */
  function FailureMessage(stage: Stage): string {
    match stage
    case Generating => "Unable to generate the new image"
    case Encoding => "Unable to parse image"
    case Uploading => "Unable to upload the attachment"
    case Posting => "Unable to post the new message"
  }

  /** The post announcing the image stored as file `fileId`. */
  function ResultPost(job: Job, fileId: string): Post {
    Post(MessagePrefix + job.prompt, job.channelId, job.userId, [fileId])
  }

  /** The part of the host API the job uses (`p.API`). Upload and post
      answers are oracle functions of their arguments; every call with an
      effect is appended to `journal`. */
  class PluginApi {
    const uploadFile: (seq<byte>, string, string) -> Result<FileInfo>
    const createPost: Post -> Result<Post>
    var journal: seq<Effect>

    constructor (uploadFile: (seq<byte>, string, string) -> Result<FileInfo>, createPost: Post -> Result<Post>)
      ensures this.uploadFile == uploadFile && this.createPost == createPost
      ensures journal == []
    {
      this.uploadFile := uploadFile;
      this.createPost := createPost;
      journal := [];
    }

    /** `UploadFile(data, channelId, name)`. */
    method UploadFile(data: seq<byte>, channelId: string, name: string) returns (r: Result<FileInfo>)
      modifies this
      ensures journal == old(journal) + [Uploaded(data, channelId, name)]
      ensures r == uploadFile(data, channelId, name)
    {
      journal := journal + [Uploaded(data, channelId, name)];
      r := uploadFile(data, channelId, name);
    }

    /** `CreatePost(post)`. */
    method CreatePost(post: Post) returns (r: Result<Post>)
      modifies this
      ensures journal == old(journal) + [Posted(post)]
      ensures r == createPost(post)
    {
      journal := journal + [Posted(post)];
      r := createPost(post);
    }

    /** `LogError(message, "error", err)`. */
    method LogError(message: string, error: string)
      modifies this
      ensures journal == old(journal) + [Logged(message, error)]
    {
      journal := journal + [Logged(message, error)];
    }
  }

  /** The first stage whose collaborator fails, or None when all succeed;
      stated over the collaborators' answers alone. */
  function FirstFailure(
    job: Job,
    generate: string -> Result<Image>,
    encode: Image -> Result<seq<byte>>,
    upload: (seq<byte>, string, string) -> Result<FileInfo>,
    create: Post -> Result<Post>): Option<Stage>
  {
    var image := generate(job.prompt);
    if image.Err? then Some(Generating)
    else
      var bytes := encode(image.value);
      if bytes.Err? then Some(Encoding)
      else
        var file := upload(bytes.value, job.channelId, FileName);
        if file.Err? then Some(Uploading)
        else if create(ResultPost(job, file.value.id)).Err? then Some(Posting)
        else None
  }

  /** The host effects of one run of the job, in order. */
  function JobEffects(
    job: Job,
    generate: string -> Result<Image>,
    encode: Image -> Result<seq<byte>>,
    upload: (seq<byte>, string, string) -> Result<FileInfo>,
    create: Post -> Result<Post>): seq<Effect>
  {
    var image := generate(job.prompt);
    if image.Err? then [Logged(FailureMessage(Generating), image.error)]
    else
      var bytes := encode(image.value);
      if bytes.Err? then [Logged(FailureMessage(Encoding), bytes.error)]
      else
        var sent := Uploaded(bytes.value, job.channelId, FileName);
        var file := upload(bytes.value, job.channelId, FileName);
        if file.Err? then [sent, Logged(FailureMessage(Uploading), file.error)]
        else
          var post := ResultPost(job, file.value.id);
          var created := create(post);
          if created.Err? then [sent, Posted(post), Logged(FailureMessage(Posting), created.error)]
          else [sent, Posted(post)]
  }

  /** How many effects of the given kind a journal holds. */
  function Count(effects: seq<Effect>, tag: EffectTag): nat {
    if effects == [] then 0
    else (if effects[0].Tag() == tag then 1 else 0) + Count(effects[1..], tag)
  }

  /** The count of a journal of at most three entries, entry by entry. */
  lemma {:induction false} CountShort(e: seq<Effect>, tag: EffectTag)
    requires |e| <= 3
    ensures Count(e, tag) ==
      (if |e| > 0 && e[0].Tag() == tag then 1 else 0) +
      (if |e| > 1 && e[1].Tag() == tag then 1 else 0) +
      (if |e| > 2 && e[2].Tag() == tag then 1 else 0)
  {
    if e != [] {
      CountShort(e[1..], tag);
    }
  }

  /** A job whose steps all succeed uploads the encoded image once to the
      invoking channel as "generated-image.png", then creates one post with
      the prompt in its message, the invoking user as author and the
      uploaded file attached, and logs nothing. */
  lemma JobSucceeds(
    job: Job,
    generate: string -> Result<Image>,
    encode: Image -> Result<seq<byte>>,
    upload: (seq<byte>, string, string) -> Result<FileInfo>,
    create: Post -> Result<Post>)
    requires FirstFailure(job, generate, encode, upload, create) == None
    ensures generate(job.prompt).Ok? && encode(generate(job.prompt).value).Ok?
    ensures var bytes := encode(generate(job.prompt).value).value;
      && upload(bytes, job.channelId, FileName).Ok?
      && JobEffects(job, generate, encode, upload, create) ==
           [Uploaded(bytes, job.channelId, FileName),
            Posted(Post(MessagePrefix + job.prompt, job.channelId, job.userId,
                        [upload(bytes, job.channelId, FileName).value.id]))]
    ensures Count(JobEffects(job, generate, encode, upload, create), LogTag) == 0
  {
    CountShort(JobEffects(job, generate, encode, upload, create), LogTag);
  }

  /** A job that fails at some stage logs exactly one error, as its last
      effect and with that stage's message; it uploads only when the
      failure comes after encoding and posts only when posting itself
      failed. */
  lemma JobStopsAtFirstFailure(
    job: Job,
    generate: string -> Result<Image>,
    encode: Image -> Result<seq<byte>>,
    upload: (seq<byte>, string, string) -> Result<FileInfo>,
    create: Post -> Result<Post>,
    stage: Stage)
    requires FirstFailure(job, generate, encode, upload, create) == Some(stage)
    ensures var e := JobEffects(job, generate, encode, upload, create);
      && |e| > 0
      && Count(e, LogTag) == 1
      && e[|e| - 1].Logged? && e[|e| - 1].message == FailureMessage(stage)
      && Count(e, UploadTag) == (if stage == Generating || stage == Encoding then 0 else 1)
      && Count(e, PostTag) == (if stage == Posting then 1 else 0)
  {
    var e := JobEffects(job, generate, encode, upload, create);
    CountShort(e, LogTag);
    CountShort(e, UploadTag);
    CountShort(e, PostTag);
  }

  /** Whether some step fails decides, both ways, whether the job logs an
      error and whether its last effect is the post. */
  lemma FirstFailureMatchesLog(
    job: Job,
    generate: string -> Result<Image>,
    encode: Image -> Result<seq<byte>>,
    upload: (seq<byte>, string, string) -> Result<FileInfo>,
    create: Post -> Result<Post>)
    ensures var e := JobEffects(job, generate, encode, upload, create);
      && |e| > 0
      && (FirstFailure(job, generate, encode, upload, create) == None <==> Count(e, LogTag) == 0)
      && (FirstFailure(job, generate, encode, upload, create) == None <==> e[|e| - 1].Posted?)
  {
    var f := FirstFailure(job, generate, encode, upload, create);
    if f.None? {
      JobSucceeds(job, generate, encode, upload, create);
    } else {
      JobStopsAtFirstFailure(job, generate, encode, upload, create, f.value);
    }
  }

  /** The body of the goroutine in `imagine`: generate, encode, upload, post,
      logging and returning at the first failure. `generate` is the image
      generator and `encode` is `png.Encode` into a fresh buffer. */
  method Run(api: PluginApi, job: Job, generate: string -> Result<Image>, encode: Image -> Result<seq<byte>>)
    modifies api
    ensures api.journal == old(api.journal) + JobEffects(job, generate, encode, api.uploadFile, api.createPost)
  {
    var image := generate(job.prompt);
    if image.Err? {
      api.LogError(FailureMessage(Generating), image.error);
      return;
    }
    var buf := encode(image.value);
    if buf.Err? {
      api.LogError(FailureMessage(Encoding), buf.error);
      return;
    }
    var fileInfo := api.UploadFile(buf.value, job.channelId, FileName);
    if fileInfo.Err? {
      api.LogError(FailureMessage(Uploading), fileInfo.error);
      return;
    }
    var created := api.CreatePost(ResultPost(job, fileInfo.value.id));
    if created.Err? {
      api.LogError(FailureMessage(Posting), created.error);
      return;
    }
  }
}
