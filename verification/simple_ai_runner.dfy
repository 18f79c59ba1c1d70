/**
 simple_ai_runner.py: answers a request about a site with one chat-completion
 call instead of Aider. The web files' contents are pasted into the system
 message, the user's message follows verbatim, and whatever the API returns
 is the user output. Files are never modified, so every result reports
 `fileChanged` false.

 The folder check, the glob and each file read are inputs (`folderExists`,
 `listing`); the HTTP round trip is the parameter `post`, from the request
 the script builds to what came back.
 */
module SimpleAiRunner {
  import opened Wrappers
  import opened Text
  import opened Seqs
  import opened RunnerResult

  datatype Role = System | User

  datatype ChatMessage = ChatMessage(role: Role, content: string)

  /** One file the glob found: its base name (`file_path.name`) and its text,
      or `None` when opening or decoding it raised. */
  datatype WebFile = WebFile(name: string, contents: Option<string>)

  const CompletionsUrl := "https://api.openai.com/v1/chat/completions"

  /** The POST request `call_openai_api` sends: endpoint, bearer token, model,
      messages, sampling temperature and reply-length cap. */
  datatype ChatRequest = ChatRequest(
    url: string,
    authorization: string,
    model: string,
    messages: seq<ChatMessage>,
    temperature: real,
    maxTokens: nat)

  /** How the HTTP round trip ended: the first choice's message content, or
      an exception (network error, HTTP error status, unexpected JSON). */
  datatype HttpOutcome = Replied(content: string) | HttpFailed(message: string)

  // ---------------------------------------------------------------------------
  // The API call

  function BuildRequest(apiKey: string, messages: seq<ChatMessage>): ChatRequest {
    ChatRequest(CompletionsUrl, "Bearer " + apiKey, "gpt-4", messages, 0.7, 2000)
  }

  /** `call_openai_api`: never raises; a failure comes back as text prefixed
      with "Error calling OpenAI API: ". */
  function CallOpenAiApi(apiKey: string, messages: seq<ChatMessage>, post: ChatRequest -> HttpOutcome): (reply: string)
    ensures post(BuildRequest(apiKey, messages)).Replied? ==> reply == post(BuildRequest(apiKey, messages)).content
    ensures post(BuildRequest(apiKey, messages)).HttpFailed? ==>
              reply == "Error calling OpenAI API: " + post(BuildRequest(apiKey, messages)).message
  {
    match post(BuildRequest(apiKey, messages))
    case Replied(content) => content
    case HttpFailed(message) => "Error calling OpenAI API: " + message
  }

  // ---------------------------------------------------------------------------
  // The prompt

  /** The text one readable file contributes to the prompt. */
  function FileBlock(name: string, contents: string): string {
    "File: " + name + "\n" + contents + "\n"
  }

  /** A file's block, or nothing when it could not be read. */
  function ReadBlock(file: WebFile): Option<string> {
    match file.contents
    case Some(contents) => Some(FileBlock(file.name, contents))
    case None => None
  }

  /** The blocks of the readable files, in discovery order. */
  function FileBlocks(files: seq<WebFile>): seq<string> {
    FilterMap(ReadBlock, files)
  }

  /** The system message followed by the file blocks separated by newlines. */
  function SystemContent(systemMessage: string, files: seq<WebFile>): string {
    systemMessage + "\n\nHere are the current files:\n" + Join(FileBlocks(files), "\n")
  }

  /** The conversation sent to the model: exactly two messages, the system
      prompt with the files first, the user's message verbatim second. */
  function Messages(systemMessage: string, userMessage: string, files: seq<WebFile>): (m: seq<ChatMessage>)
    ensures |m| == 2
    ensures m[0].role == System && StartsWith(m[0].content, systemMessage + "\n\nHere are the current files:\n")
    ensures m[1] == ChatMessage(User, userMessage)
  {
    [ChatMessage(System, SystemContent(systemMessage, files)), ChatMessage(User, userMessage)]
  }

  // ---------------------------------------------------------------------------
  // One run

  /** `run_ai_on_folder`. A missing folder and an empty glob end the run
      with a message naming the folder; an exception from the glob is reported
      with the "Error running AI: " prefix; otherwise the user output is the
      API's reply (or its error text). `fileChanged` is false on every path. */
  function RunAiOnFolder(folderPath: string, systemMessage: string, userMessage: string, apiKey: string,
                         folderExists: bool, listing: Result<seq<WebFile>, string>,
                         post: ChatRequest -> HttpOutcome): (r: RunResult)
    ensures !r.fileChanged
    ensures !folderExists ==> r.userOutput == "Folder not found: " + folderPath
    ensures folderExists && listing.Failure? ==> r.userOutput == "Error running AI: " + listing.error
    ensures folderExists && listing == Success([]) ==>
              r.userOutput == "No HTML, JS, or CSS files found in " + folderPath
    ensures folderExists && listing.Success? && listing.value != [] ==>
              r.userOutput == CallOpenAiApi(apiKey, Messages(systemMessage, userMessage, listing.value), post)
  {
    if !folderExists then
      RunResult("Folder not found: " + folderPath, false)
    else match listing
      case Failure(message) => RunResult("Error running AI: " + message, false)
      case Success(files) =>
        if |files| == 0 then
          RunResult("No HTML, JS, or CSS files found in " + folderPath, false)
        else
          RunResult(CallOpenAiApi(apiKey, Messages(systemMessage, userMessage, files), post), false)
  }

  // ---------------------------------------------------------------------------
  // Properties

  /** When the folder is missing, the glob fails or finds nothing, the API is
      never called: any other transport gives the same result. */
  lemma EarlyExitSkipsApi(folderPath: string, systemMessage: string, userMessage: string, apiKey: string,
                          folderExists: bool, listing: Result<seq<WebFile>, string>,
                          post: ChatRequest -> HttpOutcome, otherPost: ChatRequest -> HttpOutcome)
    requires !folderExists || listing.Failure? || listing == Success([])
    ensures RunAiOnFolder(folderPath, systemMessage, userMessage, apiKey, folderExists, listing, post)
            == RunAiOnFolder(folderPath, systemMessage, userMessage, apiKey, folderExists, listing, otherPost)
  {
  }

  /** An unreadable file leaves no trace in the prompt: the messages are those
      of the same listing without it. */
  lemma UnreadableFileSkipped(systemMessage: string, userMessage: string,
                              before: seq<WebFile>, name: string, after: seq<WebFile>)
    ensures Messages(systemMessage, userMessage, before + [WebFile(name, None)] + after)
            == Messages(systemMessage, userMessage, before + after)
  {
    var skipped := WebFile(name, None);
    FilterMapConcat(ReadBlock, before + [skipped], after);
    FilterMapAppend(ReadBlock, before, skipped);
    FilterMapConcat(ReadBlock, before, after);
    assert FileBlocks(before + [skipped] + after) == FileBlocks(before + after);
  }

  /** A readable file found after the others adds its block at the end of the
      system message, after a newline unless it is the first block. */
  lemma ReadableFileAppended(systemMessage: string, files: seq<WebFile>, name: string, contents: string)
    ensures SystemContent(systemMessage, files + [WebFile(name, Some(contents))])
            == SystemContent(systemMessage, files)
               + (if FileBlocks(files) == [] then "" else "\n")
               + FileBlock(name, contents)
  {
    FilterMapAppend(ReadBlock, files, WebFile(name, Some(contents)));
    JoinAppend(FileBlocks(files), FileBlock(name, contents), "\n");
  }

  /** The block of every readable file appears in the prompt's file list, and
      every block there comes from a readable file. */
  lemma FileBlocksFromReadableFiles(files: seq<WebFile>, block: string)
    ensures block in FileBlocks(files) <==>
            exists i :: 0 <= i < |files| && files[i].contents.Some?
                        && block == FileBlock(files[i].name, files[i].contents.value)
  {
    FilterMapMembership(ReadBlock, files, block);
  }

  /** Files that were found but none of which could be read are not an
      error: the API is still called, with an empty file list in the prompt. */
  lemma UnreadableFilesStillCallApi(folderPath: string, systemMessage: string, userMessage: string, apiKey: string,
                                    files: seq<WebFile>, post: ChatRequest -> HttpOutcome)
    requires files != []
    requires forall i :: 0 <= i < |files| ==> files[i].contents.None?
    ensures RunAiOnFolder(folderPath, systemMessage, userMessage, apiKey, true, Success(files), post).userOutput
            == CallOpenAiApi(apiKey, [ChatMessage(System, systemMessage + "\n\nHere are the current files:\n"),
                                      ChatMessage(User, userMessage)], post)
  {
    if FileBlocks(files) != [] {
      FileBlocksFromReadableFiles(files, FileBlocks(files)[0]);
    }
    assert SystemContent(systemMessage, files) == systemMessage + "\n\nHere are the current files:\n";
  }
}
