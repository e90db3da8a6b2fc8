/**
 * The completion gateway (`getAIResponse`): it keeps the last ten entries of
 * a chat's message log, puts one fixed system instruction in front of them,
 * sends that to a hosted chat-completion model under a fixed model name and
 * returns the text of the first choice. Any failure on the way, a missing
 * first choice included, gives one fixed fallback sentence instead of an
 * error. The hosted model is an oracle: a function from the request to what
 * the client library hands back.
 */
module AiService {
  import opened Js

  datatype Role = System | User | Assistant

  datatype Message = Message(role: Role, content: string)

  const ModelName: string := "HuggingFaceH4/zephyr-7b-beta:featherless-ai"
  const SystemPrompt: string := "You are a helpful AI assistant."
  const FallbackReply: string := "Sorry, something went wrong with the AI."
  /** How many of the most recent log entries are forwarded (the source slices at -10). */
  const WindowSize: nat := 10

  datatype CompletionRequest = CompletionRequest(model: string, messages: seq<Message>)

  /** What the client call yields: the contents of the returned choices, or a thrown error. */
  datatype Completion = Choices(contents: seq<string>) | Failure

  /** The entries that are forwarded: the last `WindowSize` of the log, oldest first. */
  function RecentMessages(log: seq<Message>): (w: seq<Message>)
    ensures |w| == Min(WindowSize, |log|)
    ensures w == log[|log| - |w|..]
  {
    SliceFromEnd(log, WindowSize);
    SliceFrom(log, -(WindowSize as int))
  }

  /** The request body: the system instruction, then the window. */
  function BuildRequest(log: seq<Message>): (req: CompletionRequest)
    ensures req.model == ModelName
    ensures |req.messages| == 1 + Min(WindowSize, |log|)
    ensures req.messages[0] == Message(System, SystemPrompt)
    ensures req.messages[1..] == log[|log| - Min(WindowSize, |log|)..]
  {
    CompletionRequest(ModelName, [Message(System, SystemPrompt)] + RecentMessages(log))
  }

  /** `getAIResponse(messages)`: the first choice's text, or the fallback sentence; it never fails. */
  function GetAIResponse(log: seq<Message>, provider: CompletionRequest -> Completion): (reply: string)
    ensures reply == FallbackReply ||
            (provider(BuildRequest(log)).Choices? && reply in provider(BuildRequest(log)).contents)
  {
    match provider(BuildRequest(log))
    case Choices(contents) => if |contents| > 0 then contents[0] else FallbackReply
    case Failure => FallbackReply
  }

  /**
   * The gateway's contract: the model is asked with the request built from
   * the window; a thrown error or an answer without a first choice gives the
   * fallback sentence, any other answer gives the first choice's text.
   */
  lemma GatewayReply(log: seq<Message>, provider: CompletionRequest -> Completion)
    ensures var c := provider(BuildRequest(log));
            && (c.Failure? ==> GetAIResponse(log, provider) == FallbackReply)
            && (c == Choices([]) ==> GetAIResponse(log, provider) == FallbackReply)
            && (c.Choices? && |c.contents| > 0 ==> GetAIResponse(log, provider) == c.contents[0])
  {
  }

  /**
   * Only the window matters: entries older than the last ten never reach the
   * model, so the request is the same and so is the reply, which depends on
   * the request alone.
   */
  lemma {:induction false} OlderHistoryIgnored(older: seq<Message>, log: seq<Message>, provider: CompletionRequest -> Completion)
    requires |log| >= WindowSize
    ensures BuildRequest(older + log) == BuildRequest(log)
    ensures GetAIResponse(older + log, provider) == GetAIResponse(log, provider)
  {
    var whole := older + log;
    assert whole[|whole| - WindowSize..] == log[|log| - WindowSize..];
    assert RecentMessages(whole) == RecentMessages(log);
  }

  /** The last entry of the log is always the last message the model sees. */
  lemma {:induction false} LastEntryForwarded(log: seq<Message>, m: Message)
    ensures var req := BuildRequest(log + [m]);
            req.messages[|req.messages| - 1] == m
  {
    var req := BuildRequest(log + [m]);
    assert req.messages[|req.messages| - 1] == req.messages[1..][|req.messages| - 2];
  }
}
