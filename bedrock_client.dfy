/** The Amazon Bedrock adapter of the backend (backend/utils/bedrockClient.js):
    one user turn becomes one Converse request, and the provider's answer
    becomes one reply string or one error message.

    The AWS SDK call `bedrockClient.send(command)` is not modelled; its outcome
    is a parameter (`SendResult`). */
module BedrockClient {
  import opened Wrappers
  import opened Strings

  const DefaultModelId := "amazon.nova-pro-v1:0"
  const DefaultMaxTokens := 512
  const DefaultTemperature := 0.7
  const DefaultTopP := 0.9

  const MessageRequired := "Bedrock: message is required"
  const MalformedResponse := "Bedrock: empty or malformed response from model"
  const CallFailedPrefix := "Bedrock API call failed: "

  /** `process.env.BEDROCK_MODEL_ID || 'amazon.nova-pro-v1:0'`: the variable
      when it is set and non-empty, the Nova Pro id otherwise. */
  function ModelId(env: Option<string>): (r: string)
    ensures r != []
    ensures Truthy(env) ==> r == env.value
    ensures !Truthy(env) ==> r == DefaultModelId
  {
    if Truthy(env) then env.value else DefaultModelId
  }

  /** The named arguments of `sendTextMessageToNova`; `None` is an omitted one. */
  datatype NovaParams = NovaParams(
    message: Option<string>,
    systemPrompt: Option<string>,
    maxTokens: Option<int>,
    temperature: Option<real>,
    topP: Option<real>)

  /** The request envelope given to `ConverseCommand`. */
  datatype TextBlock = TextBlock(text: string)
  datatype Message = Message(role: string, content: seq<TextBlock>)
  datatype InferenceConfig = InferenceConfig(maxTokens: int, temperature: real, topP: real)
  datatype ConverseRequest = ConverseRequest(
    modelId: string,
    messages: seq<Message>,
    inferenceConfig: InferenceConfig,
    system: Option<seq<TextBlock>>)

  /** The provider's answer. `text` is `None` when a block has no string-valued
      `text`; `content` is `None` when it is not an array; `message` is `None`
      when `output` or `output.message` is missing. */
  datatype ContentBlock = ContentBlock(text: Option<string>)
  datatype OutputMessage = OutputMessage(content: Option<seq<ContentBlock>>)
  datatype ConverseResponse = ConverseResponse(message: Option<OutputMessage>)

  /** What the awaited `send` produced: a response, or a rejection carrying the
      error's message. */
  datatype SendResult = Answered(response: ConverseResponse) | Rejected(errorMessage: string)

  predicate HasText(block: ContentBlock) {
    block.text.Some? && block.text.value != []
  }

  /** `content.filter(b => typeof b.text === 'string' && b.text.length > 0).map(b => b.text)`. */
  function TextParts(content: seq<ContentBlock>): (parts: seq<string>)
    ensures |parts| <= |content|
    ensures forall k :: 0 <= k < |parts| ==> parts[k] != []
  {
    if content == [] then []
    else if HasText(content[0]) then [content[0].text.value] + TextParts(content[1..])
    else TextParts(content[1..])
  }

  /** The filter keeps provider order: the parts of a concatenation are the
      parts of each side, one after the other. */
  lemma {:induction false} TextPartsAppend(a: seq<ContentBlock>, b: seq<ContentBlock>)
    ensures TextParts(a + b) == TextParts(a) + TextParts(b)
  {
    if a == [] {
      assert a + b == b;
    } else {
      assert (a + b)[0] == a[0];
      assert (a + b)[1..] == a[1..] + b;
      TextPartsAppend(a[1..], b);
    }
  }

  /** A block contributes its text exactly when that text is a non-empty string. */
  lemma TextPartsOfBlock(block: ContentBlock)
    ensures TextParts([block]) == if HasText(block) then [block.text.value] else []
  {
    assert [block][1..] == [];
  }

  /** The reply is the text parts joined with newlines and trimmed; a missing
      output message or a non-array content is the one malformed case. */
  function ExtractReply(response: ConverseResponse): (r: Result<string, string>)
    ensures r.Failure? <==> response.message.None? || response.message.value.content.None?
    ensures r.Failure? ==> r.error == MalformedResponse
    ensures r.Success? ==> r.value == Trim(Join(TextParts(response.message.value.content.value), "\n"))
  {
    match response.message
    case None => Failure(MalformedResponse)
    case Some(output) =>
      match output.content
      case None => Failure(MalformedResponse)
      case Some(blocks) => Success(Trim(Join(TextParts(blocks), "\n")))
  }

  /** A well-formed answer without any text, an empty content array included,
      gives the empty reply and not an error. */
  lemma {:induction false} NoTextGivesEmptyReply(blocks: seq<ContentBlock>)
    requires forall k :: 0 <= k < |blocks| ==> !HasText(blocks[k])
    ensures ExtractReply(ConverseResponse(Some(OutputMessage(Some(blocks))))) == Success("")
  {
    if blocks != [] {
      NoTextGivesEmptyReply(blocks[1..]);
    }
  }

  /** The reply of a well-formed answer is empty exactly when every text part
      is whitespace only. */
  lemma EmptyReplyIffBlankParts(blocks: seq<ContentBlock>)
    ensures ExtractReply(ConverseResponse(Some(OutputMessage(Some(blocks))))) == Success("")
      ==> forall k :: 0 <= k < |TextParts(blocks)| ==> AllSpace(TextParts(blocks)[k])
    ensures (forall k :: 0 <= k < |TextParts(blocks)| ==> AllSpace(TextParts(blocks)[k]))
      ==> ExtractReply(ConverseResponse(Some(OutputMessage(Some(blocks))))) == Success("")
  {
    JoinAllSpace(TextParts(blocks), "\n");
  }

  /** The reply never starts or ends with whitespace. */
  lemma ReplyIsTrimmed(response: ConverseResponse)
    requires ExtractReply(response).Success?
    ensures Trim(ExtractReply(response).value) == ExtractReply(response).value
  {
    TrimIdempotent(Join(TextParts(response.message.value.content.value), "\n"));
  }

  /** Blocks "Hello", "" and "there" give "Hello\nthere". */
  lemma HelloThereExample()
    ensures ExtractReply(ConverseResponse(Some(OutputMessage(Some(
      [ContentBlock(Some("Hello")), ContentBlock(Some("")), ContentBlock(Some("there"))])))))
      == Success("Hello\nthere")
  {
    var blocks := [ContentBlock(Some("Hello")), ContentBlock(Some("")), ContentBlock(Some("there"))];
    assert TextParts(blocks) == ["Hello", "there"] by {
      assert blocks == [blocks[0]] + [blocks[1]] + [blocks[2]];
      TextPartsAppend([blocks[0]] + [blocks[1]], [blocks[2]]);
      TextPartsAppend([blocks[0]], [blocks[1]]);
      TextPartsOfBlock(blocks[0]);
      TextPartsOfBlock(blocks[1]);
      TextPartsOfBlock(blocks[2]);
    }
    var joined := "Hello\nthere";
    assert Join(["Hello", "there"], "\n") == joined;
    TrimIsCore(joined, 0, |joined|);
    assert joined[0..|joined|] == joined;
  }

  /** What the `try` block of `sendTextMessageToNova` yields once the request
      is built: the reply of a well-formed answer, otherwise one error whose message is the
      fixed prefix followed by the original message, the malformed-answer
      error included (it is thrown inside the `try`). */
  function CallOutcome(provider: SendResult): (r: Result<string, string>)
    ensures r.Failure? <==> provider.Rejected? || ExtractReply(provider.response).Failure?
    ensures r.Failure? ==> CallFailedPrefix <= r.error
    ensures provider.Rejected? ==> r.error == CallFailedPrefix + provider.errorMessage
    ensures provider.Answered? && r.Failure? ==> r.error == CallFailedPrefix + MalformedResponse
    ensures r.Success? ==> r == ExtractReply(provider.response)
  {
    match provider
    case Rejected(e) => Failure(CallFailedPrefix + e)
    case Answered(response) =>
      match ExtractReply(response)
      case Success(text) => Success(text)
      case Failure(e) => Failure(CallFailedPrefix + e)
  }

  /** The `ConverseCommand` input for a non-blank message. One message,
      from the user, whose single block is the trimmed message; the system
      prompt, trimmed, goes in its own field and only when it is not blank;
      omitted sampling parameters take their defaults. */
  function Envelope(modelId: string, params: NovaParams): (r: ConverseRequest)
    requires !IsBlank(params.message)
    ensures r.modelId == modelId
    ensures |r.messages| == 1 && r.messages[0].role == "user"
    ensures r.messages[0].content == [TextBlock(Trim(params.message.value))]
    ensures r.system.Some? <==> !IsBlank(params.systemPrompt)
    ensures r.system.Some? ==> r.system.value == [TextBlock(Trim(params.systemPrompt.value))]
    ensures r.inferenceConfig.maxTokens == params.maxTokens.GetOr(DefaultMaxTokens)
    ensures r.inferenceConfig.temperature == params.temperature.GetOr(DefaultTemperature)
    ensures r.inferenceConfig.topP == params.topP.GetOr(DefaultTopP)
  {
    ConverseRequest(
      modelId,
      [Message("user", [TextBlock(Trim(params.message.value))])],
      InferenceConfig(
        params.maxTokens.GetOr(DefaultMaxTokens),
        params.temperature.GetOr(DefaultTemperature),
        params.topP.GetOr(DefaultTopP)),
      if IsBlank(params.systemPrompt) then None else Some([TextBlock(Trim(params.systemPrompt.value))]))
  }

  /** `sendTextMessageToNova`. `sent` lists the requests handed to the
      provider: none for a blank message (rejected before anything is built,
      and not re-wrapped), otherwise exactly the one envelope (no retry). */
  method SendTextMessageToNova(modelId: string, params: NovaParams, provider: SendResult)
    returns (sent: seq<ConverseRequest>, result: Result<string, string>)
    ensures IsBlank(params.message) ==> sent == [] && result == Failure(MessageRequired)
    ensures !IsBlank(params.message) ==> sent == [Envelope(modelId, params)] && result == CallOutcome(provider)
  {
    if params.message.None? || Trim(params.message.value) == [] {
      return [], Failure(MessageRequired);
    }
    var userText := Trim(params.message.value);
    var messages := [Message("user", [TextBlock(userText)])];
    var commandInput := ConverseRequest(
      modelId,
      messages,
      InferenceConfig(
        params.maxTokens.GetOr(DefaultMaxTokens),
        params.temperature.GetOr(DefaultTemperature),
        params.topP.GetOr(DefaultTopP)),
      None);
    if params.systemPrompt.Some? && Trim(params.systemPrompt.value) != [] {
      commandInput := commandInput.(system := Some([TextBlock(Trim(params.systemPrompt.value))]));
    }
    sent := [commandInput];
    result := CallOutcome(provider);
  }
}
