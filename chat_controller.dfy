/** The `POST /api/chat` handler (backend/controllers/chatController.js,
    `exports.sendMessage`) as a sequence of effects.

    The collaborators are parameters: `encrypt` is the encryption utility
    (its `Failure` is a thrown error), `userSave` the outcome of the awaited
    `userMessage.save()`, `provider` the outcome of the Bedrock call. The
    background `botMessage.save()` is only started: the handler never looks at
    its outcome, so the model has no parameter for it. */
module ChatController {
  import opened Wrappers
  import opened Strings
  import BedrockClient

  const MessageRequired := "Message is required"
  const ServerError := "Server error"

  const PersonaSentences: seq<string> := [
    "You are Mitra, a supportive mental health companion for young people in India.",
    "Respond in a warm, non-judgmental, and concise way.",
    "You are not a doctor or emergency service and you must not give medical, legal, or financial advice.",
    "Encourage users to seek help from qualified professionals, trusted adults, or local helplines (e.g., Tele-MANAS: 14416) when there is any risk of harm."
  ]

  /** The four persona sentences joined by single spaces. */
  const SystemPrompt := Join(PersonaSentences, " ")

  /** The environment: `BEDROCK_MODEL_ID` and `NODE_ENV`. `modelId` is the
      id the adapter was configured with, `bedrockConfig.modelId`. */
  datatype ServerConfig = ServerConfig(bedrockModelId: Option<string>, nodeEnv: Option<string>) {
    const modelId := BedrockClient.ModelId(bedrockModelId)
  }

  /** A `Chat` document: owner, encrypted text, and who wrote it. */
  datatype ChatRecord = ChatRecord(userId: string, message: string, isUser: bool)

  datatype SaveOutcome = Saved | SaveFailed(errorMessage: string)

  /** The JSON bodies the handler sends. */
  datatype ResponseBody =
    | MsgBody(msg: string)
    | ReplyBody(reply: string, model: string)
    | ErrorBody(error: string, details: string)

  /** One observable step of the handler, in the order it happens. */
  datatype Effect =
    | SaveAwaited(record: ChatRecord)
    | InvokeModel(message: string)
    | Respond(status: int, body: ResponseBody)
    | SaveInBackground(record: ChatRecord)

  /** The arguments given to `sendTextMessageToNova`: the message exactly as
      received, the persona prompt and the fixed sampling parameters. */
  function ModelParams(message: string): BedrockClient.NovaParams {
    BedrockClient.NovaParams(Some(message), Some(SystemPrompt), Some(512), Some(0.7), Some(0.9))
  }

  /** The body the `catch` block sends with status 500. `details` always
      carries the error message; `error` carries it only in development and
      only when it is non-empty. */
  function ErrorBodyFor(config: ServerConfig, errorMessage: string): (b: ResponseBody)
    ensures b.ErrorBody? && b.details == errorMessage && b.error != []
    ensures b.error == errorMessage || b.error == ServerError
    ensures config.nodeEnv != Some("development") ==> b.error == ServerError
    ensures config.nodeEnv == Some("development") && errorMessage != [] ==> b.error == errorMessage
  {
    var error := if config.nodeEnv == Some("development") && errorMessage != [] then errorMessage else ServerError;
    ErrorBody(error, errorMessage)
  }

  predicate ModelCalled(effects: seq<Effect>) {
    exists k :: 0 <= k < |effects| && effects[k].InvokeModel?
  }

  /** The model is only ever invoked right after the awaited save of the
      user's own record: owned by `userId`, marked as written by the user,
      and holding the encryption of the very message given to the model. */
  predicate ModelAfterUserSave(effects: seq<Effect>, userId: string, encrypt: string -> Result<string, string>) {
    forall k :: 0 <= k < |effects| && effects[k].InvokeModel? ==>
      && k > 0 && encrypt(effects[k].message).Success?
      && effects[k - 1] == SaveAwaited(ChatRecord(userId, encrypt(effects[k].message).value, true))
  }

  /** The bot's record is only ever saved after the success response was sent. */
  predicate BackgroundSaveAfterReply(effects: seq<Effect>) {
    forall k :: 0 <= k < |effects| && effects[k].SaveInBackground? ==>
      k > 0 && effects[k - 1].Respond? && effects[k - 1].status == 200
  }

  /** The status the client receives: that of the first answer. When the
      handler tries to answer twice (a failure of the bot-record encryption
      after the 200 was sent), the framework refuses the second answer. 0
      stands for no answer at all. */
  function ClientStatus(effects: seq<Effect>): int {
    if effects == [] then 0
    else if effects[0].Respond? then effects[0].status
    else ClientStatus(effects[1..])
  }

  lemma SystemPromptEnds()
    ensures SystemPrompt != [] && SystemPrompt[|SystemPrompt| - 1] == '.'
  {
    var p := PersonaSentences;
    var tail3 := Join(p[3..], " ");
    var tail2 := Join(p[2..], " ");
    var tail1 := Join(p[1..], " ");
    assert p[3][|p[3]| - 1] == '.';
    assert tail3 == p[3];
    assert tail2 == p[2] + " " + tail3;
    assert tail1 == p[1] + " " + tail2;
    assert SystemPrompt == p[0] + " " + tail1;
  }

  /** The persona prompt is not blank, so the adapter always sends it in the
      `system` field. */
  lemma SystemPromptIsNotBlank()
    ensures !AllSpace(SystemPrompt)
  {
    SystemPromptEnds();
    assert !IsSpace(SystemPrompt[|SystemPrompt| - 1]);
  }

  /** What the handler does, in order, given what its collaborators do:
      `encrypt`, the awaited save of the user's record, and `model`, what
      `sendTextMessageToNova` yields (a reply, or the message it throws). */
  function Effects(
    config: ServerConfig, userId: string, message: Option<string>,
    encrypt: string -> Result<string, string>,
    userSave: SaveOutcome, model: Result<string, string>): seq<Effect>
  {
    if IsBlank(message) then [Respond(400, MsgBody(MessageRequired))]
    else match encrypt(message.value)
      case Failure(e) => [Respond(500, ErrorBodyFor(config, e))]
      case Success(userCipher) =>
        var saveUser := SaveAwaited(ChatRecord(userId, userCipher, true));
        match userSave
        case SaveFailed(e) => [saveUser, Respond(500, ErrorBodyFor(config, e))]
        case Saved =>
          var invoke := InvokeModel(message.value);
          match model
          case Failure(e) => [saveUser, invoke, Respond(500, ErrorBodyFor(config, e))]
          case Success(reply) =>
            var respond := Respond(200, ReplyBody(reply, config.modelId));
            match encrypt(reply)
            case Failure(e) => [saveUser, invoke, respond, Respond(500, ErrorBodyFor(config, e))]
            case Success(botCipher) => [saveUser, invoke, respond, SaveInBackground(ChatRecord(userId, botCipher, false))]
  }

  /** Whether the handler gets as far as calling the model. */
  predicate ReachesModel(message: Option<string>, encrypt: string -> Result<string, string>, userSave: SaveOutcome) {
    !IsBlank(message) && encrypt(message.value).Success? && userSave.Saved?
  }

  /** The requests that reach Bedrock: the one envelope of the message, once
      the user's record is saved. */
  function Requests(
    config: ServerConfig, message: Option<string>,
    encrypt: string -> Result<string, string>, userSave: SaveOutcome): seq<BedrockClient.ConverseRequest>
  {
    if ReachesModel(message, encrypt, userSave) then
      [BedrockClient.Envelope(config.modelId, ModelParams(message.value))]
    else
      []
  }

  /** `exports.sendMessage`, with `provider` the outcome of the Bedrock call.
      `effects` is what the handler does, in order; `requests` is what
      reached Bedrock. */
  method SendMessage(
    config: ServerConfig, userId: string, message: Option<string>,
    encrypt: string -> Result<string, string>,
    userSave: SaveOutcome, provider: BedrockClient.SendResult)
    returns (effects: seq<Effect>, requests: seq<BedrockClient.ConverseRequest>)
    ensures effects == Effects(config, userId, message, encrypt, userSave, BedrockClient.CallOutcome(provider))
    ensures requests == Requests(config, message, encrypt, userSave)
  {
    requests := [];
    if message.None? || Trim(message.value) == [] {
      effects := [Respond(400, MsgBody(MessageRequired))];
      return;
    }
    var text := message.value;
    var userCipher := encrypt(text);
    if userCipher.Failure? {
      effects := [Respond(500, ErrorBodyFor(config, userCipher.error))];
      return;
    }
    var saveUser := SaveAwaited(ChatRecord(userId, userCipher.value, true));
    if userSave.SaveFailed? {
      effects := [saveUser, Respond(500, ErrorBodyFor(config, userSave.errorMessage))];
      return;
    }

    var params := ModelParams(text);
    var invoke := InvokeModel(text);
    var botResponse;
    requests, botResponse := BedrockClient.SendTextMessageToNova(config.modelId, params, provider);
    if botResponse.Failure? {
      effects := [saveUser, invoke, Respond(500, ErrorBodyFor(config, botResponse.error))];
      return;
    }

    var respond := Respond(200, ReplyBody(botResponse.value, config.modelId));
    var botCipher := encrypt(botResponse.value);
    if botCipher.Failure? {
      effects := [saveUser, invoke, respond, Respond(500, ErrorBodyFor(config, botCipher.error))];
    } else {
      effects := [saveUser, invoke, respond, SaveInBackground(ChatRecord(userId, botCipher.value, false))];
    }
  }

  /** The client's status is that of the first answer in the trace. */
  lemma {:induction false} ClientStatusAt(effects: seq<Effect>, k: nat)
    requires k < |effects| && effects[k].Respond?
    requires forall i :: 0 <= i < k ==> !effects[i].Respond?
    ensures ClientStatus(effects) == effects[k].status
  {
    if k > 0 {
      ClientStatusAt(effects[1..], k - 1);
    }
  }

  /** Every request is answered, and the status tells the three outcomes
      apart: 400 exactly for a blank message, 200 exactly when the model
      produced a reply after the user's record was saved, 500 otherwise. */
  lemma ClientStatusCases(
    config: ServerConfig, userId: string, message: Option<string>,
    encrypt: string -> Result<string, string>,
    userSave: SaveOutcome, model: Result<string, string>)
    ensures var status := ClientStatus(Effects(config, userId, message, encrypt, userSave, model));
      && (status == 400 <==> IsBlank(message))
      && (status == 200 <==> ReachesModel(message, encrypt, userSave) && model.Success?)
      && (status == 400 || status == 200 || status == 500)
  {
    var effects := Effects(config, userId, message, encrypt, userSave, model);
    if IsBlank(message) || encrypt(message.value).Failure? {
      ClientStatusAt(effects, 0);
    } else if userSave.SaveFailed? {
      ClientStatusAt(effects, 1);
    } else {
      ClientStatusAt(effects, 2);
    }
  }

  /** The model is invoked only right after the user's encrypted record was
      saved and awaited. */
  lemma ModelOnlyAfterUserSave(
    config: ServerConfig, userId: string, message: Option<string>,
    encrypt: string -> Result<string, string>,
    userSave: SaveOutcome, model: Result<string, string>)
    ensures ModelAfterUserSave(Effects(config, userId, message, encrypt, userSave, model), userId, encrypt)
  {
    var effects := Effects(config, userId, message, encrypt, userSave, model);
    forall k | 0 <= k < |effects| && effects[k].InvokeModel?
      ensures && k > 0 && encrypt(effects[k].message).Success?
              && effects[k - 1] == SaveAwaited(ChatRecord(userId, encrypt(effects[k].message).value, true))
    {
      assert ReachesModel(message, encrypt, userSave);
      assert k == 1;
    }
  }

  /** Bedrock receives one request exactly when the model is invoked, and
      never more than one. */
  lemma OneRequestPerModelCall(
    config: ServerConfig, userId: string, message: Option<string>,
    encrypt: string -> Result<string, string>,
    userSave: SaveOutcome, model: Result<string, string>)
    ensures |Requests(config, message, encrypt, userSave)| <= 1
    ensures Requests(config, message, encrypt, userSave) != []
      <==> ModelCalled(Effects(config, userId, message, encrypt, userSave, model))
  {
    var effects := Effects(config, userId, message, encrypt, userSave, model);
    if IsBlank(message) || encrypt(message.value).Failure? {
      assert !effects[0].InvokeModel?;
    } else if userSave.SaveFailed? {
      assert !effects[0].InvokeModel? && !effects[1].InvokeModel?;
    } else {
      assert effects[1].InvokeModel?;
    }
  }

  /** The bot's record is saved only after the 200 was sent. */
  lemma BotSavedAfterReply(
    config: ServerConfig, userId: string, message: Option<string>,
    encrypt: string -> Result<string, string>,
    userSave: SaveOutcome, model: Result<string, string>)
    ensures BackgroundSaveAfterReply(Effects(config, userId, message, encrypt, userSave, model))
  {
    var effects := Effects(config, userId, message, encrypt, userSave, model);
    forall k | 0 <= k < |effects| && effects[k].SaveInBackground?
      ensures k > 0 && effects[k - 1].Respond? && effects[k - 1].status == 200
    {
      assert ReachesModel(message, encrypt, userSave) && model.Success?;
      assert k == 3;
    }
  }

  /** A blank message is refused with a 400 and nothing else: no record is
      written and nothing reaches Bedrock. */
  lemma BlankMessageRefused(
    config: ServerConfig, userId: string, message: Option<string>,
    encrypt: string -> Result<string, string>,
    userSave: SaveOutcome, model: Result<string, string>)
    requires IsBlank(message)
    ensures Effects(config, userId, message, encrypt, userSave, model) == [Respond(400, MsgBody(MessageRequired))]
    ensures Requests(config, message, encrypt, userSave) == []
  {
  }

  /** For a message that is not blank, the first thing the handler does
      (when encryption succeeds) is save the user's own record, holding the
      encrypted message, and wait for that save. */
  lemma UserRecordSavedFirst(
    config: ServerConfig, userId: string, message: Option<string>,
    encrypt: string -> Result<string, string>,
    userSave: SaveOutcome, model: Result<string, string>)
    requires !IsBlank(message) && encrypt(message.value).Success?
    ensures Effects(config, userId, message, encrypt, userSave, model)[0]
      == SaveAwaited(ChatRecord(userId, encrypt(message.value).value, true))
  {
  }

  /** A failed user save stops the handler: nothing reaches Bedrock and the
      answer is a 500 whose `details` is the save error. */
  lemma FailedSaveStops(
    config: ServerConfig, userId: string, message: Option<string>,
    encrypt: string -> Result<string, string>,
    userSave: SaveOutcome, model: Result<string, string>)
    requires !IsBlank(message) && encrypt(message.value).Success? && userSave.SaveFailed?
    ensures !ModelCalled(Effects(config, userId, message, encrypt, userSave, model))
    ensures Requests(config, message, encrypt, userSave) == []
    ensures Effects(config, userId, message, encrypt, userSave, model)
      == [SaveAwaited(ChatRecord(userId, encrypt(message.value).value, true)),
          Respond(500, ErrorBodyFor(config, userSave.errorMessage))]
  {
  }

  /** The model is given the message exactly as received; the adapter trims
      it. */
  lemma ModelGetsMessageAsReceived(
    config: ServerConfig, userId: string, message: Option<string>,
    encrypt: string -> Result<string, string>,
    userSave: SaveOutcome, model: Result<string, string>)
    requires ReachesModel(message, encrypt, userSave)
    ensures Effects(config, userId, message, encrypt, userSave, model)[1] == InvokeModel(message.value)
  {
  }

  /** The one request carries the trimmed message as the single user
      message, the trimmed persona prompt in its system field and the fixed
      sampling parameters. */
  lemma ModelRequest(config: ServerConfig, message: Option<string>,
                     encrypt: string -> Result<string, string>, userSave: SaveOutcome)
    requires ReachesModel(message, encrypt, userSave)
    ensures var r := Requests(config, message, encrypt, userSave)[0];
      && r.modelId == config.modelId && r.modelId != []
      && r.messages == [BedrockClient.Message("user", [BedrockClient.TextBlock(Trim(message.value))])]
      && r.system == Some([BedrockClient.TextBlock(Trim(SystemPrompt))])
      && r.inferenceConfig == BedrockClient.InferenceConfig(512, 0.7, 0.9)
  {
    SystemPromptIsNotBlank();
  }

  /** When the model answers, the client gets its reply with the configured
      model id, and then the bot's encrypted reply is saved in the
      background or, when that encryption fails, a second answer is tried. */
  lemma SuccessfulReply(
    config: ServerConfig, userId: string, message: Option<string>,
    encrypt: string -> Result<string, string>,
    userSave: SaveOutcome, model: Result<string, string>)
    requires ReachesModel(message, encrypt, userSave) && model.Success?
    ensures var effects := Effects(config, userId, message, encrypt, userSave, model);
      && |effects| == 4
      && effects[2] == Respond(200, ReplyBody(model.value, config.modelId))
      && effects[3] == match encrypt(model.value)
                       case Success(cipher) => SaveInBackground(ChatRecord(userId, cipher, false))
                       case Failure(e) => Respond(500, ErrorBodyFor(config, e))
  {
  }
}
