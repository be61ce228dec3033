/**
 * The two LLM-backed endpoints of `OpenAIController`: generate-skills and
 * generate-resources. The chat-completion call, the JSON reader and the
 * messages of the JVM's own exceptions are collaborators passed in; each
 * handler reports the prompts it sent and the strings it handed to the
 * JSON reader, so the contracts can speak about both.
 */
module OpenAi {
  import opened Wrappers
  import opened JavaText
  import opened Fences
  import opened Records
  import opened Http

  /** The provider envelope, `{choices: [{message: {content}}]}`; absent entries are `None`. */
  datatype Message = Message(content: Option<string>)
  datatype Choice = Choice(message: Option<Message>)
  datatype Envelope = Envelope(choices: Option<seq<Choice>>)

  /**
   * Exceptions the JVM raises by itself inside the try blocks, one per
   * dereferencing expression: the JVM's message names the expression, so
   * the same expression in both handlers gives the same message.
   */
  datatype Fault =
    | NullChoices       // `choices.get(0)` with `choices` null
    | IndexOutOfBounds  // `choices.get(0)` on an empty list
    | NullMessage       // `message.get("content")` with `message` null
    | NullContent       // `content.replaceAll(…)` with `content` null
    | NullArgument      // the JSON reader handed a null string

  /**
   * The world outside the controller. A `Failure` carries the message of the
   * exception thrown: `complete` stands for `callOpenAiApi`, the readers for
   * Jackson's `readValue`.
   */
  datatype Collaborators = Collaborators(
    complete: string -> Result<string, string>,
    readEnvelope: string -> Result<Envelope, string>,
    readSkills: string -> Result<seq<Skill>, string>,
    readResources: string -> Result<seq<Resource>, string>,
    faultMessage: Fault -> string)

  /** The response, the prompts sent to the model, and the strings handed to the content reader. */
  datatype Handled = Handled(response: Response, prompts: seq<string>, parsed: seq<string>)

  const TopicRequired: string := "Topic cannot be empty."
  const SkillNameRequired: string := "Skill name cannot be empty."
  const NoChoices: string := "No choices found in OpenAI API response."

  const SkillsPromptHead: string := "Generate a concise list of essential skills needed to learn "
  const SkillsPromptTail: string :=
    ". Format the response as a JSON array with 'name' and 'description' fields. Keep it focused and practical."
  const ResourcesPromptHead: string := "Suggest 3 high-quality learning resources for "
  const ResourcesPromptTail: string :=
    ". Include only legitimate, well-known platforms. Format as a JSON array of objects with 'title', 'url', and 'type' fields."

  const SkillsFailureHead: string := "Failed to fetch skills from OpenAI API. Error: "
  const ResourcesFailureHead: string := "Failed to fetch resources for skill: "
  const ResourcesFailureMiddle: string := ". Error: "

  /** Java's `s == null || s.isEmpty()`. */
  predicate NullOrEmpty(s: Option<string>) {
    s.None? || |s.value| == 0
  }

  function SkillsPrompt(topic: string): string {
    SkillsPromptHead + topic + SkillsPromptTail
  }

  function ResourcesPrompt(skillName: string): string {
    ResourcesPromptHead + skillName + ResourcesPromptTail
  }

  function SkillsFailure(error: string): string {
    SkillsFailureHead + error
  }

  function ResourcesFailure(skillName: string, error: string): string {
    ResourcesFailureHead + skillName + ResourcesFailureMiddle + error
  }

  /** The first choice's message content, when every link of the chain is present. */
  function FirstContent(env: Envelope): Option<string> {
    match env.choices
    case None => None
    case Some(cs) =>
      if |cs| == 0 || cs[0].message.None? then None else cs[0].message.value.content
  }

  /** The first choice's `message` entry (`Some(None)`: the entry is null), when there is a first choice. */
  function FirstMessage(env: Envelope): Option<Option<Message>> {
    if env.choices.Some? && |env.choices.value| > 0 then Some(env.choices.value[0].message) else None
  }

  /** The first choice has a `message` whose `content` entry is null. */
  predicate NullContentIn(env: Envelope) {
    FirstMessage(env).Some? && FirstMessage(env).value.Some? && FirstMessage(env).value.value.content.None?
  }

  /**
   * A null `message` is dereferenced by the same expression in both
   * handlers, so both fail with the same message; a null `content` fails
   * at different sites (`replaceAll` against the JSON reader).
   */
  lemma NullDereferenceSites(env: Envelope, faultMessage: Fault -> string)
    requires forall f, g :: f != g ==> faultMessage(f) != faultMessage(g)
    ensures FirstMessage(env) == Some(None) ==> SkillsContent(env, faultMessage) == ResourcesContent(env, faultMessage)
    ensures NullContentIn(env) ==> SkillsContent(env, faultMessage) != ResourcesContent(env, faultMessage)
    ensures env.choices.None? ==> SkillsContent(env, faultMessage) != SkillsContent(Envelope(Some([Choice(None)])), faultMessage)
  {
  }

  /**
   * generate-skills reads `choices.get(0).get("message").get("content")`
   * with no guard: a missing link is a JVM exception.
   */
  function SkillsContent(env: Envelope, faultMessage: Fault -> string): (c: Result<string, string>)
    ensures c.Success? <==> FirstContent(env).Some?
    ensures c.Success? ==> c.value == FirstContent(env).value
    ensures env.choices.None? ==> c == Failure(faultMessage(NullChoices))
    ensures env.choices.Some? && |env.choices.value| == 0 ==> c == Failure(faultMessage(IndexOutOfBounds))
    ensures FirstMessage(env) == Some(None) ==> c == Failure(faultMessage(NullMessage))
    ensures NullContentIn(env) ==> c == Failure(faultMessage(NullContent))
  {
    match env.choices
    case None => Failure(faultMessage(NullChoices))
    case Some(cs) =>
      if |cs| == 0 then Failure(faultMessage(IndexOutOfBounds))
      else match cs[0].message
        case None => Failure(faultMessage(NullMessage))
        case Some(m) =>
          match m.content
          case None => Failure(faultMessage(NullContent))
          case Some(text) => Success(text)
  }

  /**
   * generate-resources first rejects a null or empty `choices` with its own
   * message; the rest of the chain is as unguarded as in generate-skills.
   */
  function ResourcesContent(env: Envelope, faultMessage: Fault -> string): (c: Result<string, string>)
    ensures c.Success? <==> FirstContent(env).Some?
    ensures c.Success? ==> c.value == FirstContent(env).value
    ensures env.choices.None? || |env.choices.value| == 0 ==> c == Failure(NoChoices)
    ensures FirstMessage(env) == Some(None) ==> c == Failure(faultMessage(NullMessage))
    ensures NullContentIn(env) ==> c == Failure(faultMessage(NullArgument))
  {
    match env.choices
    case None => Failure(NoChoices)
    case Some(cs) =>
      if |cs| == 0 then Failure(NoChoices)
      else match cs[0].message
        case None => Failure(faultMessage(NullMessage))
        case Some(m) =>
          match m.content
          case None => Failure(faultMessage(NullArgument))
          case Some(text) => Success(text)
  }

  /** POST /api/v1/openai/generate-skills with body `{topic}`. */
  function GenerateSkills(topic: Option<string>, io: Collaborators): (h: Handled)
    ensures h.response.status == BadRequest <==> NullOrEmpty(topic)
    ensures NullOrEmpty(topic) ==> h == Handled(Response(BadRequest, Text(TopicRequired)), [], [])
    ensures !NullOrEmpty(topic) ==> h.prompts == [SkillsPrompt(topic.value)]
    ensures h.response.status in {OK, BadRequest, InternalServerError}
    ensures h.response.status == OK ==>
      && h.response.body.SkillList?
      && |h.parsed| == 1
      && io.readSkills(h.parsed[0]) == Success(h.response.body.skills)
    ensures h.response.status == InternalServerError ==>
      h.response.body.Text? && SkillsFailureHead <= h.response.body.text
    ensures |h.parsed| <= 1
    ensures forall j :: j in h.parsed ==> !Contains(j, Fence) && Trimmed(j)
  {
    if NullOrEmpty(topic) then
      Handled(Response(BadRequest, Text(TopicRequired)), [], [])
    else
      var prompt := SkillsPrompt(topic.value);
      match io.complete(prompt)
      case Failure(e) => Handled(Response(InternalServerError, Text(SkillsFailure(e))), [prompt], [])
      case Success(reply) =>
        match io.readEnvelope(reply)
        case Failure(e) => Handled(Response(InternalServerError, Text(SkillsFailure(e))), [prompt], [])
        case Success(env) =>
          match SkillsContent(env, io.faultMessage)
          case Failure(e) => Handled(Response(InternalServerError, Text(SkillsFailure(e))), [prompt], [])
          case Success(content) =>
            var json := StripFences(content);
            match io.readSkills(json)
            case Failure(e) => Handled(Response(InternalServerError, Text(SkillsFailure(e))), [prompt], [json])
            case Success(skills) => Handled(Response(OK, SkillList(skills)), [prompt], [json])
  }

  /** POST /api/v1/openai/generate-resources with body `{skillName}`. */
  function GenerateResources(skillName: Option<string>, io: Collaborators): (h: Handled)
    ensures h.response.status == BadRequest <==> NullOrEmpty(skillName)
    ensures NullOrEmpty(skillName) ==> h == Handled(Response(BadRequest, Text(SkillNameRequired)), [], [])
    ensures !NullOrEmpty(skillName) ==> h.prompts == [ResourcesPrompt(skillName.value)]
    ensures h.response.status in {OK, BadRequest, InternalServerError}
    ensures h.response.status == OK ==>
      && h.response.body.ResourceList?
      && |h.parsed| == 1
      && io.readResources(h.parsed[0]) == Success(h.response.body.resources)
    ensures h.response.status == InternalServerError ==>
      h.response.body.Text? && ResourcesFailureHead + skillName.value + ResourcesFailureMiddle <= h.response.body.text
    ensures |h.parsed| <= 1
  {
    if NullOrEmpty(skillName) then
      Handled(Response(BadRequest, Text(SkillNameRequired)), [], [])
    else
      var name := skillName.value;
      var prompt := ResourcesPrompt(name);
      match io.complete(prompt)
      case Failure(e) => Handled(Response(InternalServerError, Text(ResourcesFailure(name, e))), [prompt], [])
      case Success(reply) =>
        match io.readEnvelope(reply)
        case Failure(e) => Handled(Response(InternalServerError, Text(ResourcesFailure(name, e))), [prompt], [])
        case Success(env) =>
          match ResourcesContent(env, io.faultMessage)
          case Failure(e) => Handled(Response(InternalServerError, Text(ResourcesFailure(name, e))), [prompt], [])
          case Success(content) =>
            match io.readResources(content)
            case Failure(e) => Handled(Response(InternalServerError, Text(ResourcesFailure(name, e))), [prompt], [content])
            case Success(resources) => Handled(Response(OK, ResourceList(resources)), [prompt], [content])
  }

  /** The prompt carries the user's text verbatim between its fixed head and tail, so it determines that text. */
  lemma PromptsDetermineInput(a: string, b: string)
    ensures SkillsPrompt(a)[|SkillsPromptHead| .. |SkillsPrompt(a)| - |SkillsPromptTail|] == a
    ensures ResourcesPrompt(a)[|ResourcesPromptHead| .. |ResourcesPrompt(a)| - |ResourcesPromptTail|] == a
    ensures SkillsPrompt(a) == SkillsPrompt(b) <==> a == b
    ensures ResourcesPrompt(a) == ResourcesPrompt(b) <==> a == b
  {
  }

  /** A 500 body names the exception's message after a fixed head, so the message can be read back. */
  lemma FailureBodiesDetermineCause(skillName: string, e: string, e': string)
    ensures SkillsFailure(e)[|SkillsFailureHead|..] == e
    ensures ResourcesFailure(skillName, e)[|ResourcesFailureHead + skillName + ResourcesFailureMiddle|..] == e
    ensures SkillsFailure(e) == SkillsFailure(e') <==> e == e'
    ensures ResourcesFailure(skillName, e) == ResourcesFailure(skillName, e') <==> e == e'
  {
  }

  /** Every exception inside generate-skills' try block becomes a 500 whose body is the fixed head plus its message. */
  lemma SkillsFailuresMapTo500(topic: string, io: Collaborators)
    requires |topic| > 0
    ensures var h := GenerateSkills(Some(topic), io);
            var call := io.complete(SkillsPrompt(topic));
            && (call.Failure? ==>
                  h.response == Response(InternalServerError, Text(SkillsFailure(call.error))))
            && (call.Success? && io.readEnvelope(call.value).Failure? ==>
                  h.response == Response(InternalServerError, Text(SkillsFailure(io.readEnvelope(call.value).error))))
            && (call.Success? && io.readEnvelope(call.value).Success?
                && SkillsContent(io.readEnvelope(call.value).value, io.faultMessage).Failure? ==>
                  h.response == Response(InternalServerError,
                    Text(SkillsFailure(SkillsContent(io.readEnvelope(call.value).value, io.faultMessage).error))))
  {
  }

  /** Every exception inside generate-resources' try block becomes a 500 naming the skill and the message. */
  lemma ResourcesFailuresMapTo500(skillName: string, io: Collaborators)
    requires |skillName| > 0
    ensures var h := GenerateResources(Some(skillName), io);
            var call := io.complete(ResourcesPrompt(skillName));
            && (call.Failure? ==>
                  h.response == Response(InternalServerError, Text(ResourcesFailure(skillName, call.error))))
            && (call.Success? && io.readEnvelope(call.value).Failure? ==>
                  h.response == Response(InternalServerError,
                    Text(ResourcesFailure(skillName, io.readEnvelope(call.value).error))))
            && (call.Success? && io.readEnvelope(call.value).Success?
                && ResourcesContent(io.readEnvelope(call.value).value, io.faultMessage).Failure? ==>
                  h.response == Response(InternalServerError,
                    Text(ResourcesFailure(skillName, ResourcesContent(io.readEnvelope(call.value).value, io.faultMessage).error))))
  {
  }

  /** The provider answered and its envelope's first choice carries content `c`. */
  predicate Delivers(io: Collaborators, prompt: string, c: string) {
    && io.complete(prompt).Success?
    && io.readEnvelope(io.complete(prompt).value).Success?
    && FirstContent(io.readEnvelope(io.complete(prompt).value).value) == Some(c)
  }

  /** An envelope with a null or empty `choices`. */
  predicate NoChoiceIn(io: Collaborators, prompt: string) {
    && io.complete(prompt).Success?
    && io.readEnvelope(io.complete(prompt).value).Success?
    && var choices := io.readEnvelope(io.complete(prompt).value).value.choices;
       choices.None? || |choices.value| == 0
  }

  /**
   * Only generate-resources guards against a missing or empty `choices`: it
   * answers with its own message, while generate-skills passes on the JVM's
   * null-dereference or index message.
   */
  lemma NoChoicesGuard(topic: string, skillName: string, io: Collaborators)
    requires |topic| > 0 && |skillName| > 0
    requires NoChoiceIn(io, SkillsPrompt(topic)) && NoChoiceIn(io, ResourcesPrompt(skillName))
    ensures GenerateResources(Some(skillName), io)
            == Handled(Response(InternalServerError, Text(ResourcesFailure(skillName, NoChoices))),
                       [ResourcesPrompt(skillName)], [])
    ensures GenerateSkills(Some(topic), io).response.body.text
            in {SkillsFailure(io.faultMessage(NullChoices)), SkillsFailure(io.faultMessage(IndexOutOfBounds))}
  {
  }

  /** generate-skills hands the reader the stripped content and answers with what the reader returns. */
  lemma SkillsReadStrippedContent(topic: string, io: Collaborators, c: string)
    requires |topic| > 0 && Delivers(io, SkillsPrompt(topic), c)
    ensures var h := GenerateSkills(Some(topic), io);
            && h.parsed == [StripFences(c)]
            && (io.readSkills(StripFences(c)).Success? ==>
                  h.response == Response(OK, SkillList(io.readSkills(StripFences(c)).value)))
            && (io.readSkills(StripFences(c)).Failure? ==>
                  h.response == Response(InternalServerError, Text(SkillsFailure(io.readSkills(StripFences(c)).error))))
  {
  }

  /** generate-resources hands the reader the content exactly as the model wrote it. */
  lemma ResourcesReadRawContent(skillName: string, io: Collaborators, c: string)
    requires |skillName| > 0 && Delivers(io, ResourcesPrompt(skillName), c)
    ensures var h := GenerateResources(Some(skillName), io);
            && h.parsed == [c]
            && (io.readResources(c).Success? ==>
                  h.response == Response(OK, ResourceList(io.readResources(c).value)))
            && (io.readResources(c).Failure? ==>
                  h.response == Response(InternalServerError, Text(ResourcesFailure(skillName, io.readResources(c).error))))
  {
  }

  /**
   * The same fenced reply reaches the two readers differently: generate-skills
   * reads the bare array, generate-resources reads the fences too.
   */
  lemma FencedReplyAsymmetry(topic: string, skillName: string, io: Collaborators)
    requires |topic| > 0 && |skillName| > 0
    requires Delivers(io, SkillsPrompt(topic), JsonFence + "\n[]\n" + Fence)
    requires Delivers(io, ResourcesPrompt(skillName), JsonFence + "\n[]\n" + Fence)
    ensures GenerateSkills(Some(topic), io).parsed == ["[]"]
    ensures GenerateResources(Some(skillName), io).parsed == [JsonFence + "\n[]\n" + Fence]
    ensures Contains(GenerateResources(Some(skillName), io).parsed[0], Fence)
  {
    StripFencedEmptyArray();
  }
}
