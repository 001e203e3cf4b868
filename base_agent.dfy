/**
 * The agent base shared by the writer and the reviewer: the system prompt,
 * the conversation it keeps and resets, and the helper that pulls a JSON
 * object out of a model reply. The language-model client, the
 * configuration files and the JSON parser are not part of this model: the
 * model name comes from an environment map, the system-prompt hook's text
 * and the parser are parameters.
 */
module BaseAgent {
  import opened Wrappers
  import opened Values
  import PyStr
  import JsonReply

  const DefaultSystemPrompt: string := "You are a helpful assistant."

  /** build_system_prompt() or the default: the hook's text unless it is empty. */
  function SystemPrompt(hook: string): (r: string)
    ensures r != []
    ensures hook != [] ==> r == hook
    ensures hook == [] ==> r == DefaultSystemPrompt
  {
    if hook != [] then hook else DefaultSystemPrompt
  }

  /** env_config.get(model_env_key, default_model). */
  function ModelName(env: map<string, string>, modelEnvKey: string, defaultModel: string): (r: string)
    ensures modelEnvKey in env ==> r == env[modelEnvKey]
    ensures modelEnvKey !in env ==> r == defaultModel
  {
    if modelEnvKey in env then env[modelEnvKey] else defaultModel
  }

  type Message = map<string, Value>

  /** {"role": role, "content": content} updated with the extras that are not None. */
  function MessageOf(role: string, content: string, extra: map<string, Value>): (m: Message)
    requires "role" !in extra && "content" !in extra
    ensures m.Keys == {"role", "content"} + set k | k in extra && extra[k] != VNone
    ensures m["role"] == VStr(role) && m["content"] == VStr(content)
    ensures forall k :: k in extra && extra[k] != VNone ==> m[k] == extra[k]
  {
    map k | k in {"role", "content"} + extra.Keys && (k in extra ==> extra[k] != VNone) ::
      if k == "role" then VStr(role) else if k == "content" then VStr(content) else extra[k]
  }

  /** The message reset_conversation starts from. */
  function SystemMessage(prompt: string): (m: Message)
    ensures m.Keys == {"role", "content"} && m["role"] == VStr("system") && m["content"] == VStr(prompt)
  {
    MessageOf("system", prompt, map[])
  }

  class BaseOpenAIAgent {
    const modelName: string
    const systemPrompt: string
    var messages: seq<Message>

    /** The prompt falls back to the default text; the conversation starts from the system message. */
    constructor(env: map<string, string>, modelEnvKey: string, defaultModel: string, hook: string)
      ensures modelName == ModelName(env, modelEnvKey, defaultModel)
      ensures systemPrompt == SystemPrompt(hook)
      ensures messages == [SystemMessage(systemPrompt)]
    {
      modelName := ModelName(env, modelEnvKey, defaultModel);
      systemPrompt := SystemPrompt(hook);
      messages := [SystemMessage(SystemPrompt(hook))];
    }

    /** reset_conversation: only the system message is left. */
    method ResetConversation()
      modifies this
      ensures messages == [SystemMessage(systemPrompt)]
    {
      messages := [SystemMessage(systemPrompt)];
    }

    /** append: one message at the end, everything before it kept. */
    method Append(role: string, content: string, extra: map<string, Value>)
      requires "role" !in extra && "content" !in extra
      modifies this
      ensures messages == old(messages) + [MessageOf(role, content, extra)]
    {
      messages := messages + [MessageOf(role, content, extra)];
    }
  }

  /** The text extract_json hands to the parser. */
  function ParserInput(text: string): string
  {
    JsonReply.Clean(JsonReply.Unfence(text))
  }

  /** required_keys is None, or shares a key with the object. */
  predicate Accepts(requiredKeys: Option<set<string>>, data: map<string, Value>)
  {
    requiredKeys.None? || requiredKeys.value * data.Keys != {}
  }

  /** extract_json; a None from the parser stands for json.loads raising. */
  function ExtractJson(text: string, requiredKeys: Option<set<string>>, parse: string -> Option<Value>): Option<map<string, Value>>
  {
    if text == [] then None
    else
      match parse(ParserInput(text))
      case Some(VDict(data)) => if Accepts(requiredKeys, data) then Some(data) else None
      case _ => None
  }

  /**
   * An empty reply, a parse error, a value that is not an object and an
   * object without any required key all give None; otherwise the result is
   * the parsed object, which holds at least one of the required keys.
   */
  lemma ExtractJsonRules(text: string, requiredKeys: Option<set<string>>, parse: string -> Option<Value>)
    ensures text == [] ==> ExtractJson(text, requiredKeys, parse).None?
    ensures ExtractJson(text, requiredKeys, parse).Some? <==>
      text != [] && parse(ParserInput(text)).Some? && parse(ParserInput(text)).value.VDict? &&
      Accepts(requiredKeys, parse(ParserInput(text)).value.entries)
    ensures ExtractJson(text, requiredKeys, parse).Some? ==>
      parse(ParserInput(text)) == Some(VDict(ExtractJson(text, requiredKeys, parse).value))
    ensures ExtractJson(text, requiredKeys, parse).Some? && requiredKeys.Some? ==>
      exists k :: k in requiredKeys.value && k in ExtractJson(text, requiredKeys, parse).value
  {
    var r := ExtractJson(text, requiredKeys, parse);
    if r.Some? && requiredKeys.Some? {
      var k :| k in requiredKeys.value * r.value.Keys;
      assert k in requiredKeys.value && k in r.value;
    }
  }

  /** An empty set of required keys rejects every reply. */
  lemma EmptyRequiredKeysRejects(text: string, parse: string -> Option<Value>)
    ensures ExtractJson(text, Some({}), parse).None?
  {
  }

  /**
   * What the parser sees: a fenced reply's stripped body, cleaned; an
   * unfenced reply, cleaned; in both, white space reduced to single spaces
   * with every other character kept in order.
   */
  lemma ParserInputRules(text: string, body: string)
    ensures !PyStr.StartsWith(text, JsonReply.Fence) ==> ParserInput(text) == JsonReply.Clean(text)
    ensures body != [] ==> ParserInput(JsonReply.Fence + body + JsonReply.Close) == JsonReply.Clean(PyStr.Strip(body))
    ensures JsonReply.Collapsed(ParserInput(text))
    ensures JsonReply.Visible(ParserInput(text)) == JsonReply.Visible(JsonReply.Unfence(text))
  {
    JsonReply.UnfenceRules(text, body);
    JsonReply.CleanRules(JsonReply.Unfence(text));
  }
}
