/** The conversation agent: per-conversation history, the search decision, the
    chat-completion request and the post-processing of the reply. The phrase matcher, the
    markdown renderer, the id source, the clock and the HTTP session are parameters. */
module Conversation {
  import opened Values
  import opened Text
  import opened Const
  import opened Messages
  import opened Api

  // ---------------------------------------------------------------- configuration

  /** The option values the agent reads have the types the option forms give them. */
  predicate OptionsWellTyped(o: map<string, Json>) {
    && (CONF_TIMEOUT in o ==> o[CONF_TIMEOUT].JNum?)
    && (CONF_VERIFY_SSL in o ==> o[CONF_VERIFY_SSL].JBool?)
    && (CONF_MODEL in o ==> o[CONF_MODEL].JStr?)
    && (CONF_LANGUAGE_CODE in o ==> o[CONF_LANGUAGE_CODE].JStr?)
    && (CONF_SEARCH_ENABLED in o ==> o[CONF_SEARCH_ENABLED].JBool?)
    && (CONF_SEARCH_SENTENCES in o ==> o[CONF_SEARCH_SENTENCES].JStr?)
    && (CONF_SEARCH_RESULT_PREFIX in o ==> o[CONF_SEARCH_RESULT_PREFIX].JStr?)
    && (CONF_STRIP_MARKDOWN in o ==> o[CONF_STRIP_MARKDOWN].JBool?)
  }

  /** An entry's fixed data holds the server URL and the API key as strings. */
  predicate EntryDataValid(d: map<string, Json>) {
    && CONF_BASE_URL in d && d[CONF_BASE_URL].JStr?
    && CONF_API_KEY in d && d[CONF_API_KEY].JStr?
  }

  function StrOption(o: map<string, Json>, key: string, default: string): string
    requires key in o ==> o[key].JStr?
  {
    if key in o then o[key].s else default
  }

  function BoolOption(o: map<string, Json>, key: string, default: bool): bool
    requires key in o ==> o[key].JBool?
  {
    if key in o then o[key].b else default
  }

  function IntOption(o: map<string, Json>, key: string, default: int): int
    requires key in o ==> o[key].JNum?
  {
    if key in o then o[key].n else default
  }

  /** Lines are kept when their stripped text is not empty, in order. */
  function KeepNonBlank(ls: seq<string>): (r: seq<string>)
    ensures |r| <= |ls|
    ensures forall k :: 0 <= k < |r| ==> !Blank(r[k])
  {
    if ls == [] then []
    else (if Strip(ls[0]) != [] then [ls[0]] else []) + KeepNonBlank(ls[1..])
  }

  /** A line is kept exactly when it is one of the lines and is not whitespace only. */
  lemma {:induction false} KeepNonBlankMembers(ls: seq<string>, x: string)
    ensures x in KeepNonBlank(ls) <==> x in ls && !Blank(x)
  {
    if ls != [] {
      KeepNonBlankMembers(ls[1..], x);
      assert x in ls <==> x == ls[0] || x in ls[1..];
    }
  }

  /** Filtering distributes over concatenation: the kept lines keep their relative order. */
  lemma {:induction false} KeepNonBlankAppend(a: seq<string>, b: seq<string>)
    ensures KeepNonBlank(a + b) == KeepNonBlank(a) + KeepNonBlank(b)
  {
    if a != [] {
      var head := if Strip(a[0]) != [] then [a[0]] else [];
      assert (a + b)[0] == a[0];
      assert (a + b)[1..] == a[1..] + b;
      KeepNonBlankAppend(a[1..], b);
      assert KeepNonBlank(a + b) == head + (KeepNonBlank(a[1..]) + KeepNonBlank(b));
    } else {
      assert a + b == b;
    }
  }

  /** The search sentences: the lines of the configured text that are not whitespace only. */
  function SearchSentences(text: string): (r: seq<string>)
    ensures forall k :: 0 <= k < |r| ==> !Blank(r[k]) && NoBreak(r[k])
    // exactly the non-blank lines, in their order
    ensures forall x :: x in r <==> x in Lines(text) && !Blank(x)
    ensures r == KeepNonBlank(Lines(text))
  {
    var ls := Lines(text);
    var r := KeepNonBlank(ls);
    forall x ensures x in r <==> x in ls && !Blank(x) {
      KeepNonBlankMembers(ls, x);
    }
    r
  }

  /** Sentences written one per line, under any boundaries, are read back as written. */
  lemma SearchSentencesOfJoined(ls: seq<string>, seps: seq<string>)
    requires WellSplit(ls, seps)
    requires forall k :: 0 <= k < |ls| ==> !Blank(ls[k])
    ensures SearchSentences(JoinWith(ls, seps)) == ls
  {
    LinesOfWellSplit(ls, seps);
    KeepsAll(ls);
  }

  lemma {:induction false} KeepsAll(ls: seq<string>)
    requires forall k :: 0 <= k < |ls| ==> !Blank(ls[k])
    ensures KeepNonBlank(ls) == ls
  {
    if ls != [] {
      KeepsAll(ls[1..]);
    }
  }

  /** Each default template is one non-blank line. */
  lemma DefaultTemplatesArePlain()
    ensures Printable("look up {query}") && Printable("search [the web | the internet] for {query}")
  {
  }

  /** The default sentences are the two templates, one per line. */
  lemma DefaultSearchSentences()
    ensures SearchSentences(DEFAULT_SEARCH_SENTENCES)
      == ["look up {query}", "search [the web | the internet] for {query}"]
  {
    var ls := ["look up {query}", "search [the web | the internet] for {query}"];
    DefaultTemplatesArePlain();
    assert NoBreak(ls[0]) && NoBreak(ls[1]);
    assert !IsSpace(ls[0][0]) && !IsSpace(ls[1][0]);
    var seps := ["\n", ""];
    assert WellSplit(ls[1..], seps[1..]);
    assert JoinWith(ls, seps) == ls[0] + "\n" + (ls[1] + "" + "");
    assert JoinWith(ls, seps) == DEFAULT_SEARCH_SENTENCES;
    SearchSentencesOfJoined(ls, seps);
  }

  /** What the agent takes from its configuration entry. */
  datatype AgentConfig = AgentConfig(
    client: Client,
    timeout: int,
    model: string,
    searchEnabled: bool,
    searchSentences: seq<string>,
    searchResultPrefix: string,
    lang: string,
    stripMarkdown: bool)

  /** The agent's initialiser, without the host's entity attributes. */
  function ConfigFromEntry(data: map<string, Json>, options: map<string, Json>): (c: AgentConfig)
    requires EntryDataValid(data) && OptionsWellTyped(options)
    ensures c.client == NewClient(data[CONF_BASE_URL].s, data[CONF_API_KEY].s,
                                  IntOption(options, CONF_TIMEOUT, DEFAULT_TIMEOUT),
                                  BoolOption(options, CONF_VERIFY_SSL, DEFAULT_VERIFY_SSL))
    ensures c.timeout == c.client.timeout
    ensures c.model == StrOption(options, CONF_MODEL, DEFAULT_MODEL)
    ensures c.searchEnabled == BoolOption(options, CONF_SEARCH_ENABLED, DEFAULT_SEARCH_ENABLED)
    ensures c.searchSentences == SearchSentences(StrOption(options, CONF_SEARCH_SENTENCES, DEFAULT_SEARCH_SENTENCES))
    ensures forall k :: 0 <= k < |c.searchSentences| ==> !Blank(c.searchSentences[k])
    ensures c.searchResultPrefix == StrOption(options, CONF_SEARCH_RESULT_PREFIX, DEFAULT_SEARCH_RESULT_PREFIX)
    ensures c.lang == Strip(StrOption(options, CONF_LANGUAGE_CODE, DEFAULT_LANGUAGE_CODE)) && Trimmed(c.lang)
    ensures c.stripMarkdown == BoolOption(options, CONF_STRIP_MARKDOWN, DEFAULT_STRIP_MARKDOWN)
  {
    var timeout := IntOption(options, CONF_TIMEOUT, DEFAULT_TIMEOUT);
    var client := NewClient(data[CONF_BASE_URL].s, data[CONF_API_KEY].s, timeout,
                            BoolOption(options, CONF_VERIFY_SSL, DEFAULT_VERIFY_SSL));
    var sentences := SearchSentences(StrOption(options, CONF_SEARCH_SENTENCES, DEFAULT_SEARCH_SENTENCES));
    var lang := Strip(StrOption(options, CONF_LANGUAGE_CODE, DEFAULT_LANGUAGE_CODE));
    AgentConfig(
      client,
      timeout,
      StrOption(options, CONF_MODEL, DEFAULT_MODEL),
      BoolOption(options, CONF_SEARCH_ENABLED, DEFAULT_SEARCH_ENABLED),
      sentences,
      StrOption(options, CONF_SEARCH_RESULT_PREFIX, DEFAULT_SEARCH_RESULT_PREFIX),
      lang,
      BoolOption(options, CONF_STRIP_MARKDOWN, DEFAULT_STRIP_MARKDOWN))
  }

  // ---------------------------------------------------------------- one turn

  datatype ConversationInput = ConversationInput(text: string, conversationId: Option<string>, language: string)

  /** The grammar handed to the phrase matcher: one intent whose sentences are the configured
      ones, whitespace-insensitive, with a wildcard list named "query". */
  datatype Intents = Intents(
    language: string,
    ignoreWhitespace: bool,
    intent: string,
    sentences: seq<string>,
    wildcardLists: seq<string>)

  /** A match: the intent's name and the values of the captured entities. */
  datatype Recognition = Recognition(intentName: string, entities: map<string, string>)

  function SearchIntents(lang: string, sentences: seq<string>): (i: Intents)
    ensures i.language == lang && i.ignoreWhitespace
    ensures i.intent == DO_SEARCH_INTENT && i.sentences == sentences && i.wildcardLists == ["query"]
  {
    Intents(lang, true, DO_SEARCH_INTENT, sentences, ["query"])
  }

  type History = map<string, seq<Message>>

  /** The id of the turn and the history it continues: an id the table knows is reused with
      its list; any other id, or none, gives way to a fresh id and an empty list. */
  function ResolveConversation(history: History, incoming: Option<string>, freshId: string): (r: (string, seq<Message>))
    ensures incoming.Some? && incoming.value in history ==> r == (incoming.value, history[incoming.value])
    ensures !(incoming.Some? && incoming.value in history) ==> r == (freshId, [])
  {
    match incoming
    case Some(id) => if id in history then (id, history[id]) else (freshId, [])
    case None => (freshId, [])
  }

  /** Whether the utterance is a search request, and the prompt sent: the captured query
      when the search intent matched with a query, the utterance otherwise. */
  function DecidePrompt(config: AgentConfig, recognize: (Intents, string) -> Option<Recognition>, text: string): (r: (string, bool))
    ensures var m := recognize(SearchIntents(config.lang, config.searchSentences), text);
      r.1 <==> (&& config.searchEnabled && |config.searchSentences| > 0
                && m.Some? && m.value.intentName == DO_SEARCH_INTENT && "query" in m.value.entities)
    ensures r.1 ==> r.0 == recognize(SearchIntents(config.lang, config.searchSentences), text).value.entities["query"]
    ensures !r.1 ==> r.0 == text
  {
    if config.searchEnabled && |config.searchSentences| > 0 then
      match recognize(SearchIntents(config.lang, config.searchSentences), text)
      case Some(m) =>
        if m.intentName == DO_SEARCH_INTENT && "query" in m.entities then (m.entities["query"], true)
        else (text, false)
      case None => (text, false)
    else (text, false)
  }

  /** With search off or no sentences configured the matcher's answer does not matter. */
  lemma MatcherUnusedWhenSearchOff(config: AgentConfig, rec1: (Intents, string) -> Option<Recognition>,
                                   rec2: (Intents, string) -> Option<Recognition>, text: string)
    requires !config.searchEnabled || config.searchSentences == []
    ensures DecidePrompt(config, rec1, text) == DecidePrompt(config, rec2, text) == (text, false)
  {
  }

  /** One chat message of the request. */
  function ChatMessage(role: string, content: string): Json {
    JObj(map["role" := JStr(role), "content" := JStr(content)])
  }

  /** The request's message list: the history in order, then the prompt as a user message. */
  function ChatMessages(history: seq<Message>, prompt: string): (r: seq<Json>)
    ensures |r| == |history| + 1
    ensures forall i :: 0 <= i < |history| ==> r[i] == ChatMessage(history[i].role, history[i].message)
    ensures r[|history|] == ChatMessage("user", prompt)
  {
    seq(|history|, i requires 0 <= i < |history| => ChatMessage(history[i].role, history[i].message))
      + [ChatMessage("user", prompt)]
  }

  /** The chat-completion payload. */
  function ChatPayload(model: string, messages: seq<Json>, search: bool): (r: Json)
    ensures Field(r, "model") == Some(JStr(model))
    ensures Field(r, "messages") == Some(JArr(messages))
    ensures Field(r, "stream") == Some(JBool(false))
    ensures Field(r, "features").Some? && Field(Field(r, "features").value, "web_search") == Some(JBool(search))
    ensures Field(r, "params").Some? && Field(Field(r, "params").value, "keep_alive") == Some(JStr("-1m"))
    // exactly these keys, here and in the two nested objects
    ensures r.JObj? && r.fields.Keys == {"features", "model", "messages", "params", "stream"}
    ensures r.fields["features"] == JObj(map["web_search" := JBool(search)])
    ensures r.fields["params"] == JObj(map["keep_alive" := JStr("-1m")])
  {
    JObj(map[
      "features" := JObj(map["web_search" := JBool(search)]),
      "model" := JStr(model),
      "messages" := JArr(messages),
      "params" := JObj(map["keep_alive" := JStr("-1m")]),
      "stream" := JBool(false)])
  }

  /** `reply["choices"][0]["message"]["content"]`. */
  function ReplyContent(reply: Json): (r: Option<Json>)
    ensures r.Some? <==>
      && reply.JObj? && "choices" in reply.fields
      && reply.fields["choices"].JArr? && |reply.fields["choices"].items| > 0
      && reply.fields["choices"].items[0].JObj? && "message" in reply.fields["choices"].items[0].fields
      && reply.fields["choices"].items[0].fields["message"].JObj?
      && "content" in reply.fields["choices"].items[0].fields["message"].fields
    ensures r.Some? ==> r.value == reply.fields["choices"].items[0].fields["message"].fields["content"]
  {
    match Field(reply, "choices")
    case None => None
    case Some(choices) =>
      match First(choices)
      case None => None
      case Some(choice) =>
        match Field(choice, "message")
        case None => None
        case Some(message) => Field(message, "content")
  }

  /** `query`: send the request and read the reply's content (which raises when absent). */
  function Query(config: AgentConfig, prompt: string, history: seq<Message>, search: bool,
                 send: Request -> Outcome): (r: Result<Json, Failure>)
    ensures var g := Generate(config.client, send, ChatPayload(config.model, ChatMessages(history, prompt), search));
      && (g.Err? <==> r.Err? && r.error.Api?)
      && (g.Err? ==> r.error == Api(g.error))
      && (r.Ok? <==> g.Ok? && ReplyContent(g.value).Some?)
      && (r.Ok? ==> r.value == g.value)
  {
    var payload := ChatPayload(config.model, ChatMessages(history, prompt), search);
    match Generate(config.client, send, payload)
    case Err(e) => Err(Api(e))
    case Ok(reply) => if ReplyContent(reply).Some? then Ok(reply) else Err(Lookup)
  }

  /** How the reply text is turned into speech: markdown stripped when enabled, then the
      search prefix and one space put in front when the turn searched. */
  function PostProcess(config: AgentConfig, render: string -> string, reply: string, search: bool): (r: string)
    ensures var body := if config.stripMarkdown then render(reply) else reply;
      r == (if search then config.searchResultPrefix + " " else "") + body
  {
    var text := if config.stripMarkdown then render(reply) else reply;
    if search then config.searchResultPrefix + " " + text else text
  }

  /** A failed turn: the backend's timeout, communication and JSON errors are reported with
      their detail; any other error of the host is reported generically. */
  datatype TurnError = Backend(error: ApiError) | Host

  datatype ConversationResult =
    | Spoken(speech: string, conversationId: string, language: string)
    | Failed(error: TurnError, conversationId: string, language: string)
    | Uncaught   // an exception the turn does not handle reaches the host

  function Classify(e: ApiError): (t: TurnError)
    ensures t.Host? <==> e.ClientError?
    ensures t.Backend? ==> t.error == e
  {
    if e.ClientError? then Host else Backend(e)
  }

  const ERROR_PREFIX: string := "Something went wrong, "

  /** The text of a failed turn: the detail of a backend error, a fixed text otherwise.
      None for a JSON error whose payload is not a string (Python's str() of other JSON values
      is not modelled). */
  function ErrorText(e: TurnError): (r: Option<string>)
    ensures r.Some? ==> |r.value| >= |ERROR_PREFIX| && r.value[..|ERROR_PREFIX|] == ERROR_PREFIX
    ensures e.Backend? && e.error.JsonError? && e.error.payload.JStr? ==>
      r == Some(ERROR_PREFIX + e.error.payload.s)
    ensures r.None? <==> e.Backend? && (e.error.ClientError? || (e.error.JsonError? && !e.error.payload.JStr?))
    ensures e == Backend(TimeoutError) ==> r == Some(ERROR_PREFIX + "timeout while talking to the server")
    ensures e == Backend(CommError) ==> r == Some(ERROR_PREFIX + "unknown error while talking to the server")
    ensures e.Host? ==> r == Some(ERROR_PREFIX + "please check the logs for more information.")
  {
    match e
    case Host => Some(ERROR_PREFIX + "please check the logs for more information.")
    case Backend(TimeoutError) => Some(ERROR_PREFIX + "timeout while talking to the server")
    case Backend(CommError) => Some(ERROR_PREFIX + "unknown error while talking to the server")
    case Backend(JsonError(JStr(s))) => Some(ERROR_PREFIX + s)
    case Backend(_) => None
  }

  /** One turn as a function of the history before it: the history after and the result. */
  function Turn(config: AgentConfig, history: History, input: ConversationInput, freshId: string,
                userClock: int, replyClock: int, recognize: (Intents, string) -> Option<Recognition>,
                render: string -> string, send: Request -> Outcome): (r: (History, ConversationResult))
    // a handled turn reports the resolved id and the input's language
    ensures r.1.Spoken? || r.1.Failed? ==>
      && r.1.conversationId == ResolveConversation(history, input.conversationId, freshId).0
      && r.1.language == input.language
    // only a spoken turn writes
    ensures !r.1.Spoken? ==> r.0 == history
  {
    var (id, base) := ResolveConversation(history, input.conversationId, freshId);
    var (prompt, search) := DecidePrompt(config, recognize, input.text);
    Conclude(config, history, input, id, base, search, Query(config, prompt, base, search, send),
             userClock, replyClock, render)
  }

  /** The end of a turn, once the backend has answered: the error path writes nothing; the
      success path appends the user's utterance and the spoken reply to the turn's list. */
  function Conclude(config: AgentConfig, history: History, input: ConversationInput, id: string,
                    base: seq<Message>, search: bool, response: Result<Json, Failure>,
                    userClock: int, replyClock: int, render: string -> string): (r: (History, ConversationResult))
    requires response.Ok? ==> ReplyContent(response.value).Some?
    ensures r.1.Spoken? <==> response.Ok? && ReplyContent(response.value).value.JStr?
    ensures r.1.Spoken? ==>
      && r.1 == Spoken(PostProcess(config, render, ReplyContent(response.value).value.s, search), id, input.language)
      && r.0 == history[id := base + [Message(userClock, "user", input.text), Message(replyClock, "assistant", r.1.speech)]]
    ensures !r.1.Spoken? ==> r.0 == history
    ensures r.1.Failed? <==> response.Err? && response.error.Api?
    ensures r.1.Failed? ==> r.1 == Failed(Classify(response.error.error), id, input.language)
  {
    match response
    case Err(Lookup) => (history, Uncaught)
    case Err(Api(e)) => (history, Failed(Classify(e), id, input.language))
    case Ok(reply) =>
      var content := ReplyContent(reply).value;
      if !content.JStr? then (history, Uncaught)
      else
        var speech := PostProcess(config, render, content.s, search);
        (history[id := base + [Create("user", input.text, userClock), Create("assistant", speech, replyClock)]],
         Spoken(speech, id, input.language))
  }

  /** A turn is its conclusion once the conversation is resolved and the prompt decided. */
  lemma TurnConcludes(config: AgentConfig, history: History, input: ConversationInput, freshId: string,
                      userClock: int, replyClock: int, recognize: (Intents, string) -> Option<Recognition>,
                      render: string -> string, send: Request -> Outcome,
                      id: string, base: seq<Message>, prompt: string, search: bool)
    requires (id, base) == ResolveConversation(history, input.conversationId, freshId)
    requires (prompt, search) == DecidePrompt(config, recognize, input.text)
    ensures Turn(config, history, input, freshId, userClock, replyClock, recognize, render, send)
      == Conclude(config, history, input, id, base, search, Query(config, prompt, base, search, send),
                  userClock, replyClock, render)
  {
  }

  // ---------------------------------------------------------------- properties of a turn

  /** A successful turn writes only its own entry: the list it continued grows by the
      user's original utterance and the spoken reply, in that order. */
  lemma SuccessfulTurn(config: AgentConfig, history: History, input: ConversationInput, freshId: string,
                       userClock: int, replyClock: int, recognize: (Intents, string) -> Option<Recognition>,
                       render: string -> string, send: Request -> Outcome)
    ensures var (after, result) := Turn(config, history, input, freshId, userClock, replyClock, recognize, render, send);
      var (id, base) := ResolveConversation(history, input.conversationId, freshId);
      result.Spoken? ==>
        && result.conversationId == id
        && after.Keys == history.Keys + {id}
        && after[id] == base + [Message(userClock, "user", input.text), Message(replyClock, "assistant", result.speech)]
        && (forall k :: k in history && k != id ==> after[k] == history[k])
  {
  }

  /** A failed turn leaves the table as it was; a handled failure still reports the id. */
  lemma FailedTurn(config: AgentConfig, history: History, input: ConversationInput, freshId: string,
                   userClock: int, replyClock: int, recognize: (Intents, string) -> Option<Recognition>,
                   render: string -> string, send: Request -> Outcome)
    ensures var (after, result) := Turn(config, history, input, freshId, userClock, replyClock, recognize, render, send);
      && (!result.Spoken? ==> after == history)
      && (result.Failed? ==> result.conversationId == ResolveConversation(history, input.conversationId, freshId).0)
  {
  }

  /** The per-request deadline ends the turn as a reported timeout and writes nothing. */
  lemma DeadlineEndsTurn(config: AgentConfig, history: History, input: ConversationInput, freshId: string,
                         userClock: int, replyClock: int, recognize: (Intents, string) -> Option<Recognition>,
                         render: string -> string, send: Request -> Outcome)
    requires forall req :: send(req) == TimedOut
    ensures var (after, result) := Turn(config, history, input, freshId, userClock, replyClock, recognize, render, send);
      && after == history && result.Failed? && result.error == Backend(TimeoutError)
      && ErrorText(result.error) == Some(ERROR_PREFIX + "timeout while talking to the server")
  {
  }

  /** What a failed turn says: the host's error gets the fixed text pointing at the logs, and
      a backend error its own text, which is missing only for a JSON error whose payload is
      not a string; a turn never fails with the generic client error as its detail. */
  lemma FailedTurnMessage(config: AgentConfig, history: History, input: ConversationInput, freshId: string,
                          userClock: int, replyClock: int, recognize: (Intents, string) -> Option<Recognition>,
                          render: string -> string, send: Request -> Outcome)
    ensures var (_, result) := Turn(config, history, input, freshId, userClock, replyClock, recognize, render, send);
      result.Failed? ==>
        && result.error != Backend(ClientError)
        && (result.error.Host? ==> ErrorText(result.error) == Some(ERROR_PREFIX + "please check the logs for more information."))
        && (ErrorText(result.error).None? <==>
              result.error.Backend? && result.error.error.JsonError? && !result.error.error.payload.JStr?)
  {
  }

  /** Within one conversation, growth is two messages per successful turn: continuing a known
      id adds two to its list, and a fresh id that was not in use starts with two. */
  lemma TurnGrowsByTwo(config: AgentConfig, history: History, input: ConversationInput, freshId: string,
                       userClock: int, replyClock: int, recognize: (Intents, string) -> Option<Recognition>,
                       render: string -> string, send: Request -> Outcome)
    ensures var (after, result) := Turn(config, history, input, freshId, userClock, replyClock, recognize, render, send);
      result.Spoken? ==>
        && (input.conversationId.Some? && input.conversationId.value in history ==>
              |after[input.conversationId.value]| == |history[input.conversationId.value]| + 2)
        && (!(input.conversationId.Some? && input.conversationId.value in history) && freshId !in history ==>
              |after| == |history| + 1 && |after[freshId]| == 2)
  {
    SuccessfulTurn(config, history, input, freshId, userClock, replyClock, recognize, render, send);
  }

  /** A list alternates user and assistant messages, starting with the user. */
  predicate Alternates(ms: seq<Message>) {
    && |ms| % 2 == 0
    && forall i :: 0 <= i < |ms| ==> ms[i].role == (if i % 2 == 0 then "user" else "assistant")
  }

  predicate AllAlternate(history: History) {
    forall id :: id in history ==> Alternates(history[id])
  }

  /** Appending one exchange to an alternating list keeps it alternating. */
  lemma ExchangeAlternates(base: seq<Message>, user: Message, reply: Message)
    requires Alternates(base) && user.role == "user" && reply.role == "assistant"
    ensures Alternates(base + [user, reply])
  {
    var ext := base + [user, reply];
    forall i | 0 <= i < |ext|
      ensures ext[i].role == (if i % 2 == 0 then "user" else "assistant")
    {
      if i < |base| { assert ext[i] == base[i]; }
    }
  }

  /** Every turn keeps each conversation a sequence of complete user/assistant exchanges. */
  lemma TurnKeepsExchanges(config: AgentConfig, history: History, input: ConversationInput, freshId: string,
                           userClock: int, replyClock: int, recognize: (Intents, string) -> Option<Recognition>,
                           render: string -> string, send: Request -> Outcome)
    requires AllAlternate(history)
    ensures AllAlternate(Turn(config, history, input, freshId, userClock, replyClock, recognize, render, send).0)
  {
    var (id, base) := ResolveConversation(history, input.conversationId, freshId);
    var (prompt, search) := DecidePrompt(config, recognize, input.text);
    TurnConcludes(config, history, input, freshId, userClock, replyClock, recognize, render, send, id, base, prompt, search);
    var (after, result) := Conclude(config, history, input, id, base, search, Query(config, prompt, base, search, send),
                                    userClock, replyClock, render);
    if result.Spoken? {
      assert base == [] || Alternates(base);
      ExchangeAlternates(base, Message(userClock, "user", input.text), Message(replyClock, "assistant", result.speech));
      forall k | k in after ensures Alternates(after[k]) {
        if k != id { assert after[k] == history[k]; }
      }
    }
  }

  /** The next request of a conversation replays the previous one: the old history, the
      user's original utterance (not a rewritten search prompt), the spoken reply, and then
      the new prompt. */
  lemma NextRequestReplaysTurn(config: AgentConfig, history: History, input: ConversationInput, freshId: string,
                               userClock: int, replyClock: int, recognize: (Intents, string) -> Option<Recognition>,
                               render: string -> string, send: Request -> Outcome, nextPrompt: string)
    ensures var (after, result) := Turn(config, history, input, freshId, userClock, replyClock, recognize, render, send);
      var base := ResolveConversation(history, input.conversationId, freshId).1;
      result.Spoken? ==>
        ChatMessages(after[result.conversationId], nextPrompt)
        == ChatMessages(base, input.text) + [ChatMessage("assistant", result.speech), ChatMessage("user", nextPrompt)]
  {
    var (id, base) := ResolveConversation(history, input.conversationId, freshId);
    var (prompt, search) := DecidePrompt(config, recognize, input.text);
    TurnConcludes(config, history, input, freshId, userClock, replyClock, recognize, render, send, id, base, prompt, search);
    var (after, result) := Conclude(config, history, input, id, base, search, Query(config, prompt, base, search, send),
                                    userClock, replyClock, render);
    if result.Spoken? {
      ReplayedExchange(base, input.text, result.speech, userClock, replyClock, nextPrompt);
    }
  }

  /** The message list of a conversation extended by one exchange is the earlier request's
      list, then the reply, then the next prompt. */
  lemma ReplayedExchange(base: seq<Message>, text: string, speech: string, userClock: int, replyClock: int,
                         nextPrompt: string)
    ensures ChatMessages(base + [Message(userClock, "user", text), Message(replyClock, "assistant", speech)], nextPrompt)
      == ChatMessages(base, text) + [ChatMessage("assistant", speech), ChatMessage("user", nextPrompt)]
  {
    var ext := base + [Message(userClock, "user", text), Message(replyClock, "assistant", speech)];
    var l := ChatMessages(ext, nextPrompt);
    var r := ChatMessages(base, text) + [ChatMessage("assistant", speech), ChatMessage("user", nextPrompt)];
    forall i | 0 <= i < |l| ensures l[i] == r[i] {
      if i < |base| {
        assert ext[i] == base[i];
      }
    }
  }

  // ---------------------------------------------------------------- the agent

  class Agent {
    const config: AgentConfig
    var history: History

    constructor (data: map<string, Json>, options: map<string, Json>)
      requires EntryDataValid(data) && OptionsWellTyped(options)
      ensures config == ConfigFromEntry(data, options) && history == map[]
    {
      config := ConfigFromEntry(data, options);
      history := map[];
    }

    /** `async_process`. `freshId` is what the id source yields for this turn; `userClock`
        and `replyClock` are the clock readings when the two messages are made. */
    method Process(input: ConversationInput, freshId: string, userClock: int, replyClock: int,
                   recognize: (Intents, string) -> Option<Recognition>, render: string -> string,
                   send: Request -> Outcome) returns (result: ConversationResult)
      modifies this
      ensures (history, result) == Turn(config, old(history), input, freshId, userClock, replyClock, recognize, render, send)
    {
      ghost var before := history;
      var conversationId: string;
      var conversationHistory: seq<Message>;
      if input.conversationId.Some? && input.conversationId.value in history {
        conversationId := input.conversationId.value;
        conversationHistory := history[conversationId];
      } else {
        conversationId := freshId;
        conversationHistory := [];
      }
      assert (conversationId, conversationHistory) == ResolveConversation(old(history), input.conversationId, freshId);

      var userMessage := Create("user", input.text, userClock);
      var prompt := userMessage.message;
      var shouldSearch := false;

      if config.searchEnabled && |config.searchSentences| > 0 {
        var r := recognize(SearchIntents(config.lang, config.searchSentences), prompt);
        if r.Some? {
          if r.value.intentName == DO_SEARCH_INTENT && "query" in r.value.entities {
            prompt := r.value.entities["query"];
            shouldSearch := true;
          }
        }
      }
      assert (prompt, shouldSearch) == DecidePrompt(config, recognize, input.text);

      var response := Query(config, prompt, conversationHistory, shouldSearch, send);
      TurnConcludes(config, before, input, freshId, userClock, replyClock, recognize, render, send,
                    conversationId, conversationHistory, prompt, shouldSearch);
      result := Respond(input, conversationId, conversationHistory, userMessage, shouldSearch, response,
                        replyClock, render);
    }

    /** The rest of `async_process` once the backend has answered: report the error, or post-process
        the reply, record the exchange and speak. */
    method Respond(input: ConversationInput, conversationId: string, conversationHistory: seq<Message>,
                   userMessage: Message, shouldSearch: bool, response: Result<Json, Failure>, replyClock: int,
                   render: string -> string) returns (result: ConversationResult)
      requires userMessage.role == "user" && userMessage.message == input.text
      requires response.Ok? ==> ReplyContent(response.value).Some?
      modifies this
      ensures (history, result) == Conclude(config, old(history), input, conversationId, conversationHistory,
                                            shouldSearch, response, userMessage.timestamp, replyClock, render)
    {
      if response.Err? {
        if response.error.Lookup? {
          result := Uncaught;
        } else {
          result := Failed(Classify(response.error.error), conversationId, input.language);
        }
        return;
      }

      var content := ReplyContent(response.value).value;
      if !content.JStr? {
        result := Uncaught;
        return;
      }
      var responseData := content.s;
      if config.stripMarkdown {
        responseData := render(responseData);
      }
      if shouldSearch {
        responseData := config.searchResultPrefix + " " + responseData;
      }
      assert responseData == PostProcess(config, render, content.s, shouldSearch);
      var responseMessage := Create("assistant", responseData, replyClock);

      var updated := conversationHistory + [userMessage];
      updated := updated + [responseMessage];
      assert updated == conversationHistory + [userMessage, responseMessage];
      history := history[conversationId := updated];
      result := Spoken(responseData, conversationId, input.language);
    }
  }
}
