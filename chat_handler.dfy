/**
 * The `chat` serverless handler: it validates a chat request, finds or creates the
 * conversation named by the client's session token, stores the user's message, reads
 * the conversation back as context, calls the completion API once and stores its reply.
 *
 * The two tables are the fields of `ChatStore`: `tokens` is `chat_conversations`
 * (session token -> conversation id) and `log` is `chat_messages`, one sequence per
 * conversation id in creation order. Everything the handler gets from outside (the
 * environment's API key, a fresh UUID, whether each insert succeeds, the completion
 * API's answer) is a parameter.
 */
module ChatHandler {
  import opened Wrappers

  /** The history query's `.limit(10)`. */
  const HistoryLimit: nat := 10

  datatype Role = System | User | Assistant

  /** A `chat_messages` row as the handler reads it back: `role, content`; `None` is a NULL content. */
  datatype StoredMessage = StoredMessage(role: Role, content: Option<string>)

  /** One entry of the `messages` array sent to the completion API; `None` is a `null` content. */
  datatype PromptEntry = PromptEntry(role: Role, content: Option<string>)

  /** The parsed JSON body: `message` and `session_id`, either of which may be absent. */
  datatype RequestBody = RequestBody(message: Option<string>, sessionId: Option<string>)

  /** A preflight `OPTIONS` request, or a `POST` whose body is `None` when it is not valid JSON. */
  datatype Request = Preflight | Post(body: Option<RequestBody>)

  /** Process configuration: whether `OPENAI_API_KEY` is set, and the fixed system instruction. */
  datatype Config = Config(apiKeyPresent: bool, systemInstruction: string)

  /**
   * How the completion call ended: a response that is not OK, with its status, status text
   * and body text; a failure that throws (`fetch` fails, the body is not JSON, or it has no
   * `choices[0].message`); or an OK answer with `choices[0].message.content`, which is `None`
   * when that property is null or absent (reading it does not throw).
   */
  datatype Upstream = NotOk(status: nat, statusText: string, body: string) | Unreadable | Answer(content: Option<string>)

  /**
   * Status 200 with the CORS headers and no body; `{error}` with a status; the upstream
   * failure's `{error, details, apiError}` with a status; or `{response, session_id}` with
   * status 200, where a `None` response is the JSON `null`.
   */
  datatype Response =
    | CorsOk
    | Error(status: int, error: string)
    | UpstreamError(status: int, error: string, details: string, apiError: string)
    | Reply(response: Option<string>, sessionId: string)

  const MessageRequired := "Message is required"
  const KeyNotConfigured := "OpenAI API key not configured"
  const CreateFailed := "Failed to create conversation"
  const UpstreamFailed := "Failed to get AI response"
  const InternalError := "Internal server error"

  /** The decimal digits of `n`, as a template literal prints a status code. */
  function Decimal(n: nat): (r: string)
    ensures |r| >= 1 && forall i :: 0 <= i < |r| ==> '0' <= r[i] <= '9'
  {
    if n < 10 then [Digit(n)] else Decimal(n / 10) + [Digit(n % 10)]
  }

  function Digit(d: nat): (c: char)
    requires d < 10
    ensures '0' <= c <= '9'
  {
    ('0' as int + d) as char
  }

  /** The `details` text of an upstream failure: `OpenAI API error: <status> <statusText>`. */
  function UpstreamDetails(status: nat, statusText: string): string {
    "OpenAI API error: " + Decimal(status) + " " + statusText
  }

  /** JavaScript truthiness of an optional string: present and not empty. There is no trim. */
  predicate Truthy(s: Option<string>) {
    s.Some? && s.value != ""
  }

  /** The request gets past parsing, the message check and the API-key check. */
  predicate Admitted(req: Request, cfg: Config) {
    req.Post? && req.body.Some? && Truthy(req.body.value.message) && cfg.apiKeyPresent
  }

  /** Outcome of the get-or-create step: an existing conversation and the token that found it, or the token to create one with. */
  datatype Resolution = Existing(id: nat, token: string) | Create(token: string)

  /**
   * The session step: a truthy token that names a conversation reuses it; otherwise a
   * conversation is to be created with the client's token if it sent a truthy one (an
   * unknown token is kept, not replaced) and with the fresh UUID if it did not.
   */
  function ResolveSession(tokens: map<string, nat>, sessionId: Option<string>, freshUuid: string): (r: Resolution)
    ensures r.Existing? <==> Truthy(sessionId) && sessionId.value in tokens
    ensures r.Existing? ==> Some(r.token) == sessionId && r.token in tokens && r.id == tokens[r.token]
    ensures r.Create? && Truthy(sessionId) ==> r.token == sessionId.value && r.token !in tokens
    ensures r.Create? && !Truthy(sessionId) ==> r.token == freshUuid
  {
    var s := sessionId.GetOr("");
    if s != "" && s in tokens then Existing(tokens[s], s)
    else Create(if s != "" then s else freshUuid)
  }

  /** A conversation created with a non-empty token is found again by that token on the next request. */
  lemma ResumeAfterCreate(tokens: map<string, nat>, sessionId: Option<string>, freshUuid: string, id: nat, other: string)
    requires ResolveSession(tokens, sessionId, freshUuid).Create?
    requires freshUuid != ""
    ensures var t := ResolveSession(tokens, sessionId, freshUuid).token;
            t != "" && ResolveSession(tokens[t := id], Some(t), other) == Existing(id, t)
  {
  }

  /**
   * The history query: rows ordered by creation time ascending, limited to 10. That is
   * the OLDEST ten messages of the conversation, not the most recent ones.
   */
  function HistoryWindow(conv: seq<StoredMessage>): (h: seq<StoredMessage>)
    ensures |h| == if |conv| < HistoryLimit then |conv| else HistoryLimit
    ensures h == conv[..|h|]
  {
    if |conv| <= HistoryLimit then conv else conv[..HistoryLimit]
  }

  /**
   * Once a conversation holds ten messages, storing more never changes the history the
   * handler sends: new user messages no longer reach the completion API.
   */
  lemma HistoryFrozenAfterLimit(conv: seq<StoredMessage>, more: seq<StoredMessage>)
    requires |conv| >= HistoryLimit
    ensures HistoryWindow(conv + more) == HistoryWindow(conv) == conv[..HistoryLimit]
  {
    assert (conv + more)[..HistoryLimit] == conv[..HistoryLimit];
  }

  /** The message just stored is in the history window exactly when the conversation held fewer than ten before it. */
  lemma LatestInWindowIff(conv: seq<StoredMessage>, m: StoredMessage)
    ensures |HistoryWindow(conv + [m])| == |conv| + 1 <==> |conv| < HistoryLimit
    ensures |conv| < HistoryLimit ==> HistoryWindow(conv + [m]) == conv + [m]
  {
  }

  /** The prompt: the system instruction, then each history row with its role and content, in order. */
  function BuildPrompt(system: string, history: seq<StoredMessage>): (p: seq<PromptEntry>)
    ensures |p| == |history| + 1
    ensures p[0] == PromptEntry(System, Some(system))
    ensures forall i :: 1 <= i < |p| ==> p[i] == PromptEntry(history[i - 1].role, history[i - 1].content)
  {
    if history == [] then [PromptEntry(System, Some(system))]
    else BuildPrompt(system, history[..|history| - 1]) + [PromptEntry(history[|history| - 1].role, history[|history| - 1].content)]
  }

  /** Whatever the conversation holds, the prompt has the system entry and at most ten more. */
  lemma PromptAtMostEleven(system: string, conv: seq<StoredMessage>)
    ensures 1 <= |BuildPrompt(system, HistoryWindow(conv))| <= HistoryLimit + 1
  {
  }

  class ChatStore {
    /** `chat_conversations`: session token -> conversation id. */
    var tokens: map<string, nat>
    /** `chat_messages`: the messages of conversation `id` are `log[id]`, in creation order. */
    var log: seq<seq<StoredMessage>>

    /** Every session token names a conversation that exists. */
    ghost predicate Valid()
      reads this
    {
      forall t :: t in tokens ==> tokens[t] < |log|
    }

    constructor ()
      ensures Valid() && tokens == map[] && log == []
    {
      tokens := map[];
      log := [];
    }

    /**
     * One invocation of the handler. `sent` is the prompt given to the completion API, or
     * `None` when the handler stops before calling it. `freshUuid` is `crypto.randomUUID()`:
     * non-empty and, being random, the token of no stored conversation.
     */
    method Handle(req: Request, cfg: Config, freshUuid: string, convInsertOk: bool, userInsertOk: bool,
                  historyOk: bool, upstream: Upstream, aiInsertOk: bool)
      returns (resp: Response, sent: Option<seq<PromptEntry>>)
      requires Valid() && freshUuid != "" && freshUuid !in tokens
      modifies this
      ensures Valid()
      // No request ever moves a stored token to another conversation.
      ensures forall t :: t in old(tokens) ==> t in tokens && tokens[t] == old(tokens)[t]
      // A preflight request gets an empty CORS response and touches nothing.
      ensures req.Preflight? ==> resp == CorsOk && sent == None && tokens == old(tokens) && log == old(log)
      // Early exits, in the order the handler checks them; none of them reads or writes a table.
      ensures req.Post? && req.body.None? ==> resp == Error(500, InternalError)
      ensures req.Post? && req.body.Some? && !Truthy(req.body.value.message) ==> resp == Error(400, MessageRequired)
      ensures req.Post? && req.body.Some? && Truthy(req.body.value.message) && !cfg.apiKeyPresent
              ==> resp == Error(500, KeyNotConfigured)
      ensures !Admitted(req, cfg) ==> sent == None && tokens == old(tokens) && log == old(log)
      // The conversation has to be created and its insert fails: 500, nothing written, no upstream call.
      ensures Admitted(req, cfg) && ResolveSession(old(tokens), req.body.value.sessionId, freshUuid).Create? && !convInsertOk
              ==> resp == Error(500, CreateFailed) && sent == None && tokens == old(tokens) && log == old(log)
      // Otherwise: at most one conversation is created, the user message is stored (unless its insert
      // fails), history is read from the conversation as it then is, the prompt is sent once, and the
      // reply is stored (unless its insert fails) and returned with the active session token.
      ensures Admitted(req, cfg) ==>
                var r := ResolveSession(old(tokens), req.body.value.sessionId, freshUuid);
                var id := if r.Existing? then r.id else |old(log)|;
                var before := if r.Existing? then old(log) else old(log) + [[]];
                var withUser := before[id] + (if userInsertOk then [StoredMessage(User, req.body.value.message)] else []);
                (r.Existing? || convInsertOk) ==>
                  && tokens == (if r.Existing? then old(tokens) else old(tokens)[r.token := id])
                  && sent == Some(BuildPrompt(cfg.systemInstruction, if historyOk then HistoryWindow(withUser) else []))
                  && match upstream
                     case NotOk(status, statusText, body) =>
                       && resp == UpstreamError(500, UpstreamFailed, UpstreamDetails(status, statusText), body)
                       && log == before[id := withUser]
                     case Unreadable => resp == Error(500, InternalError) && log == before[id := withUser]
                     case Answer(content) =>
                       && resp == Reply(content, r.token)
                       && log == before[id := withUser + (if aiInsertOk then [StoredMessage(Assistant, content)] else [])]
    {
      if req.Preflight? {
        return CorsOk, None;
      }
      if req.body.None? {
        return Error(500, InternalError), None;
      }
      var body := req.body.value;
      if !Truthy(body.message) {
        return Error(400, MessageRequired), None;
      }
      var message := body.message.value;
      if !cfg.apiKeyPresent {
        return Error(500, KeyNotConfigured), None;
      }

      ghost var r := ResolveSession(tokens, body.sessionId, freshUuid);
      ghost var before := if r.Existing? then log else log + [[]];

      var conversationId, activeSessionId := GetOrCreate(body.sessionId, freshUuid, convInsertOk);
      if conversationId.None? {
        return Error(500, CreateFailed), None;
      }
      var id := conversationId.value;
      assert id == (if r.Existing? then r.id else |before| - 1) && log == before;

      // Save the user message; a failed insert is only logged.
      Store(id, StoredMessage(User, Some(message)), userInsertOk);
      ghost var withUser := log[id];
      assert log == before[id := withUser];

      // Read the history back; a failed query gives no rows.
      var history := if historyOk then HistoryWindow(log[id]) else [];
      sent := Some(BuildPrompt(cfg.systemInstruction, history));

      match upstream {
        case NotOk(status, statusText, errorText) =>
          resp := UpstreamError(500, UpstreamFailed, UpstreamDetails(status, statusText), errorText);
        case Unreadable =>
          resp := Error(500, InternalError);
        case Answer(content) =>
          // Save the reply, even a null one; a failed insert is only logged.
          Store(id, StoredMessage(Assistant, content), aiInsertOk);
          resp := Reply(content, activeSessionId);
      }
    }

    /**
     * The get-or-create step: the conversation the token names, or (when its insert
     * succeeds) a new empty conversation recorded under the resolved token, which no stored
     * conversation had.
     */
    method GetOrCreate(sessionId: Option<string>, freshUuid: string, insertOk: bool)
      returns (conversationId: Option<nat>, activeSessionId: string)
      requires Valid() && freshUuid != "" && freshUuid !in tokens
      modifies this
      ensures Valid()
      ensures var r := ResolveSession(old(tokens), sessionId, freshUuid);
              && activeSessionId == r.token
              && (r.Existing? ==> conversationId == Some(r.id) && tokens == old(tokens) && log == old(log))
              && (r.Create? ==> r.token !in old(tokens))
              && (r.Create? && !insertOk ==> conversationId == None && tokens == old(tokens) && log == old(log))
              && (r.Create? && insertOk ==>
                    conversationId == Some(|old(log)|) && tokens == old(tokens)[r.token := |old(log)|]
                    && log == old(log) + [[]])
    {
      conversationId := None;
      activeSessionId := sessionId.GetOr("");
      if activeSessionId != "" && activeSessionId in tokens {
        conversationId := Some(tokens[activeSessionId]);
        return;
      }
      activeSessionId := if activeSessionId != "" then activeSessionId else freshUuid;
      if insertOk {
        conversationId := Some(|log|);
        tokens := tokens[activeSessionId := |log|];
        log := log + [[]];
      }
    }

    /** An insert into `chat_messages`: appended to conversation `id` when it succeeds, otherwise nothing. */
    method Store(id: nat, m: StoredMessage, ok: bool)
      requires Valid() && id < |log|
      modifies this`log
      ensures Valid() && |log| == |old(log)|
      ensures log == old(log)[id := old(log)[id] + (if ok then [m] else [])]
    {
      if ok {
        log := log[id := log[id] + [m]];
      } else {
        assert old(log)[id] + [] == old(log)[id];
      }
    }
  }

  /**
   * Two requests against an empty store: "Hvad betyder inkasso?" without a session, then
   * "Tak" with the token the first reply returned. The second request reuses the
   * conversation and its prompt holds both earlier turns followed by "Tak".
   */
  method ResumeScenario(system: string, uuid: string, uuid2: string, reply1: string, reply2: string)
    returns (first: Response, second: Response, secondPrompt: Option<seq<PromptEntry>>)
    requires uuid != "" && uuid2 != "" && uuid2 != uuid
    ensures first == Reply(Some(reply1), uuid)
    ensures second == Reply(Some(reply2), uuid)
    ensures secondPrompt == Some([PromptEntry(System, Some(system)), PromptEntry(User, Some("Hvad betyder inkasso?")),
                                  PromptEntry(Assistant, Some(reply1)), PromptEntry(User, Some("Tak"))])
  {
    var cfg := Config(true, system);
    var store := new ChatStore();
    var p;
    first, p := store.Handle(Post(Some(RequestBody(Some("Hvad betyder inkasso?"), None))), cfg, uuid,
                             true, true, true, Answer(Some(reply1)), true);
    assert ResolveSession(map[], None, uuid) == Create(uuid);
    var turn1 := [StoredMessage(User, Some("Hvad betyder inkasso?")), StoredMessage(Assistant, Some(reply1))];
    assert ([] + [StoredMessage(User, Some("Hvad betyder inkasso?"))]) + [StoredMessage(Assistant, Some(reply1))] == turn1;
    assert store.tokens == map[uuid := 0];
    assert store.log == [turn1];
    assert ResolveSession(store.tokens, Some(uuid), uuid2) == Existing(0, uuid);
    var history := turn1 + [StoredMessage(User, Some("Tak"))];
    second, secondPrompt := store.Handle(Post(Some(RequestBody(Some("Tak"), Some(uuid)))), cfg, uuid2,
                                         true, true, true, Answer(Some(reply2)), true);
    assert HistoryWindow(history) == history;
    assert BuildPrompt(system, history) == [PromptEntry(System, Some(system)), PromptEntry(User, Some("Hvad betyder inkasso?")),
                                            PromptEntry(Assistant, Some(reply1)), PromptEntry(User, Some("Tak"))];
  }
}
