/**
 * The server's session logic: building a new game state, trimming the turn
 * history, the keyword rules an action applies, the message lists sent to
 * the model, and the session store with its start, act, export and import
 * handlers. HTTP routing and JSON encoding are not modelled; each handler
 * takes the request's fields and returns a `Response`.
 */
module Server {
  import opened Wrappers
  import opened JsText
  import opened GameModel
  import opened Prompts
  import opened Gateway

  const MaxHp: int := 20
  const RestHeal: int := 2
  /** The history window kept by the act handler. */
  const ActHistoryTurns: nat := 12
  /** The window `TrimHistory` keeps when no other is given. */
  const DefaultHistoryTurns: nat := 10

  const StartInventory: seq<string> := ["Bedroll", "Waterskin"]
  const StartLocation: string := "Emberbrook crossroads"
  const DefaultName: string := "Arin"
  const DefaultClassName: string := "Ranger"
  const ForestLocation: string := "Forest Edge"
  const MarketLocation: string := "Emberbrook Market"

  const UserRole: string := "user"
  const AssistantRole: string := "assistant"
  const SystemRole: string := "system"

  const ContinuePrompt: string := "Continue the scene. End with 2\U{2013}3 choices."

  const MissingFields: string := "Missing sessionId or action"
  const SessionNotFound: string := "Session not found"
  const InvalidState: string := "Invalid state"

  /** The character sheet of a start request; an absent field is `None`. */
  datatype CharacterSheet = CharacterSheet(
    name: Option<string>,
    className: Option<string>,
    backstory: Option<string>)

  /** What a handler answers: a success body, or a status code with an error message. */
  datatype Response =
    | Started(sessionId: string, state: GameState, dmText: string)
    | Acted(state: GameState, dmText: string)
    | Exported(state: GameState)
    | Imported(sessionId: string)
    | Failed(status: int, error: string)

  /** A string field is truthy when it is present and not empty. */
  predicate Truthy(field: Option<string>) {
    field.Some? && field.value != ""
  }

  /** `field || fallback` on an optional string field. */
  function OrElse(field: Option<string>, fallback: string): (r: string)
    ensures Truthy(field) ==> r == field.value
    ensures !Truthy(field) ==> r == fallback
  {
    if Truthy(field) then field.value else fallback
  }

  function Min(a: int, b: int): int {
    if a <= b then a else b
  }

  // ---------------------------------------------------------------------------
  // newGameState and trimHistory
  // ---------------------------------------------------------------------------

  /**
   * The state of a new session: full hp, the starting inventory and
   * location, no quests and no history; the hero's name and class are never
   * blank, and a blank backstory is stored as "".
   */
  function NewGameState(sheet: CharacterSheet, sessionId: string): (r: GameState)
    ensures r.sessionId == sessionId
    ensures r.hp == MaxHp && r.inventory == StartInventory && r.location == StartLocation
    ensures r.quests == [] && r.history == []
    ensures r.character.name != "" && r.character.className != ""
    ensures Truthy(sheet.name) ==> r.character.name == sheet.name.value
    ensures !Truthy(sheet.name) ==> r.character.name == DefaultName
    ensures Truthy(sheet.className) ==> r.character.className == sheet.className.value
    ensures !Truthy(sheet.className) ==> r.character.className == DefaultClassName
    ensures Truthy(sheet.backstory) ==> r.character.backstory == sheet.backstory.value
    ensures !Truthy(sheet.backstory) ==> r.character.backstory == ""
  {
    GameState(
      sessionId, MaxHp, StartInventory, StartLocation, [], [],
      Character(
        OrElse(sheet.name, DefaultName),
        OrElse(sheet.className, DefaultClassName),
        OrElse(sheet.backstory, "")))
  }

  /**
   * The newest `maxTurns` entries of the history: a suffix of it, of length
   * `min(|history|, maxTurns)`, and the history itself when it is short enough.
   */
  function TrimHistory<T>(history: seq<T>, maxTurns: nat := DefaultHistoryTurns): (r: seq<T>)
    ensures |r| == Min(|history|, maxTurns)
    ensures r == history[|history| - |r|..]
    ensures |history| <= maxTurns ==> r == history
  {
    if |history| > maxTurns then history[|history| - maxTurns..] else history
  }

  /** Trimming an already trimmed history changes nothing. */
  lemma TrimHistoryIdempotent<T>(history: seq<T>, maxTurns: nat)
    ensures TrimHistory(TrimHistory(history, maxTurns), maxTurns) == TrimHistory(history, maxTurns)
  {
  }

  // ---------------------------------------------------------------------------
  // The act handler's state rules
  // ---------------------------------------------------------------------------

  /** Every action that mentions "forest" also mentions "rest". */
  lemma ForestMentionsRest(lower: string)
    requires Includes(lower, "forest")
    ensures Includes(lower, "rest")
  {
    assert "forest"[2..] == "rest";
    IncludesSuffix(lower, "forest", 2);
  }

  /**
   * The keyword rules on the lower-cased action, in their order: "rest"
   * heals 2 hp up to 20, "forest" moves to the forest edge, "market" moves
   * to the market and wins over "forest". Only hp and location change.
   */
  function ApplyKeywords(state: GameState, lower: string): (r: GameState)
    ensures Includes(lower, "rest") ==> r.hp == Min(state.hp + RestHeal, MaxHp)
    ensures !Includes(lower, "rest") ==> r.hp == state.hp
    ensures r.hp <= MaxHp <==> (state.hp <= MaxHp || Includes(lower, "rest"))
    ensures Includes(lower, "forest") ==> r.hp == Min(state.hp + RestHeal, MaxHp)
    ensures Includes(lower, "market") ==> r.location == MarketLocation
    ensures Includes(lower, "forest") && !Includes(lower, "market") ==> r.location == ForestLocation
    ensures !Includes(lower, "forest") && !Includes(lower, "market") ==> r.location == state.location
    ensures r.(hp := state.hp, location := state.location) == state
  {
    if Includes(lower, "forest") then ForestMentionsRest(lower); Rules(state, lower)
    else Rules(state, lower)
  }

  /** The three rules applied one after the other. */
  function Rules(state: GameState, lower: string): GameState {
    var rested := if Includes(lower, "rest") then state.(hp := Min(state.hp + RestHeal, MaxHp)) else state;
    var wandered := if Includes(lower, "forest") then rested.(location := ForestLocation) else rested;
    if Includes(lower, "market") then wandered.(location := MarketLocation) else wandered
  }

  /**
   * The session's state after an action and before the model is called: the
   * keyword rules applied to the lower-cased action, and the action appended
   * as a user turn to a history kept to the newest 12 turns (see
   * `ActStateHistory`). Inventory, quests, character and session id are
   * untouched.
   */
  function ActState(state: GameState, action: string): (r: GameState)
    ensures r.hp == ApplyKeywords(state, ToLower(action)).hp
    ensures r.location == ApplyKeywords(state, ToLower(action)).location
    ensures r.hp <= MaxHp <==> (state.hp <= MaxHp || Includes(ToLower(action), "rest"))
    ensures r.sessionId == state.sessionId && r.inventory == state.inventory
    ensures r.quests == state.quests && r.character == state.character
  {
    var changed := ApplyKeywords(state, ToLower(action));
    changed.(history := TrimHistory(state.history + [Turn(UserRole, action)], ActHistoryTurns))
  }

  /**
   * After an action the history holds between 1 and 12 turns, one more than
   * before unless the window is full, and it is the newest part of the old
   * history followed by the action as a user turn.
   */
  lemma ActStateHistory(state: GameState, action: string)
    ensures var h := ActState(state, action).history;
      && 1 <= |h| <= ActHistoryTurns
      && |h| == Min(|state.history| + 1, ActHistoryTurns)
      && h[|h| - 1] == Turn(UserRole, action)
      && h == (state.history + [Turn(UserRole, action)])[|state.history| + 1 - |h|..]
  {
  }

  /**
   * The state with the model's narration appended as an assistant turn: the
   * old history is kept as a prefix, one turn follows it, and nothing but the
   * history changes.
   */
  function WithReply(state: GameState, dmText: string): (r: GameState)
    ensures |r.history| == |state.history| + 1
    ensures r.history[..|state.history|] == state.history
    ensures r.history[|state.history|] == Turn(AssistantRole, dmText)
    ensures r.(history := state.history) == state
  {
    state.(history := state.history + [Turn(AssistantRole, dmText)])
  }

  /**
   * After a whole turn the history holds at most 13 entries, ending with the
   * user's action and the model's reply, and the hp cap holds whenever it
   * held before.
   */
  lemma ActTurnShape(state: GameState, action: string, dmText: string)
    ensures var after := WithReply(ActState(state, action), dmText);
      && |after.history| <= ActHistoryTurns + 1
      && after.history[|after.history| - 1] == Turn(AssistantRole, dmText)
      && after.history[|after.history| - 2] == Turn(UserRole, action)
      && (state.hp <= MaxHp ==> after.hp <= MaxHp)
  {
  }

  /**
   * An action that says "forest" in any letter case and has no "m" at all
   * fires both the rest rule and the forest rule in the same turn.
   */
  lemma ForestActionRests(state: GameState, action: string, i: nat)
    requires i + 6 <= |action| && ToLower(action[i..i + 6]) == "forest"
    requires forall k | 0 <= k < |action| :: action[k] != 'm' && action[k] != 'M'
    ensures ActState(state, action).location == ForestLocation
    ensures ActState(state, action).hp == Min(state.hp + RestHeal, MaxHp)
  {
    LoweredIncludes(action, i, "forest");
    ToLowerAvoids(action, 'm');
    MissingCharExcludes(ToLower(action), "market", 0);
  }

  /** "Rest in the Forest" heals and moves the hero to the forest edge. */
  lemma RestInTheForest(state: GameState)
    ensures ActState(state, "Rest in the Forest").location == ForestLocation
    ensures ActState(state, "Rest in the Forest").hp == Min(state.hp + RestHeal, MaxHp)
  {
    assert "Rest in the Forest"[12..18] == "Forest";
    assert ToLower("Forest") == "forest";
    ForestActionRests(state, "Rest in the Forest", 12);
  }

  /**
   * An action that says "market" in any letter case and has no "s" at all
   * moves the hero to the market and leaves hp alone.
   */
  lemma MarketActionMoves(state: GameState, action: string, i: nat)
    requires i + 6 <= |action| && ToLower(action[i..i + 6]) == "market"
    requires forall k | 0 <= k < |action| :: action[k] != 's' && action[k] != 'S'
    ensures ActState(state, action).location == MarketLocation
    ensures ActState(state, action).hp == state.hp
  {
    LoweredIncludes(action, i, "market");
    ToLowerAvoids(action, 's');
    MissingCharExcludes(ToLower(action), "rest", 2);
  }

  /** "Go to the Market" moves the hero to the market and leaves hp alone. */
  lemma GoToTheMarket(state: GameState)
    ensures ActState(state, "Go to the Market").location == MarketLocation
    ensures ActState(state, "Go to the Market").hp == state.hp
  {
    assert "Go to the Market"[10..16] == "Market";
    assert ToLower("Market") == "market";
    MarketActionMoves(state, "Go to the Market", 10);
  }

  // ---------------------------------------------------------------------------
  // Messages for the model
  // ---------------------------------------------------------------------------

  /** The chat role of a history turn: "assistant" stays, anything else becomes "user". */
  function ChatRole(turn: Turn): (r: string)
    ensures r == AssistantRole || r == UserRole
    ensures r == AssistantRole <==> turn.role == AssistantRole
  {
    if turn.role == AssistantRole then AssistantRole else UserRole
  }

  /** The history as chat messages, one per turn in the same order, with each turn's text. */
  function ChatHistory(history: seq<Turn>): (r: seq<Message>)
    ensures |r| == |history|
    ensures forall i :: 0 <= i < |history| ==> r[i].content == history[i].text
    ensures forall i :: 0 <= i < |history| ==>
      (r[i].role == AssistantRole || r[i].role == UserRole)
      && (r[i].role == AssistantRole <==> history[i].role == AssistantRole)
  {
    if |history| == 0 then []
    else [Message(ChatRole(history[0]), history[0].text)] + ChatHistory(history[1..])
  }

  const BeginLine: string := "Begin the adventure:"
  const ChoicesLine: string := "End with 2\U{2013}3 choices."

  /**
   * The user message that asks for the opening scene: the line "Begin the
   * adventure:", the story seed's lines, and the closing line, joined by "\n".
   */
  function StartPrompt(character: Character): (r: string)
    ensures r == Join([BeginLine] + SeedLines(character) + [ChoicesLine], "\n")
  {
    JoinAppend([BeginLine], SeedLines(character), "\n");
    JoinSnoc([BeginLine] + SeedLines(character), ChoicesLine, "\n");
    BeginLine + "\n" + InitialStorySeed(character) + "\n" + ChoicesLine
  }

  /** The start handler's messages: the instructions, the primer and the request for an opening scene. */
  function StartMessages(state: GameState): (r: seq<Message>)
    ensures |r| == 3
    ensures r[0] == Message(SystemRole, SystemPrompt)
    ensures r[1] == Message(SystemRole, BuildStatePrimer(state))
    ensures r[2] == Message(UserRole, StartPrompt(state.character))
  {
    [Message(SystemRole, SystemPrompt), Message(SystemRole, BuildStatePrimer(state)),
     Message(UserRole, StartPrompt(state.character))]
  }

  /**
   * The act handler's messages, 2 + |history| + 1 of them: the instructions,
   * the primer of the updated state, then each history turn in order with its
   * text, keeping the role "assistant" and turning any other role into
   * "user", and last the request to continue.
   */
  function ActMessages(state: GameState): (r: seq<Message>)
    ensures |r| == 2 + |state.history| + 1
    ensures r[0] == Message(SystemRole, SystemPrompt)
    ensures r[1] == Message(SystemRole, BuildStatePrimer(state))
    ensures r[|r| - 1] == Message(UserRole, ContinuePrompt)
    ensures forall i :: 0 <= i < |state.history| ==>
      && r[2 + i].content == state.history[i].text
      && (r[2 + i].role == AssistantRole || r[2 + i].role == UserRole)
      && (r[2 + i].role == AssistantRole <==> state.history[i].role == AssistantRole)
  {
    [Message(SystemRole, SystemPrompt), Message(SystemRole, BuildStatePrimer(state))]
    + ChatHistory(state.history)
    + [Message(UserRole, ContinuePrompt)]
  }

  /**
   * The act handler's in-place update of a state, step by step: the three
   * keyword rules on the lower-cased action, then the user turn appended and
   * the history trimmed to 12 turns.
   */
  method UpdateForAction(stored: GameState, action: string) returns (state: GameState)
    ensures state == ActState(stored, action)
  {
    state := stored;
    var lower := ToLower(action);
    if Includes(lower, "rest") {
      state := state.(hp := Min(state.hp + RestHeal, MaxHp));
    }
    if Includes(lower, "forest") {
      state := state.(location := ForestLocation);
    }
    if Includes(lower, "market") {
      state := state.(location := MarketLocation);
    }
    assert state == ApplyKeywords(stored, lower);
    state := state.(history := TrimHistory(state.history + [Turn(UserRole, action)], ActHistoryTurns));
  }

  // ---------------------------------------------------------------------------
  // The session store and its handlers
  // ---------------------------------------------------------------------------

  /** Every session is stored under its own, non-empty id. */
  ghost predicate KeyedById(sessions: map<string, GameState>) {
    forall id :: id in sessions ==> id != "" && sessions[id].sessionId == id
  }

  /** No stored session has more than the maximum hp. */
  ghost predicate Capped(sessions: map<string, GameState>) {
    forall id :: id in sessions ==> sessions[id].hp <= MaxHp
  }

  /** Storing a state under its own non-empty id keeps both store invariants. */
  lemma StoreKeeps(sessions: map<string, GameState>, state: GameState)
    requires KeyedById(sessions) && state.sessionId != ""
    ensures KeyedById(sessions[state.sessionId := state])
    ensures Capped(sessions) && state.hp <= MaxHp ==> Capped(sessions[state.sessionId := state])
  {
  }

  /** Storing twice under one key keeps only the second state. */
  lemma StoreTwice(sessions: map<string, GameState>, id: string, first: GameState, second: GameState)
    ensures sessions[id := first][id := second] == sessions[id := second]
  {
  }

  /** The in-memory map from session id to game state, and the handlers that use it. */
  class SessionStore {
    var sessions: map<string, GameState>
    const model: string

    /** Every session is stored under its own, non-empty id. */
    ghost predicate Valid()
      reads this
    {
      KeyedById(sessions)
    }

    /** No stored session has more than the maximum hp. */
    ghost predicate HpCapped()
      reads this
    {
      Capped(sessions)
    }

    /** An empty store talking to the configured model (or "llama3"). */
    constructor (configuredModel: Option<string>)
      ensures Valid() && HpCapped()
      ensures sessions == map[]
      ensures model == ModelName(configuredModel)
    {
      sessions := map[];
      model := ModelName(configuredModel);
    }

    /**
     * One call to the model for a session's state. On success the reply is
     * appended to the state's history as an assistant turn and the state is
     * stored under its id; on a failure the store is left as it was.
     */
    method Narrate(state: GameState, messages: seq<Message>, endpoint: ChatEndpoint)
      returns (reply: Result<string, string>)
      requires Valid()
      requires state.sessionId != ""
      modifies this
      ensures Valid()
      ensures old(HpCapped()) && state.hp <= MaxHp ==> HpCapped()
      ensures reply == CallModel(endpoint, model, messages)
      ensures reply.Failure? ==> sessions == old(sessions)
      ensures reply.Success? ==> sessions == old(sessions)[state.sessionId := WithReply(state, reply.value)]
    {
      reply := CallModel(endpoint, model, messages);
      if reply.Success? {
        var dmText := reply.value;
        var answered := state.(history := state.history + [Turn(AssistantRole, dmText)]);
        StoreKeeps(sessions, answered);
        sessions := sessions[answered.sessionId := answered];
      }
    }

    /**
     * POST /api/start. `freshId` stands for the generated id. The new session
     * is stored only once the model has answered; on a failure the store is
     * unchanged and the answer is a 500.
     */
    method Start(sheet: CharacterSheet, freshId: string, endpoint: ChatEndpoint) returns (r: Response)
      requires Valid()
      requires freshId != "" && freshId !in sessions
      modifies this
      ensures Valid()
      ensures old(HpCapped()) ==> HpCapped()
      ensures var state := NewGameState(sheet, freshId);
        var reply := CallModel(endpoint, model, StartMessages(state));
        && (reply.Failure? ==> r == Failed(500, reply.error) && sessions == old(sessions))
        && (reply.Success? ==>
              && sessions == old(sessions)[freshId := WithReply(state, reply.value)]
              && r == Started(freshId, WithReply(state, reply.value), reply.value))
    {
      var state := NewGameState(sheet, freshId);
      var reply := Narrate(state, StartMessages(state), endpoint);
      if reply.Failure? {
        r := Failed(500, reply.error);
      } else {
        r := Started(state.sessionId, WithReply(state, reply.value), reply.value);
      }
    }

    /**
     * POST /api/act. A missing or empty id or action is a 400 and an unknown
     * id a 404, both leaving the store alone. Otherwise the stored state is
     * updated in place by the keyword rules and the history trim before the
     * model is called, so a failed call still leaves that update behind (and
     * answers 500); a successful one appends the reply.
     */
    method Act(sessionId: Option<string>, action: Option<string>, endpoint: ChatEndpoint)
      returns (r: Response)
      requires Valid()
      modifies this
      ensures Valid()
      ensures old(HpCapped()) ==> HpCapped()
      ensures !Truthy(sessionId) || !Truthy(action) ==>
        r == Failed(400, MissingFields) && sessions == old(sessions)
      ensures Truthy(sessionId) && Truthy(action) && sessionId.value !in old(sessions) ==>
        r == Failed(404, SessionNotFound) && sessions == old(sessions)
      ensures Truthy(sessionId) && Truthy(action) && sessionId.value in old(sessions) ==>
        var id := sessionId.value;
        var state := ActState(old(sessions)[id], action.value);
        var reply := CallModel(endpoint, model, ActMessages(state));
        && (reply.Failure? ==> r == Failed(500, reply.error) && sessions == old(sessions)[id := state])
        && (reply.Success? ==>
              && sessions == old(sessions)[id := WithReply(state, reply.value)]
              && r == Acted(WithReply(state, reply.value), reply.value))
    {
      if !Truthy(sessionId) || !Truthy(action) {
        r := Failed(400, MissingFields);
        return;
      }
      var id, text := sessionId.value, action.value;
      if id !in sessions {
        r := Failed(404, SessionNotFound);
        return;
      }
      var state := UpdateForAction(sessions[id], text);
      StoreKeeps(sessions, state);
      // The handler mutates the stored object itself, so the store holds
      // this state from here on, whatever the model call does.
      sessions := sessions[id := state];
      var reply := Narrate(state, ActMessages(state), endpoint);
      if reply.Failure? {
        r := Failed(500, reply.error);
      } else {
        StoreTwice(old(sessions), id, state, WithReply(state, reply.value));
        r := Acted(WithReply(state, reply.value), reply.value);
      }
    }

    /** GET /api/export/:sessionId: the stored state verbatim, or a 404. */
    method Export(sessionId: string) returns (r: Response)
      ensures sessionId in sessions ==> r == Exported(sessions[sessionId])
      ensures sessionId !in sessions ==> r == Failed(404, SessionNotFound)
    {
      if sessionId !in sessions {
        r := Failed(404, SessionNotFound);
      } else {
        r := Exported(sessions[sessionId]);
      }
    }

    /**
     * POST /api/import: a payload with a session id is installed as given
     * under that id, replacing any session stored there; one without an id is
     * a 400 and changes nothing.
     */
    method Import(payload: GameState) returns (r: Response)
      requires Valid()
      modifies this
      ensures Valid()
      ensures payload.sessionId == "" ==> r == Failed(400, InvalidState) && sessions == old(sessions)
      ensures payload.sessionId != "" ==>
        r == Imported(payload.sessionId) && sessions == old(sessions)[payload.sessionId := payload]
      ensures old(HpCapped()) && payload.hp <= MaxHp ==> HpCapped()
    {
      if payload.sessionId == "" {
        r := Failed(400, InvalidState);
        return;
      }
      StoreKeeps(sessions, payload);
      sessions := sessions[payload.sessionId := payload];
      r := Imported(payload.sessionId);
    }
  }

  /** Exporting a session right after importing it gives back exactly the imported state. */
  method ImportThenExport(store: SessionStore, payload: GameState) returns (r: Response)
    requires store.Valid()
    requires payload.sessionId != ""
    modifies store
    ensures store.Valid()
    ensures r == Exported(payload)
  {
    var ack := store.Import(payload);
    r := store.Export(payload.sessionId);
  }
}
