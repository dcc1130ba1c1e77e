/**
 * The session data the server keeps: one `GameState` per session, with the
 * character sheet fixed at creation and a history of role-tagged turns.
 */
module GameModel {

  /**
   * One turn of the history. The server writes only the roles "user" and
   * "assistant", but an imported save can carry any role string.
   */
  datatype Turn = Turn(role: string, text: string)

  /** The character sheet, set once when the session starts. */
  datatype Character = Character(name: string, className: string, backstory: string)

  /** The whole state of one session, as exported and imported. */
  datatype GameState = GameState(
    sessionId: string,
    hp: int,
    inventory: seq<string>,
    location: string,
    quests: seq<string>,
    history: seq<Turn>,
    character: Character)
}
