/**
 The records shared by the chat and authentication hooks (src/types/index.ts),
 and the shape of what the browser's local storage holds under the two keys the
 application uses.
 */
module Types {

  datatype Option<+T> = None | Some(value: T)

  /** A point in time; `Date` values are opaque to the model. */
  type Timestamp = int

  /** Who wrote a chat message: `'user' | 'bot'`. */
  datatype Sender = SentByUser | SentByBot

  datatype Message = Message(id: string, content: string, sender: Sender, timestamp: Timestamp)

  datatype User = User(id: string, email: string, name: string, avatar: Option<string>)

  /** `user` and `token` are `null` when absent. */
  datatype AuthState = AuthState(user: Option<User>, token: Option<string>, isAuthenticated: bool)

  /**
   A value held by local storage, described by what `JSON.parse` makes of it:
   a message log written by the chat hook, an authentication record written by
   the auth hook, or text that does not parse (possibly the empty string).
   */
  datatype Stored =
    | ChatLog(messages: seq<Message>)
    | AuthRecord(state: AuthState)
    | Unparsable(text: string)

  type Storage = map<string, Stored>
}
