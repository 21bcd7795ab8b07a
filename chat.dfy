/**
 The chat session of `useChat` (src/hooks/useChat.ts): the message log, the
 loading flag, the recall buffer of submitted inputs with its cursor, and the
 local-storage entry holding the log. React's state updates are modelled as
 sequential assignments to the fields of one `ChatSession` object.
 */
module Chat {
  import opened Types
  import opened Text
  import BotReplies

  const ChatStorageKey := "zerocode_chat_history"

  /** The recall buffer keeps the 50 most recent inputs. */
  const HistoryLimit := 50

  /** The arrow key pressed while browsing the recall buffer. */
  datatype Direction = Up | Down

  /** How the awaited reply ends: delivered, with the template pick it used, or thrown. */
  datatype ReplyOutcome = Delivered(pick: BotReplies.TemplateIndex) | Failed

  function Min(a: int, b: int): int { if a <= b then a else b }
  function Max(a: int, b: int): int { if a >= b then a else b }

  /**
   The recall buffer after submitting `content`: the raw input in front, then
   the newest 49 of the previous entries; the oldest entry is dropped once 50
   are kept.
   */
  function PushHistory(history: seq<string>, content: string): (r: seq<string>)
    ensures 0 < |r| <= HistoryLimit && r[0] == content
    ensures |history| < HistoryLimit ==> |r| == |history| + 1
    ensures |history| >= HistoryLimit ==> |r| == HistoryLimit
    ensures forall k | 0 <= k < |r| - 1 :: r[k + 1] == history[k]
  {
    [content] + history[..Min(|history|, HistoryLimit - 1)]
  }

  /**
   The recall cursor after one arrow key. `Up` moves one step towards older
   entries but not past the oldest; `Down` moves one step towards -1 (not
   browsing) but not below it.
   */
  function MoveCursor(index: int, length: nat, dir: Direction): (r: int)
    ensures -1 <= index < length ==> -1 <= r < length
    ensures dir == Up && index + 1 < length ==> r == index + 1
    ensures dir == Up && length > 0 && index + 1 >= length ==> r == length - 1
    ensures dir == Down && index >= 0 ==> r == index - 1
    ensures dir == Down && index < 0 ==> r == -1
  {
    match dir
    case Up => Min(index + 1, length - 1)
    case Down => Max(index - 1, -1)
  }

  /** What the input box shows for cursor `index`: the entry there, or the empty string at -1. */
  function RecallItem(history: seq<string>, index: int): string {
    if 0 <= index < |history| then history[index] else ""
  }

  /** The texts shown by `k` presses of `Up` starting from cursor `index`. */
  function UpPresses(history: seq<string>, index: int, k: nat): seq<string>
    decreases k
  {
    if k == 0 then []
    else
      var next := MoveCursor(index, |history|, Up);
      [RecallItem(history, next)] + UpPresses(history, next, k - 1)
  }

  /** Pressing `Up` `k` times from cursor `index` shows the next `k` entries, in order. */
  lemma {:induction false} UpPressesWalkHistory(history: seq<string>, index: int, k: nat)
    requires -1 <= index && index + k < |history|
    ensures UpPresses(history, index, k) == history[index + 1..index + 1 + k]
    decreases k
  {
    if k > 0 {
      assert MoveCursor(index, |history|, Up) == index + 1;
      UpPressesWalkHistory(history, index + 1, k - 1);
    }
  }

  /**
   From the not-browsing position, pressing `Up` once per entry shows every
   entry exactly once, newest first; one more press stays on the oldest.
   */
  lemma RecallWholeHistory(history: seq<string>)
    requires history != []
    ensures UpPresses(history, -1, |history|) == history
    ensures MoveCursor(|history| - 1, |history|, Up) == |history| - 1
    ensures RecallItem(history, MoveCursor(|history| - 1, |history|, Up)) == history[|history| - 1]
  {
    UpPressesWalkHistory(history, -1, |history|);
  }

  class ChatSession {
    var messages: seq<Message>
    var isLoading: bool
    var inputHistory: seq<string>
    var currentHistoryIndex: int
    /** The browser's local storage as this hook sees it; it writes only the chat key. */
    var storage: Storage

    /** The recall buffer is capped and the cursor is -1 or a position in it. */
    predicate Valid()
      reads this
    {
      |inputHistory| <= HistoryLimit && -1 <= currentHistoryIndex < |inputHistory|
    }

    /**
     A fresh session hydrated from `store`: a parsed message log under the chat
     key becomes the messages; anything else (no entry, or an entry that does
     not parse as a log) leaves the log empty and the entry in place.
     */
    constructor (store: Storage)
      ensures Valid()
      ensures storage == store && !isLoading
      ensures inputHistory == [] && currentHistoryIndex == -1
      ensures ChatStorageKey in store && store[ChatStorageKey].ChatLog? ==>
                messages == store[ChatStorageKey].messages
      ensures !(ChatStorageKey in store && store[ChatStorageKey].ChatLog?) ==> messages == []
    {
      messages := [];
      isLoading := false;
      inputHistory := [];
      currentHistoryIndex := -1;
      storage := store;
      if ChatStorageKey in store {
        match store[ChatStorageKey]
        case ChatLog(log) =>
          messages := log;
        case _ =>
      }
    }

    /**
     The synchronous half of `sendMessage`. Blank input changes nothing.
     Otherwise the trimmed text is appended as a user message, the session is
     marked loading, the raw text is pushed onto the recall buffer and the
     cursor is reset. There is no check of `isLoading` here.
     */
    method BeginSend(content: string, id: string, sentAt: Timestamp) returns (started: bool)
      requires Valid()
      modifies this
      ensures Valid()
      ensures started == (Trim(content) != [])
      ensures !started ==> unchanged(this)
      ensures started ==> messages == old(messages) + [Message(id, Trim(content), SentByUser, sentAt)]
      ensures started ==> isLoading && currentHistoryIndex == -1
      ensures started ==> inputHistory == PushHistory(old(inputHistory), content)
      ensures storage == old(storage)
    {
      var trimmed := Trim(content);
      if trimmed == [] {
        return false;
      }
      messages := messages + [Message(id, trimmed, SentByUser, sentAt)];
      isLoading := true;
      inputHistory := PushHistory(inputHistory, content);
      currentHistoryIndex := -1;
      started := true;
    }

    /**
     The reply arrived: it is appended as a bot message after whatever the log
     holds now, loading ends, and the whole log is written under the chat key.
     */
    method CompleteReply(reply: string, id: string, repliedAt: Timestamp)
      requires Valid()
      modifies this
      ensures Valid()
      ensures messages == old(messages) + [Message(id, reply, SentByBot, repliedAt)]
      ensures !isLoading
      ensures storage == old(storage)[ChatStorageKey := ChatLog(messages)]
      ensures inputHistory == old(inputHistory) && currentHistoryIndex == old(currentHistoryIndex)
    {
      messages := messages + [Message(id, reply, SentByBot, repliedAt)];
      storage := storage[ChatStorageKey := ChatLog(messages)];
      isLoading := false;
    }

    /** The reply failed: loading ends and nothing else changes; the error is only logged. */
    method FailReply()
      requires Valid()
      modifies this`isLoading
      ensures Valid() && !isLoading
    {
      isLoading := false;
    }

    /**
     The awaited half of `sendMessage` (the `try`/`catch` around the reply): a
     delivered reply to the raw input `content` is appended as a bot message and
     the log is saved; a failure only ends loading.
     */
    method SettleReply(content: string, outcome: ReplyOutcome, replyId: string, repliedAt: Timestamp)
      requires Valid()
      modifies this
      ensures Valid() && !isLoading
      ensures inputHistory == old(inputHistory) && currentHistoryIndex == old(currentHistoryIndex)
      ensures outcome.Delivered? ==>
                messages == old(messages) + [Message(replyId, BotReplies.Respond(content, outcome.pick), SentByBot, repliedAt)] &&
                storage == old(storage)[ChatStorageKey := ChatLog(messages)]
      ensures outcome.Failed? ==> messages == old(messages) && storage == old(storage)
    {
      match outcome
      case Delivered(pick) =>
        var reply := BotReplies.Respond(content, pick);
        CompleteReply(reply, replyId, repliedAt);
      case Failed =>
        FailReply();
    }

    /**
     `sendMessage` run to completion: blank input changes nothing; otherwise the
     user message and then either the bot reply or nothing are appended, and the
     log is saved only when the reply is delivered.
     */
    method SendMessage(content: string, outcome: ReplyOutcome,
                       sentId: string, sentAt: Timestamp, replyId: string, repliedAt: Timestamp)
      requires Valid()
      modifies this
      ensures Valid()
      ensures Trim(content) == [] ==> unchanged(this)
      ensures Trim(content) != [] ==>
                !isLoading && currentHistoryIndex == -1 &&
                inputHistory == PushHistory(old(inputHistory), content)
      ensures Trim(content) != [] && outcome.Delivered? ==>
                messages == old(messages) + [Message(sentId, Trim(content), SentByUser, sentAt)]
                                          + [Message(replyId, BotReplies.Respond(content, outcome.pick), SentByBot, repliedAt)] &&
                storage == old(storage)[ChatStorageKey := ChatLog(messages)]
      ensures Trim(content) != [] && outcome.Failed? ==>
                messages == old(messages) + [Message(sentId, Trim(content), SentByUser, sentAt)] &&
                storage == old(storage)
    {
      var started := BeginSend(content, sentId, sentAt);
      if started {
        SettleReply(content, outcome, replyId, repliedAt);
      }
    }

    /** `clearChat`: the log becomes empty and the chat entry leaves storage; recall survives. */
    method ClearChat()
      requires Valid()
      modifies this`messages, this`storage
      ensures Valid()
      ensures messages == [] && storage == old(storage) - {ChatStorageKey}
    {
      messages := [];
      storage := storage - {ChatStorageKey};
    }

    /** `getHistoryItem`: moves the recall cursor one step and returns the text to show. */
    method GetHistoryItem(dir: Direction) returns (item: string)
      requires Valid()
      modifies this`currentHistoryIndex
      ensures Valid()
      ensures currentHistoryIndex == MoveCursor(old(currentHistoryIndex), |inputHistory|, dir)
      ensures item == RecallItem(inputHistory, currentHistoryIndex)
    {
      var newIndex;
      if dir == Up {
        newIndex := Min(currentHistoryIndex + 1, |inputHistory| - 1);
      } else {
        newIndex := Max(currentHistoryIndex - 1, -1);
      }
      currentHistoryIndex := newIndex;
      item := if newIndex >= 0 then inputHistory[newIndex] else "";
    }
  }

  /**
   A session that sends a message and receives a reply, then a second session
   hydrated from the storage the first one left: the reload yields exactly the
   two messages.
   */
  method ReloadAfterReply(content: string, reply: string, sentAt: Timestamp, repliedAt: Timestamp)
    returns (restored: seq<Message>)
    requires Trim(content) != []
    ensures |restored| == 2
    ensures restored[0] == Message("1", Trim(content), SentByUser, sentAt)
    ensures restored[1] == Message("2", reply, SentByBot, repliedAt)
  {
    var session := new ChatSession(map[]);
    var started := session.BeginSend(content, "1", sentAt);
    session.CompleteReply(reply, "2", repliedAt);
    var reloaded := new ChatSession(session.storage);
    restored := reloaded.messages;
  }

  /** Whatever storage a session starts from, clearing it makes the next session load an empty log. */
  method ReloadAfterClear(store: Storage) returns (restored: seq<Message>)
    ensures restored == []
  {
    var session := new ChatSession(store);
    session.ClearChat();
    var reloaded := new ChatSession(session.storage);
    restored := reloaded.messages;
  }
}
