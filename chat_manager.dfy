/** The chat business logic behind the web pages: a bounded history kept in
    the session state as `(timestamp, user, reply)` tuples, mirrored under a
    persistent key, read back as messages and exported as text; and the
    response generator that answers through a lazily loaded character. */
module Chat {
  import opened Common

  // ---------------------------------------------------------------------------
  // Messages and the tuples stored for them
  // ---------------------------------------------------------------------------

  /** `ChatMessage`. */
  datatype ChatMessage = ChatMessage(
    timestamp: string,
    userMessage: string,
    aiResponse: string,
    responseTime: Option<real>,
    modelInfo: Option<string>)

  /** `to_tuple`: the three text fields, in order. */
  function ToTuple(m: ChatMessage): (t: seq<string>)
    ensures |t| == 3
  {
    [m.timestamp, m.userMessage, m.aiResponse]
  }

  /** `ChatMessage.from_tuple`: the first three fields; the rest is dropped. */
  function FromTuple(t: seq<string>): (m: ChatMessage)
    requires |t| >= 3
    ensures m.responseTime.None? && m.modelInfo.None?
  {
    ChatMessage(t[0], t[1], t[2], None, None)
  }

  /** A message survives the tuple form except for its timing and model. */
  lemma TupleRoundTrip(m: ChatMessage)
    ensures FromTuple(ToTuple(m)) == m.(responseTime := None, modelInfo := None)
    ensures FromTuple(ToTuple(m)) == m <==> m.responseTime.None? && m.modelInfo.None?
  {
  }

  /** One element of the session's history list: a tuple (of any length), a
      `ChatMessage`, or anything else. */
  datatype Item = TupleItem(parts: seq<string>) | MessageItem(msg: ChatMessage) | OtherItem

  /** What `get_history` makes of one element. */
  function Converted(item: Item): (r: seq<ChatMessage>)
    ensures |r| <= 1
  {
    match item
    case TupleItem(parts) => if |parts| >= 3 then [FromTuple(parts)] else []
    case MessageItem(m) => [m]
    case OtherItem => []
  }

  /** `get_history`'s result for a session list. */
  function Messages(items: seq<Item>): (r: seq<ChatMessage>)
    ensures |r| <= |items|
  {
    if items == [] then []
    else Messages(items[..|items| - 1]) + Converted(items[|items| - 1])
  }

  /** Reading one more item of a list. */
  lemma MessagesSnoc(items: seq<Item>, i: nat)
    requires i < |items|
    ensures Messages(items[..i + 1]) == Messages(items[..i]) + Converted(items[i])
  {
    assert items[..i + 1][..i] == items[..i];
  }

  /** Reading a list in two pieces. */
  lemma {:induction false} MessagesConcat(a: seq<Item>, b: seq<Item>)
    ensures Messages(a + b) == Messages(a) + Messages(b)
    decreases |b|
  {
    if b != [] {
      var n := |b| - 1;
      assert (a + b)[..|a + b| - 1] == a + b[..n];
      assert (a + b)[|a + b| - 1] == b[n];
      MessagesConcat(a, b[..n]);
      assert Messages(b) == Messages(b[..n]) + Converted(b[n]);
      assert Messages(a + b) == Messages(a + b[..n]) + Converted(b[n]);
    } else {
      assert a + b == a;
    }
  }

  /** A list of well-formed tuples reads back one message per tuple, in order;
      an element that is neither a long-enough tuple nor a message is dropped. */
  lemma {:induction false} MessagesOfTuples(items: seq<Item>)
    requires forall i :: 0 <= i < |items| ==> items[i].TupleItem? && |items[i].parts| >= 3
    ensures |Messages(items)| == |items|
    ensures forall i :: 0 <= i < |items| ==> Messages(items)[i] == FromTuple(items[i].parts)
  {
    if items != [] {
      MessagesOfTuples(items[..|items| - 1]);
    }
  }

  lemma DroppedItems(items: seq<Item>, item: Item)
    requires item.OtherItem? || (item.TupleItem? && |item.parts| < 3)
    ensures Messages(items + [item]) == Messages(items)
  {
    assert (items + [item])[..|items|] == items;
  }

  /** `history[-max_history:]` when the list is longer than `max_history`. */
  function Trimmed(h: seq<Item>, maxHistory: int): (r: seq<Item>)
    ensures |r| <= |h|
    ensures r == h[|h| - |r|..]
    ensures maxHistory > 0 ==> |r| == if |h| > maxHistory then maxHistory else |h|
  {
    if |h| > maxHistory then PyTail(h, maxHistory) else h
  }

  /** Trimming keeps the newest messages: what is read back from the trimmed
      list is a suffix of what the whole list reads as. */
  lemma TrimmedMessagesSuffix(h: seq<Item>, maxHistory: int)
    ensures var all := Messages(h); var kept := Messages(Trimmed(h, maxHistory));
      |kept| <= |all| && kept == all[|all| - |kept|..]
  {
    var r := Trimmed(h, maxHistory);
    var k := |h| - |r|;
    assert h == h[..k] + r;
    MessagesConcat(h[..k], r);
  }

  /** After adding a message with a positive bound, the history read back
      holds at most that many messages and ends with the new one (without its
      timing and model). */
  lemma AddThenRead(h: seq<Item>, m: ChatMessage, maxHistory: int)
    requires maxHistory > 0
    ensures var after := Messages(Trimmed(h + [TupleItem(ToTuple(m))], maxHistory));
      |after| <= maxHistory && after != [] && after[|after| - 1] == m.(responseTime := None, modelInfo := None)
  {
    var r := Trimmed(h + [TupleItem(ToTuple(m))], maxHistory);
    assert r[|r| - 1] == TupleItem(ToTuple(m));
  }

  // ---------------------------------------------------------------------------
  // Export
  // ---------------------------------------------------------------------------

  const NoHistory: string := "履歴がありません。"
  const ExportHeader: string := "=== ルリとの会話履歴 ===\n\n"

  /** One exported message. */
  function Block(m: ChatMessage): string
  {
    "[" + m.timestamp + "]\n" + "あなた: " + m.userMessage + "\n" + "ルリ: " + m.aiResponse + "\n\n"
  }

  function Blocks(ms: seq<ChatMessage>): string
  {
    if ms == [] then "" else Blocks(ms[..|ms| - 1]) + Block(ms[|ms| - 1])
  }

  lemma BlocksSnoc(ms: seq<ChatMessage>, i: nat)
    requires i < |ms|
    ensures Blocks(ms[..i + 1]) == Blocks(ms[..i]) + Block(ms[i])
  {
    assert ms[..i + 1][..i] == ms[..i];
  }

  /** `export_history`'s text for these messages. */
  function Export(ms: seq<ChatMessage>): string
  {
    if ms == [] then NoHistory else ExportHeader + Blocks(ms)
  }

  /** The blocks of the first `k` messages start the blocks of all of them. */
  lemma {:induction false} BlocksPrefix(ms: seq<ChatMessage>, k: nat)
    requires k <= |ms|
    ensures IsPrefix(Blocks(ms[..k]), Blocks(ms))
    decreases |ms| - k
  {
    if k == |ms| {
      assert ms[..k] == ms;
      PrefixOfConcat(Blocks(ms), "");
      assert Blocks(ms) + "" == Blocks(ms);
    } else {
      var n := |ms| - 1;
      BlocksPrefix(ms[..n], k);
      assert ms[..n][..k] == ms[..k];
      PrefixOfConcat(Blocks(ms[..n]), Block(ms[n]));
      PrefixTrans(Blocks(ms[..k]), Blocks(ms[..n]), Blocks(ms));
    }
  }

  /** The "no history" text is exactly the export of no messages; otherwise
      the header comes first and message `i`'s block follows the blocks of
      the messages before it. */
  lemma ExportShape(ms: seq<ChatMessage>, i: nat)
    ensures Export(ms) == NoHistory <==> ms == []
    ensures ms != [] ==> IsPrefix(ExportHeader, Export(ms))
    ensures i < |ms| ==> IsPrefix(ExportHeader + Blocks(ms[..i]) + Block(ms[i]), Export(ms))
  {
    if ms != [] {
      assert Export(ms)[0] == '=' && NoHistory[0] == '履';
      PrefixOfConcat(ExportHeader, Blocks(ms));
    }
    if i < |ms| {
      BlocksPrefix(ms, i + 1);
      BlocksSnoc(ms, i);
      PrefixUnderHead(ExportHeader, Blocks(ms[..i + 1]), Blocks(ms));
      assert ExportHeader + Blocks(ms[..i + 1]) == ExportHeader + Blocks(ms[..i]) + Block(ms[i]);
    }
  }

  // ---------------------------------------------------------------------------
  // The session state and the manager
  // ---------------------------------------------------------------------------

  /** `st.session_state`, as far as the chat uses it. */
  class Session {
    var state: map<string, seq<Item>>

    constructor ()
      ensures state == map[]
    {
      state := map[];
    }
  }

  const PersistentPrefix: string := "persistent_"

  /** The persistent mirror never shares the history's key. */
  lemma PersistentKeyDiffers(key: string)
    ensures PersistentPrefix + key != key
  {
    assert |PersistentPrefix + key| != |key|;
  }

  class ChatManager {
    const key: string
    const maxHistory: int
    const session: Session

    function PersistentKey(): (k: string)
      ensures k != key
    {
      PersistentKeyDiffers(key);
      PersistentPrefix + key
    }

    /** `st.session_state.get(session_state_key, [])`. */
    function Stored(): seq<Item>
      reads this, session
    {
      if key in session.state then session.state[key] else []
    }

    /** `ChatManager(session_state_key, max_history)`: both keys exist afterwards;
        what was already stored is kept. */
    constructor (session: Session, key: string, maxHistory: int)
      modifies session
      ensures this.session == session && this.key == key && this.maxHistory == maxHistory
      ensures key in session.state && session.state[key] == (if key in old(session.state) then old(session.state)[key] else [])
      ensures PersistentKey() in session.state
      ensures PersistentKey() in old(session.state) ==> session.state[PersistentKey()] == old(session.state)[PersistentKey()]
      ensures PersistentKey() !in old(session.state) ==> session.state[PersistentKey()] == []
      ensures forall k :: k != key && k != PersistentKey() ==> (k in session.state <==> k in old(session.state))
      ensures forall k :: k != key && k != PersistentKey() && k in session.state ==> session.state[k] == old(session.state)[k]
    {
      this.session := session;
      this.key := key;
      this.maxHistory := maxHistory;
      new;
      if key !in session.state {
        session.state := session.state[key := []];
      }
      if PersistentKey() !in session.state {
        session.state := session.state[PersistentKey() := []];
      }
    }

    /** `get_history`: the stored list read as messages, in order. */
    method GetHistory() returns (messages: seq<ChatMessage>)
      ensures messages == Messages(Stored())
    {
      var items := Stored();
      messages := [];
      var i := 0;
      while i < |items|
        invariant 0 <= i <= |items|
        invariant messages == Messages(items[..i])
      {
        MessagesSnoc(items, i);
        match items[i] {
          case TupleItem(parts) =>
            if |parts| >= 3 {
              messages := messages + [FromTuple(parts)];
            }
          case MessageItem(m) =>
            messages := messages + [m];
          case OtherItem =>
        }
        i := i + 1;
      }
      assert items[..i] == items;
    }

    /** `add_message`: the message is stored as a tuple, the list trimmed to
        the `max_history` most recent, and the persistent key given a copy. */
    method AddMessage(user: string, ai: string, responseTime: Option<real>, modelInfo: Option<string>, now: string)
      returns (m: ChatMessage)
      modifies session
      ensures m == ChatMessage(now, user, ai, responseTime, modelInfo)
      ensures session.state == old(session.state)[key := Trimmed(old(Stored()) + [TupleItem(ToTuple(m))], maxHistory)]
                                                 [PersistentKey() := Trimmed(old(Stored()) + [TupleItem(ToTuple(m))], maxHistory)]
      ensures key in session.state && PersistentKey() in session.state
      ensures session.state[key] == session.state[PersistentKey()]
    {
      m := ChatMessage(now, user, ai, responseTime, modelInfo);
      var history := Stored();
      history := history + [TupleItem(ToTuple(m))];
      if |history| > maxHistory {
        history := PyTail(history, maxHistory);
      }
      session.state := session.state[key := history];
      SaveToPersistent();
    }

    /** `clear_history`: both keys hold an empty list. */
    method ClearHistory()
      modifies session
      ensures session.state == old(session.state)[key := []][PersistentKey() := []]
      ensures Stored() == []
    {
      session.state := session.state[key := []];
      SaveToPersistent();
    }

    /** `_save_to_persistent`: copy the history to the persistent key (a
        missing history raises inside the `try` and changes nothing). */
    method SaveToPersistent()
      modifies session
      ensures key in old(session.state) ==> session.state == old(session.state)[PersistentKey() := old(session.state)[key]]
      ensures key !in old(session.state) ==> session.state == old(session.state)
    {
      if key in session.state {
        session.state := session.state[PersistentKey() := session.state[key]];
      }
    }

    /** `_load_from_persistent`: restore the history from its copy, if any. */
    method LoadFromPersistent()
      modifies session
      ensures PersistentKey() in old(session.state) ==>
        session.state == old(session.state)[key := old(session.state)[PersistentKey()]]
      ensures PersistentKey() !in old(session.state) ==> session.state == old(session.state)
    {
      if PersistentKey() in session.state {
        session.state := session.state[key := session.state[PersistentKey()]];
      }
    }

    /** `export_history`. */
    method ExportHistory() returns (text: string)
      ensures text == Export(Messages(Stored()))
    {
      var messages := GetHistory();
      if messages == [] {
        return NoHistory;
      }
      text := Render(ExportHeader, messages);
    }
  }

  /** The loop of `export_history`: the blocks appended to the header. */
  method Render(header: string, messages: seq<ChatMessage>) returns (text: string)
    ensures text == header + Blocks(messages)
  {
    text := header;
    var i := 0;
    while i < |messages|
      invariant 0 <= i <= |messages|
      invariant text == header + Blocks(messages[..i])
    {
      BlocksSnoc(messages, i);
      text := text + Block(messages[i]);
      i := i + 1;
    }
    assert messages[..i] == messages;
  }

  // ---------------------------------------------------------------------------
  // The response generator
  // ---------------------------------------------------------------------------

  /** What `_get_ruri_character` has loaded: nothing yet, the original
      character (whose import needs the OpenAI library), or the stand-in. */
  datatype Loaded = NotLoaded | OriginalRuri | StandIn

  const DisabledText: string := "AI会話機能が無効になっています。"
  const ErrorPrefix: string := "⚠️ AI応答エラー: "
  /** `str(e)` for the missing `generate_response` of the original character. */
  const MissingMethod: string := "'RuriCharacter' object has no attribute 'generate_response'"

  /** The stand-in character's answers. */
  const StandInPool: seq<string> := [
    "ありがとうございます！感情を学習中です...",
    "そうですね...色々な感情があるんですね",
    "まだ学習中ですが、あなたの言葉は覚えています",
    "もっとお話ししたいです！",
    "感情って...難しいですね"]

  /** `features and not features.get("ai_conversation", True)`. */
  predicate ConversationDisabled(features: map<string, bool>)
  {
    |features| > 0 && "ai_conversation" in features && !features["ai_conversation"]
  }

  /** The response text and model information for a loaded character: the
      original one has no `generate_response`, so the call raises. */
  function CharacterReply(c: Loaded, pick: nat): (r: (string, string))
    requires c != NotLoaded
  {
    if c == OriginalRuri then (ErrorPrefix + MissingMethod, "error")
    else (Pick(StandInPool, pick), "unknown")
  }

  /** A disabled conversation never consults a character; an enabled one
      answers with the stand-in's pool and "unknown", or, with the original
      character loaded, with the error text and "error". */
  lemma ReplyKinds(c: Loaded, pick: nat)
    requires c != NotLoaded
    ensures CharacterReply(c, pick).1 == "error" <==> c == OriginalRuri
    ensures c == OriginalRuri ==> IsPrefix(ErrorPrefix, CharacterReply(c, pick).0)
    ensures c == StandIn ==> CharacterReply(c, pick).0 in StandInPool && CharacterReply(c, pick).1 == "unknown"
  {
    PrefixOfConcat(ErrorPrefix, MissingMethod);
  }

  class AIResponseGenerator {
    var character: Loaded

    constructor ()
      ensures character == NotLoaded
    {
      character := NotLoaded;
    }

    /** `_get_ruri_character`: load once; `importSucceeds` is whether
        `from src.character_ai import RuriCharacter` works. */
    method GetRuriCharacter(importSucceeds: bool) returns (c: Loaded)
      modifies this
      ensures c != NotLoaded && character == c
      ensures old(character) != NotLoaded ==> c == old(character)
      ensures old(character) == NotLoaded ==> c == if importSucceeds then OriginalRuri else StandIn
    {
      if character == NotLoaded {
        character := if importSucceeds then OriginalRuri else StandIn;
      }
      c := character;
    }

    /** `generate_response(message, user_level, features, image)`: the text,
        the elapsed time (a parameter here) and the model information. */
    method GenerateResponse(message: string, features: map<string, bool>, importSucceeds: bool, pick: nat, elapsed: real)
      returns (response: string, responseTime: real, modelInfo: string)
      modifies this
      ensures responseTime == elapsed
      ensures ConversationDisabled(features) ==>
        response == DisabledText && modelInfo == "disabled" && character == old(character)
      ensures !ConversationDisabled(features) ==>
        character != NotLoaded
        && (old(character) != NotLoaded ==> character == old(character))
        && (old(character) == NotLoaded ==> character == if importSucceeds then OriginalRuri else StandIn)
        && (response, modelInfo) == CharacterReply(character, pick)
    {
      if ConversationDisabled(features) {
        response, modelInfo := DisabledText, "disabled";
      } else {
        var c := GetRuriCharacter(importSucceeds);
        var r := CharacterReply(c, pick);
        response, modelInfo := r.0, r.1;
      }
      responseTime := elapsed;
    }
  }

  /** `handle_chat_message`: generate a response and add exactly one message
      holding it. The module-level singletons are the two objects passed in. */
  method HandleChatMessage(manager: ChatManager, generator: AIResponseGenerator, message: string,
                           features: map<string, bool>, importSucceeds: bool, pick: nat, elapsed: real, now: string)
    returns (m: ChatMessage)
    modifies manager.session, generator
    ensures m.userMessage == message && m.timestamp == now && m.responseTime == Some(elapsed) && m.modelInfo.Some?
    ensures !ConversationDisabled(features) ==> generator.character != NotLoaded
    ensures manager.key in manager.session.state && manager.PersistentKey() in manager.session.state
    ensures ConversationDisabled(features) ==> m.aiResponse == DisabledText && m.modelInfo == Some("disabled")
    ensures !ConversationDisabled(features) ==> (m.aiResponse, m.modelInfo.value) == CharacterReply(generator.character, pick)
    ensures manager.session.state[manager.key] == Trimmed(old(manager.Stored()) + [TupleItem(ToTuple(m))], manager.maxHistory)
    ensures manager.session.state[manager.key] == manager.session.state[manager.PersistentKey()]
  {
    ghost var before := manager.Stored();
    var response, responseTime, modelInfo := generator.GenerateResponse(message, features, importSucceeds, pick, elapsed);
    assert manager.Stored() == before;
    m := manager.AddMessage(message, response, Some(responseTime), Some(modelInfo), now);
    assert manager.session.state[manager.key] == Trimmed(before + [TupleItem(ToTuple(m))], manager.maxHistory);
  }
}
