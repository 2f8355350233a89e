// The client-side chat store: the list of chats, the id of the open chat and
// the messages shown, with the four actions that replace those fields.

module ChatStore {
  import opened Wrappers

  datatype Role = User | Assistant

  datatype ChatMessage = ChatMessage(
    id: string,
    content: string,
    role: Role,
    timestamp: int,
    chatId: string)

  datatype Chat = Chat(
    id: string,
    title: string,
    sharedMemory: bool,
    createdAt: int,
    lastUpdated: int)

  /** The chat with its shared-memory flag negated; every other field is kept. */
  function Flip(chat: Chat): (r: Chat)
    ensures r.sharedMemory == !chat.sharedMemory
    ensures r.(sharedMemory := chat.sharedMemory) == chat
  {
    chat.(sharedMemory := !chat.sharedMemory)
  }

  /** The list after toggling `chatId`: the same chats in the same order, those
      with that id flipped and all others identical. */
  function Toggled(chats: seq<Chat>, chatId: string): (r: seq<Chat>)
    ensures |r| == |chats|
    ensures forall i :: 0 <= i < |chats| ==> r[i].id == chats[i].id
    ensures forall i :: 0 <= i < |chats| && chats[i].id == chatId ==> r[i] == Flip(chats[i])
    ensures forall i :: 0 <= i < |chats| && chats[i].id != chatId ==> r[i] == chats[i]
  {
    if chats == [] then []
    else
      var head := if chats[0].id == chatId then Flip(chats[0]) else chats[0];
      [head] + Toggled(chats[1..], chatId)
  }

  /** Toggling an id that no chat carries leaves the list as it was. */
  lemma ToggleAbsentIsNoOp(chats: seq<Chat>, chatId: string)
    requires forall i :: 0 <= i < |chats| ==> chats[i].id != chatId
    ensures Toggled(chats, chatId) == chats
  {
  }

  /** Toggling the same id twice restores the original list. */
  lemma ToggleTwice(chats: seq<Chat>, chatId: string)
    ensures Toggled(Toggled(chats, chatId), chatId) == chats
  {
    var once := Toggled(chats, chatId);
    var twice := Toggled(once, chatId);
    forall i | 0 <= i < |chats| ensures twice[i] == chats[i] {
      assert once[i].id == chats[i].id;
    }
  }

  /** Toggles of two ids can be applied in either order. */
  lemma ToggleCommutes(chats: seq<Chat>, a: string, b: string)
    ensures Toggled(Toggled(chats, a), b) == Toggled(Toggled(chats, b), a)
  {
    var ab := Toggled(Toggled(chats, a), b);
    var ba := Toggled(Toggled(chats, b), a);
    forall i | 0 <= i < |chats| ensures ab[i] == ba[i] {
      assert Toggled(chats, a)[i].id == chats[i].id;
      assert Toggled(chats, b)[i].id == chats[i].id;
    }
  }

  /** The store. Each action replaces the fields it names and no others. */
  class Store {
    var chats: seq<Chat>
    var currentChat: Option<string>
    var messages: seq<ChatMessage>

    /** The initial state: no chats, no open chat, no messages. */
    constructor ()
      ensures chats == [] && currentChat == None && messages == []
    {
      chats := [];
      currentChat := None;
      messages := [];
    }

    /** Opens `chatId`; the lists are untouched. */
    method SetCurrentChat(chatId: string)
      modifies this
      ensures currentChat == Some(chatId)
      ensures chats == old(chats) && messages == old(messages)
    {
      currentChat := Some(chatId);
    }

    /** Appends `chat` after every earlier chat, whether or not its id is new. */
    method AddChat(chat: Chat)
      modifies this
      ensures chats == old(chats) + [chat]
      ensures currentChat == old(currentChat) && messages == old(messages)
    {
      chats := chats + [chat];
    }

    /** Appends `message` after every earlier message. */
    method AddMessage(message: ChatMessage)
      modifies this
      ensures messages == old(messages) + [message]
      ensures chats == old(chats) && currentChat == old(currentChat)
    {
      messages := messages + [message];
    }

    /** Negates the shared-memory flag of every chat whose id is `chatId`. */
    method ToggleSharedMemory(chatId: string)
      modifies this
      ensures chats == Toggled(old(chats), chatId)
      ensures currentChat == old(currentChat) && messages == old(messages)
    {
      chats := Toggled(chats, chatId);
    }
  }

  /** Toggling the same chat twice through the store restores its chats. */
  method ToggleTwiceInStore(store: Store, chatId: string)
    modifies store
    ensures store.chats == old(store.chats)
    ensures store.currentChat == old(store.currentChat) && store.messages == old(store.messages)
  {
    store.ToggleSharedMemory(chatId);
    store.ToggleSharedMemory(chatId);
    ToggleTwice(old(store.chats), chatId);
  }
}
