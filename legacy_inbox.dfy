/** The earlier inbox over local chat objects: clicking a chat marks it
    active in place and clears the mark on the chat clicked before. */
module LegacyInbox {

  /** A chat object of the user's inbox; its `active_chat` flag is set in place. */
  class ChatObject {
    const chatRoomId: string
    var activeChat: bool

    constructor (chatRoomId: string, activeChat: bool)
      ensures this.chatRoomId == chatRoomId && this.activeChat == activeChat
    {
      this.chatRoomId := chatRoomId;
      this.activeChat := activeChat;
    }
  }

  class ChatsContainer {
    /** `userInfo.inbox`. */
    const chats: seq<ChatObject>
    /** `chatListRef.current`: the chat clicked last. */
    var chatListRef: ChatObject?
    /** The current chat held by the enclosing context. */
    var currentChat: ChatObject?

    constructor (chats: seq<ChatObject>)
      ensures this.chats == chats && chatListRef == null && currentChat == null
    {
      this.chats := chats;
      chatListRef, currentChat := null, null;
    }

    /** The chats of the inbox marked active. */
    function ActiveChats(): set<ChatObject>
      reads this, chats
    {
      set c | c in chats && c.activeChat
    }

    function RefSet(): set<ChatObject>
      reads this
    {
      if chatListRef == null then {} else {chatListRef}
    }

    method ChatClick(chat: ChatObject)
      modifies this, chat, RefSet()
      ensures chat.activeChat
      ensures chatListRef == chat && currentChat == chat
      ensures old(chatListRef) != null && old(chatListRef) != chat ==> !old(chatListRef).activeChat
      ensures forall c :: c in chats && c != chat && c != old(chatListRef) ==> c.activeChat == old(c.activeChat)
      ensures chat in chats && old(ActiveChats()) <= old(RefSet()) ==> ActiveChats() == {chat}
    {
      if chatListRef != null {
        chatListRef.activeChat := false;
      }
      chat.activeChat := true;
      chatListRef := chat;
      currentChat := chat;
    }
  }
}
