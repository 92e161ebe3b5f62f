/**
 * The values the interface keeps in its `chats` list, and the three list
 * transforms its handlers apply: prepending a new chat, appending a user
 * message to a chat, and replacing every chat that has a given id.
 */
module Chats {

  /** The sender tag of a message. The handlers modelled here only ever create `User` messages. */
  datatype Sender = User | Assistant

  datatype Message = Message(text: string, sender: Sender)

  /** `{ id, prompt, improvedPrompt, messages }`; `id` is the `Date.now()` value taken when the chat was created. */
  datatype Chat = Chat(id: int, prompt: string, improvedPrompt: string, messages: seq<Message>)

  /** `[newChat, ...chats]`: the new chat first, then the old chats in their old order. */
  function Prepend(c: Chat, cs: seq<Chat>): (r: seq<Chat>)
    ensures |r| == |cs| + 1 && r[0] == c
    ensures forall i :: 0 <= i < |cs| ==> r[i + 1] == cs[i]
    ensures forall x :: x in r <==> x == c || x in cs
  {
    [c] + cs
  }

  /** `{ ...c, messages: [...c.messages, { text, sender: 'user' }] }`. */
  function WithUserMessage(c: Chat, text: string): (r: Chat)
    ensures r.id == c.id && r.prompt == c.prompt && r.improvedPrompt == c.improvedPrompt
    ensures |r.messages| == |c.messages| + 1 && r.messages[..|c.messages|] == c.messages
    ensures r.messages[|c.messages|] == Message(text, User)
  {
    c.(messages := c.messages + [Message(text, User)])
  }

  /** `cs.map(chat => chat.id === u.id ? u : chat)`. */
  function ReplaceById(cs: seq<Chat>, u: Chat): seq<Chat>
  {
    if cs == [] then []
    else [if cs[0].id == u.id then u else cs[0]] + ReplaceById(cs[1..], u)
  }

  /** The replacement keeps length and positions: each entry with `u`'s id becomes `u`, every other entry stays. */
  lemma {:induction false} ReplaceByIdAt(cs: seq<Chat>, u: Chat)
    ensures |ReplaceById(cs, u)| == |cs|
    ensures forall i :: 0 <= i < |cs| ==>
      ReplaceById(cs, u)[i] == if cs[i].id == u.id then u else cs[i]
  {
    if cs != [] {
      ReplaceByIdAt(cs[1..], u);
    }
  }

  /** The list of ids, and so the order of the chats, is the same after the replacement. */
  lemma {:induction false} ReplaceByIdKeepsIds(cs: seq<Chat>, u: Chat)
    ensures |ReplaceById(cs, u)| == |cs|
    ensures forall i :: 0 <= i < |cs| ==> ReplaceById(cs, u)[i].id == cs[i].id
  {
    ReplaceByIdAt(cs, u);
  }

  /** When some entry has `u`'s id, `u` is an element of the result. */
  lemma {:induction false} ReplaceByIdContains(cs: seq<Chat>, u: Chat, c: Chat)
    requires c in cs && c.id == u.id
    ensures u in ReplaceById(cs, u)
  {
    ReplaceByIdAt(cs, u);
    var i :| 0 <= i < |cs| && cs[i] == c;
    assert ReplaceById(cs, u)[i] == u;
  }

  /** Every element of the result is `u` or an element of `cs`. */
  lemma {:induction false} ReplaceByIdElements(cs: seq<Chat>, u: Chat)
    ensures forall x :: x in ReplaceById(cs, u) ==> x == u || x in cs
  {
    ReplaceByIdAt(cs, u);
  }

  /** With no entry carrying `u`'s id the list is returned as it was. */
  lemma {:induction false} ReplaceByIdNoMatch(cs: seq<Chat>, u: Chat)
    requires forall c :: c in cs ==> c.id != u.id
    ensures ReplaceById(cs, u) == cs
  {
    ReplaceByIdAt(cs, u);
  }

  /** Replacing twice with the same chat is the same as replacing once. */
  lemma {:induction false} ReplaceByIdIdempotent(cs: seq<Chat>, u: Chat)
    ensures ReplaceById(ReplaceById(cs, u), u) == ReplaceById(cs, u)
  {
    ReplaceByIdAt(cs, u);
    ReplaceByIdAt(ReplaceById(cs, u), u);
  }

  /**
   * The follow-up step keeps the current chat in the list: if `c` is in
   * `cs`, then `c` with the new message is in `cs` after replacing by its id.
   */
  lemma {:induction false} FollowUpStaysListed(cs: seq<Chat>, c: Chat, text: string)
    requires c in cs
    ensures WithUserMessage(c, text) in ReplaceById(cs, WithUserMessage(c, text))
  {
    ReplaceByIdContains(cs, WithUserMessage(c, text), c);
  }

  /** Two follow-ups on the same chat leave both questions at the end of its messages, in the order they were sent. */
  lemma FollowUpsInOrder(c: Chat, a: string, b: string)
    ensures WithUserMessage(WithUserMessage(c, a), b).messages
         == c.messages + [Message(a, User), Message(b, User)]
  {
  }
}
