/** The messaging screen (`client/src/pages/chat.tsx`): the contact list,
    the message list and sending a message. */
module Chat {
  import opened Common
  import opened Store
  import Text

  /** The characters `String.prototype.trim` removes: the ECMAScript white
      space and line terminator characters. */
  predicate IsTrimmed(c: char)
  {
    || c == ' ' || c == '\t' || c == '\n' || c == '\r'
    || c == '\U{000B}' || c == '\U{000C}' || c == '\U{00A0}' || c == '\U{FEFF}'
    || c == '\U{1680}' || ('\U{2000}' <= c <= '\U{200A}')
    || c == '\U{2028}' || c == '\U{2029}' || c == '\U{202F}' || c == '\U{205F}' || c == '\U{3000}'
  }

  /** Every character of `s` is white space (so is the empty string). */
  predicate IsBlank(s: string)
  {
    forall i :: 0 <= i < |s| ==> IsTrimmed(s[i])
  }

  function TrimStart(s: string): (r: string)
    ensures |r| <= |s| && r == s[|s| - |r|..]
    ensures r != [] ==> !IsTrimmed(r[0])
    ensures IsBlank(s[..|s| - |r|])
  {
    if s == [] || !IsTrimmed(s[0]) then s
    else
      var r := TrimStart(s[1..]);
      assert s[1..][..|s[1..]| - |r|] == s[1..|s| - |r|];
      r
  }

  function TrimEnd(s: string): (r: string)
    ensures |r| <= |s| && r == s[..|r|]
    ensures r != [] ==> !IsTrimmed(r[|r| - 1])
    ensures IsBlank(s[|r|..])
  {
    if s == [] || !IsTrimmed(s[|s| - 1]) then s
    else
      var r := TrimEnd(s[..|s| - 1]);
      assert s[..|s| - 1][|r|..] == s[|r|..|s| - 1];
      r
  }

  /** `s.trim()`: neither starts nor ends with white space. */
  function Trim(s: string): (r: string)
    ensures |r| <= |s|
    ensures r != [] ==> !IsTrimmed(r[0]) && !IsTrimmed(r[|r| - 1])
  {
    TrimEnd(TrimStart(s))
  }

  /** `r` sits at position `i` of `s` with only white space on either side. */
  predicate PaddedAt(s: string, r: string, i: int)
  {
    0 <= i <= |s| - |r| && r == s[i..i + |r|] && IsBlank(s[..i]) && IsBlank(s[i + |r|..])
  }

  /** Trimming keeps a slice of the input and cuts only white space on
      either side of it. */
  lemma TrimIsSlice(s: string)
    ensures exists i :: PaddedAt(s, Trim(s), i)
  {
    var a := TrimStart(s);
    var r := TrimEnd(a);
    var i := |s| - |a|;
    assert a == s[i..] && r == a[..|r|];
    assert r == s[i..i + |r|];
    assert IsBlank(s[..i]);
    assert s[i + |r|..] == a[|r|..];
    assert IsBlank(s[i + |r|..]);
    assert Trim(s) == r && PaddedAt(s, r, i);
  }

  /** The send guard `!messageInput.trim()` rejects exactly the inputs made
      of white space only. */
  lemma TrimEmptyIffBlank(s: string)
    ensures Trim(s) == "" <==> IsBlank(s)
  {
    var a := TrimStart(s);
    if a == [] {
      assert s[..|s| - |a|] == s;
    } else {
      assert !IsTrimmed(a[0]);
      var b := TrimEnd(a);
      assert s[|s| - |a|] == a[0];
    }
  }

  /** The send guard `!messageInput.trim()`. */
  predicate SendBlocked(input: string)
    ensures SendBlocked(input) <==> IsBlank(input)
  {
    TrimEmptyIffBlank(input);
    Trim(input) == ""
  }

  datatype Contact = Contact(id: string, name: string)

  function Contacts(): (cs: seq<Contact>)
    ensures |cs| == 2 && cs[0].id != cs[1].id
  {
    [Contact("t1", "Coach Sarah"), Contact("u2", "Nutritionist Mike")]
  }

  /** `user?.id || "u1"`: the session's id, with "u1" standing in when there
      is no session (or its id is empty). */
  function SenderId(user: Option<User>): (id: string)
    ensures id != ""
    ensures user.Some? && user.value.id != "" ==> id == user.value.id
    ensures user.None? ==> id == "u1"
    ensures user.Some? && user.value.id == "" ==> id == "u1"
  {
    OrElse(if user.Some? then Some(user.value.id) else None, "u1")
  }

  /** The message built by a send at time `now` (ms since the epoch). */
  function NewMessage(user: Option<User>, activeChat: string, text: string, now: nat): (m: Message)
    ensures m.senderId == SenderId(user) && m.receiverId == activeChat
    ensures m.text == text && m.timestamp == now
    ensures m.id == "m" + Text.Digits(now)
  {
    Message("m" + Text.Digits(now), SenderId(user), activeChat, text, now)
  }

  /** `msg.senderId === user?.id`: a message is drawn as the user's own. */
  predicate IsMine(msg: Message, user: Option<User>)
  {
    user.Some? && msg.senderId == user.value.id
  }

  /** What a session sends is drawn as its own. */
  lemma SentMessageIsMine(u: User, activeChat: string, text: string, now: nat)
    requires u.id != ""
    ensures IsMine(NewMessage(Some(u), activeChat, text, now), Some(u))
  {
  }

  /** The screen's state. The message list is shown whole, in order; it is
      not filtered by the selected contact. */
  class ChatScreen {
    var activeChat: string
    var messageInput: string
    var messages: seq<Message>

    /** Opens on the trainer's conversation with the seeded messages. */
    constructor (now: int)
      ensures activeChat == "t1" && messageInput == "" && messages == MockMessages(now)
    {
      activeChat := "t1";
      messageInput := "";
      messages := MockMessages(now);
    }

    /** Clicking a contact. */
    method SelectContact(c: Contact)
      modifies this`activeChat
      ensures activeChat == c.id
    {
      activeChat := c.id;
    }

    /** The input's `onChange`. */
    method SetInput(text: string)
      modifies this`messageInput
      ensures messageInput == text
    {
      messageInput := text;
    }

    /** `handleSendMessage`: white-space-only input changes nothing;
        otherwise exactly one message, holding the raw (untrimmed) input, is
        appended and the input is cleared. */
    method SendMessage(user: Option<User>, now: nat)
      modifies this`messages, this`messageInput
      ensures IsBlank(old(messageInput)) ==> messages == old(messages) && messageInput == old(messageInput)
      ensures !IsBlank(old(messageInput)) ==>
                && messages == old(messages) + [NewMessage(user, activeChat, old(messageInput), now)]
                && messageInput == ""
    {
      var input := messageInput;
      if SendBlocked(input) {
        return;
      }
      var m := NewMessage(user, activeChat, input, now);
      messages := messages + [m];
      messageInput := "";
    }
  }
}
