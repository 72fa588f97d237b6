/**
 * The conversation of frontend/src/App.tsx: two fixed users, three initial messages and an
 * append-only message list. Every message sent from the composer is appended as user A's,
 * numbered after the messages already shown.
 */
module App {
  import opened Wrappers
  import opened Text

  /** `User`. */
  datatype User = User(id: string, name: string, avatar: string)

  /** A JavaScript `Date`, kept as the text it was built from or as the clock's reading. */
  datatype Timestamp = Timestamp(iso: string)

  /** `Message`. */
  datatype Message = Message(id: string, senderId: string, text: string, timestamp: Timestamp)

  const UserA := User("1", "User A", "https://via.placeholder.com/40")
  const UserB := User("2", "User B", "https://via.placeholder.com/40")

  /** The conversation shown before anything is sent. */
  const InitialMessages: seq<Message> := [
    Message("1", UserA.id, "Hey, how are you?", Timestamp("2023-04-23T10:00:00")),
    Message("2", UserB.id, "I'm doing great! How about you?", Timestamp("2023-04-23T10:02:00")),
    Message("3", UserA.id, "I'm good too. Just working on a project.", Timestamp("2023-04-23T10:05:00"))
  ]

  /** Message `i` has id `String(i + 1)` and was sent by one of the two users. */
  predicate WellNumbered(messages: seq<Message>)
  {
    forall i :: 0 <= i < |messages| ==>
      messages[i].id == DecimalString(i + 1) && (messages[i].senderId == UserA.id || messages[i].senderId == UserB.id)
  }

  /** The initial messages are numbered 1, 2, 3 and sent by the two users. */
  lemma InitialMessagesWellNumbered()
    ensures WellNumbered(InitialMessages)
  {
    assert DecimalString(1) == "1" && DecimalString(2) == "2" && DecimalString(3) == "3";
  }

  /** In a well-numbered list no two messages share an id. */
  lemma WellNumberedIdsAreUnique(messages: seq<Message>, i: nat, j: nat)
    requires WellNumbered(messages)
    requires i < j < |messages|
    ensures messages[i].id != messages[j].id
  {
    DecimalStringInjective(i + 1, j + 1);
  }

  /**
   * `[...messages, newMessage]`: the old messages unchanged and one more at the end, user A's,
   * with the text as given and the next number as id; a well-numbered list stays so.
   */
  function Appended(messages: seq<Message>, text: string, now: Timestamp): (r: seq<Message>)
    ensures |r| == |messages| + 1 && r[..|messages|] == messages
    ensures r[|messages|].senderId == UserA.id && r[|messages|].text == text && r[|messages|].timestamp == now
    ensures r[|messages|].id == DecimalString(|messages| + 1)
    ensures WellNumbered(messages) ==> WellNumbered(r)
  {
    messages + [Message(DecimalString(|messages| + 1), UserA.id, text, now)]
  }

  /** The `messages` state of the app. */
  class Conversation {
    var messages: seq<Message>

    ghost predicate Valid()
      reads this
    {
      WellNumbered(messages)
    }

    constructor ()
      ensures Valid()
      ensures messages == InitialMessages
    {
      messages := InitialMessages;
      InitialMessagesWellNumbered();
    }

    /** `handleSendMessage`: appends the message; a query passed along by the composer is ignored. */
    method HandleSendMessage(text: string, query: Option<string>, now: Timestamp)
      requires Valid()
      modifies this
      ensures Valid()
      ensures messages == Appended(old(messages), text, now)
    {
      messages := Appended(messages, text, now);
    }
  }
}
