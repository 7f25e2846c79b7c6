/** The message value retrieved from a Service Broker queue (BrokerMessage.cs). */
module Messages {
  import opened Errors

  /** A 128-bit GUID. */
  newtype Guid = x: int | 0 <= x < 0x1_0000_0000_0000_0000_0000_0000_0000_0000

  /** `Guid.Empty`. */
  const EmptyGuid: Guid := 0

  /** The five-field form of the message: contract, message type, body (the source's
      `Message` field), conversation group and conversation. */
  datatype BrokerMessage = BrokerMessage(
    contract: string,
    messageType: string,
    message: string,
    conversationGroup: Guid,
    conversation: Guid)

  /** `??` on a nullable string. */
  function OrEmpty(s: Option<string>): (r: string)
    ensures s.Some? ==> r == s.value
    ensures s.None? ==> r == ""
  {
    match s
    case None => ""
    case Some(v) => v
  }

  /** The constructor: a null message type or body becomes the empty string, the
      other fields are stored as given. */
  function NewBrokerMessage(contract: string, messageType: Option<string>, message: Option<string>,
                            conversationGroup: Guid, conversation: Guid): (m: BrokerMessage)
    ensures m.contract == contract
    ensures messageType.None? ==> m.messageType == ""
    ensures messageType.Some? ==> m.messageType == messageType.value
    ensures message.None? ==> m.message == ""
    ensures message.Some? ==> m.message == message.value
    ensures m.conversationGroup == conversationGroup && m.conversation == conversation
  {
    BrokerMessage(contract, OrEmpty(messageType), OrEmpty(message), conversationGroup, conversation)
  }

  /** The four-argument constructor of the older revision, which has no contract. */
  function NewBrokerMessage4(messageType: Option<string>, message: Option<string>,
                             conversationGroup: Guid, conversation: Guid): (m: BrokerMessage)
    ensures m == NewBrokerMessage("", messageType, message, conversationGroup, conversation)
    ensures m.contract == "" && m.messageType == OrEmpty(messageType) && m.message == OrEmpty(message)
    ensures m.conversationGroup == conversationGroup && m.conversation == conversation
  {
    NewBrokerMessage("", messageType, message, conversationGroup, conversation)
  }

  /** `BrokerMessage.Empty`, the sentinel for "nothing received". */
  const Empty: BrokerMessage := NewBrokerMessage4(Some(""), Some(""), EmptyGuid, EmptyGuid)

  /** The argument of `Equals(object)`: null, a message, or an object of another type. */
  datatype Obj = Null | Msg(m: BrokerMessage) | OtherObject

  /** `Equals(object)`: compares message, type, conversation group and conversation;
      false for null and for anything that is not a message. The contract is not
      compared. */
  predicate Equals(self: BrokerMessage, obj: Obj)
    ensures Equals(self, obj) ==> obj.Msg? && WithoutContract(obj.m) == WithoutContract(self)
    ensures obj == Msg(self) ==> Equals(self, obj)
  {
    match obj
    case Msg(other) =>
      other.message == self.message &&
      other.messageType == self.messageType &&
      other.conversationGroup == self.conversationGroup &&
      other.conversation == self.conversation
    case _ => false
  }

  /** The message with its contract cleared: the part of a message `Equals` looks at. */
  function WithoutContract(m: BrokerMessage): (r: BrokerMessage)
    ensures r.contract == ""
  {
    m.(contract := "")
  }

  /** `==` between messages. */
  predicate OpEquals(a: BrokerMessage, b: Obj)
    ensures OpEquals(a, b) <==> b.Msg? && WithoutContract(a) == WithoutContract(b.m)
  {
    Equals(a, b)
  }

  /** `!=` between messages: always the negation of `==`. */
  predicate OpNotEquals(a: BrokerMessage, b: Obj)
    ensures OpNotEquals(a, b) <==> !OpEquals(a, b)
  {
    !Equals(a, b)
  }

  /** Whether a received message is the "nothing received" sentinel, as the dispatcher
      tests it (`message == BrokerMessage.Empty`). */
  predicate IsEmpty(m: BrokerMessage)
  {
    OpEquals(m, Msg(Empty))
  }

  /** `WithMessage`: a copy whose body is replaced (null becomes ""). */
  function WithMessage(m: BrokerMessage, message: Option<string>): (r: BrokerMessage)
    ensures r.message == OrEmpty(message)
    ensures r.contract == m.contract && r.messageType == m.messageType
    ensures r.conversationGroup == m.conversationGroup && r.conversation == m.conversation
  {
    NewBrokerMessage(m.contract, Some(m.messageType), message, m.conversationGroup, m.conversation)
  }

  /** `WithType`: a copy whose message type is replaced (null becomes ""). */
  function WithType(m: BrokerMessage, messageType: Option<string>): (r: BrokerMessage)
    ensures r.messageType == OrEmpty(messageType)
    ensures r.contract == m.contract && r.message == m.message
    ensures r.conversationGroup == m.conversationGroup && r.conversation == m.conversation
  {
    NewBrokerMessage(m.contract, messageType, Some(m.message), m.conversationGroup, m.conversation)
  }

  /** `GetHashCode`: the exclusive or of the field hashes, so two equal fields of the
      same kind cancel out. String and GUID hashing are the runtime's and enter as
      parameters. */
  function GetHashCode(m: BrokerMessage, stringHash: string -> bv32, guidHash: Guid -> bv32): (h: bv32)
    ensures m.conversationGroup == m.conversation ==> h == stringHash(m.message) ^ stringHash(m.messageType)
    ensures m.message == m.messageType ==> h == guidHash(m.conversationGroup) ^ guidHash(m.conversation)
  {
    stringHash(m.message) ^ stringHash(m.messageType) ^
    guidHash(m.conversationGroup) ^ guidHash(m.conversation)
  }

  // ---------------------------------------------------------------------------
  // Properties

  /** Two messages are equal exactly when they agree once their contracts are cleared,
      that is, on type, body, conversation group and conversation. */
  lemma EqualsIsEqualityWithoutContract(a: BrokerMessage, b: BrokerMessage)
    ensures Equals(a, Msg(b)) <==> WithoutContract(a) == WithoutContract(b)
  {
    if WithoutContract(a) == WithoutContract(b) {
      assert WithoutContract(a).message == WithoutContract(b).message;
    }
  }

  /** Null and objects of other types are never equal to a message. */
  lemma EqualsRejectsNonMessages(a: BrokerMessage)
    ensures !Equals(a, Null) && !Equals(a, OtherObject)
  {
  }

  /** `Equals` is an equivalence relation on messages. */
  lemma EqualsIsEquivalence(a: BrokerMessage, b: BrokerMessage, c: BrokerMessage)
    ensures Equals(a, Msg(a))
    ensures Equals(a, Msg(b)) ==> Equals(b, Msg(a))
    ensures Equals(a, Msg(b)) && Equals(b, Msg(c)) ==> Equals(a, Msg(c))
  {
    EqualsIsEqualityWithoutContract(a, b);
    EqualsIsEqualityWithoutContract(b, c);
    EqualsIsEqualityWithoutContract(a, c);
  }

  /** `Empty` equals a message built from empty strings and zero GUIDs, whatever its
      contract; a message with a non-empty type is not `Empty`. */
  lemma EmptyIsBuiltFromEmptyFields(contract: string, messageType: string)
    ensures OpEquals(Empty, Msg(NewBrokerMessage(contract, Some(""), Some(""), EmptyGuid, EmptyGuid)))
    ensures IsEmpty(NewBrokerMessage(contract, Some(""), Some(""), EmptyGuid, EmptyGuid))
    ensures messageType != "" ==>
      OpNotEquals(Empty, Msg(NewBrokerMessage(contract, Some(messageType), Some(""), EmptyGuid, EmptyGuid)))
  {
  }

  /** Null type and body are normalised, so they make the same message as empty strings. */
  lemma NullNormalisedToEmpty(contract: string, g: Guid, c: Guid)
    ensures NewBrokerMessage(contract, None, None, g, c) == NewBrokerMessage(contract, Some(""), Some(""), g, c)
    ensures IsEmpty(NewBrokerMessage(contract, None, None, EmptyGuid, EmptyGuid))
  {
  }

  /** Equal messages have equal hash codes, whatever the field hash functions are. */
  lemma EqualMessagesHashEqually(a: BrokerMessage, b: BrokerMessage,
                                 stringHash: string -> bv32, guidHash: Guid -> bv32)
    requires Equals(a, Msg(b))
    ensures GetHashCode(a, stringHash, guidHash) == GetHashCode(b, stringHash, guidHash)
  {
  }

  /** Replacing a field with its current value gives back the same message, and the
      two copy operations commute. */
  lemma CopiesRoundTrip(m: BrokerMessage, t: Option<string>, b: Option<string>,
                        t2: Option<string>, b2: Option<string>)
    ensures WithMessage(m, Some(m.message)) == m
    ensures WithType(m, Some(m.messageType)) == m
    ensures WithType(WithMessage(m, b), t) == WithMessage(WithType(m, t), b)
    ensures WithMessage(WithMessage(m, b), b2) == WithMessage(m, b2)
    ensures WithType(WithType(m, t), t2) == WithType(m, t2)
  {
  }
}
