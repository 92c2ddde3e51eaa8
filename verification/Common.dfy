/** Types shared by every component of the model. */
module Common {

  /** The conventional optional value. */
  datatype Option<+T> = None | Some(value: T)

  /** A Rust `Result`: an error means that the caller discards the staged state. */
  datatype Result<+T, +E> = Ok(value: T) | Err(error: E)

  /** The bounds of the machine integers used by the protocol. */
  const U32_MAX: nat := 0xFFFF_FFFF
  const U64_MAX: nat := 0xFFFF_FFFF_FFFF_FFFF
  const U128_MAX: nat := 0xFFFF_FFFF_FFFF_FFFF_FFFF_FFFF_FFFF_FFFF

  type ChainId = nat
  type Owner = nat
  type Height = nat

  /** The application that a message or a channel belongs to. */
  datatype ApplicationId = System | User(id: nat)

  /** A message: its application and its (serialized) content. */
  datatype Message = Message(application: ApplicationId, content: nat)

  /** A channel name together with the application that owns it. */
  datatype ChannelName = ChannelName(application: ApplicationId, name: nat)

  /** How a message travels between two chains. */
  datatype Medium = Direct | Channel(name: ChannelName)

  /** Identifies an inbox of the receiving chain. */
  datatype Origin = Origin(sender: ChainId, medium: Medium)

  /** Identifies an outbox of the sending chain. */
  datatype Target = Target(recipient: ChainId, medium: Medium)

  /** The destination of a message: a chain, or the subscribers of a channel of its application. */
  datatype Destination = Recipient(id: ChainId) | Subscribers(name: nat)

  /** A message together with routing information, as recorded in a block. */
  datatype OutgoingMessage = OutgoingMessage(
    destination: Destination,
    signer: Option<Owner>,
    isSkippable: bool,
    message: Message)

  /** Elements of a sequence are pairwise distinct. */
  predicate Distinct<T(==)>(s: seq<T>) {
    forall i, j :: 0 <= i < j < |s| ==> s[i] != s[j]
  }

  /** Heights in strictly increasing order. */
  predicate Increasing(s: seq<nat>) {
    forall i, j :: 0 <= i < j < |s| ==> s[i] < s[j]
  }
}
