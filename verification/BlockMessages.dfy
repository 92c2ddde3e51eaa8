/** The messages created by the transactions of a block, and their identifiers. */
module BlockMessages {
  import opened Common

  datatype MessageId = MessageId(chain: ChainId, height: Height, index: nat)

  /** The messages that a transaction creates, unless it fails. */
  type Creation = Option<seq<OutgoingMessage>>

  /** What an operation creates may depend on the index of the next message. */
  type Operation = nat -> Creation

  /** The transactions of a block: the messages it receives and its operations, by what each one creates. */
  datatype Block = Block(chain: ChainId, height: Height, incoming: seq<Creation>, operations: seq<Operation>) {
    function Size(): nat {
      |incoming| + |operations|
    }
  }

  datatype ExecutedBlock = ExecutedBlock(block: Block, messages: seq<OutgoingMessage>, messageCounts: seq<nat>)

  datatype BlockError = Overflow | ExecutionError

  /** What a transaction creates after some number of messages. */
  function Created(block: Block, t: nat, next: nat): Creation
    requires t < block.Size()
  {
    if t < |block.incoming| then block.incoming[t] else block.operations[t - |block.incoming|](next)
  }

  /** All the messages created by the first transactions of a block, unless one fails. */
  function After(block: Block, t: nat): Creation
    requires t <= block.Size()
  {
    if t == 0 then Some([])
    else match After(block, t - 1)
      case None => None
      case Some(messages) => match Created(block, t - 1, |messages|)
        case None => None
        case Some(more) => Some(messages + more)
  }

  /** An executed block lists all the messages, and how many there were after each transaction. */
  ghost predicate Executed(e: ExecutedBlock) {
    && After(e.block, e.block.Size()) == Some(e.messages) && |e.messageCounts| == e.block.Size()
    && (forall t :: 0 <= t < |e.messageCounts| ==> Counts(e.block, t + 1, e.messageCounts[t]))
  }

  /** The number of messages after some transactions is a 32-bit number. */
  ghost predicate Counts(block: Block, t: nat, count: nat) {
    t <= block.Size() && After(block, t).Some? && count == |After(block, t).value| <= U32_MAX
  }

  /** No index and no count exceeds 32 bits, and no transaction fails. */
  ghost predicate Executable(block: Block) {
    && |block.incoming| <= U32_MAX + 1 && |block.operations| <= U32_MAX + 1
    && After(block, block.Size()).Some? && |After(block, block.Size()).value| <= U32_MAX
  }

  method ExecuteTransactions(block: Block) returns (result: Result<ExecutedBlock, BlockError>)
    ensures result.Ok? ==> result.value.block == block && Executed(result.value)
    ensures result.Ok? <==> Executable(block)
  {
    var messages: seq<OutgoingMessage>, messageCounts: seq<nat> := [], [];
    for i := 0 to |block.incoming|
      invariant i <= U32_MAX + 1 && Progress(block, i, messages, messageCounts)
    {
      ProgressStep(block, i, messages, messageCounts);
      if i > U32_MAX {
        return Err(Overflow);
      }
      var results := block.incoming[i];
      if results.None? {
        return Err(ExecutionError);
      }
      messages := messages + results.value;
      if |messages| > U32_MAX {
        return Err(Overflow);
      }
      messageCounts := messageCounts + [|messages|];
    }
    for i := 0 to |block.operations|
      invariant i <= U32_MAX + 1 && Progress(block, |block.incoming| + i, messages, messageCounts)
    {
      ProgressStep(block, |block.incoming| + i, messages, messageCounts);
      if i > U32_MAX || |messages| > U32_MAX {
        return Err(Overflow);
      }
      var nextMessageIndex := |messages|;
      var results := block.operations[i](nextMessageIndex);
      if results.None? {
        return Err(ExecutionError);
      }
      messages := messages + results.value;
      if |messages| > U32_MAX {
        return Err(Overflow);
      }
      messageCounts := messageCounts + [|messages|];
    }
    return Ok(ExecutedBlock(block, messages, messageCounts));
  }

  ghost predicate Progress(block: Block, t: nat, messages: seq<OutgoingMessage>, messageCounts: seq<nat>) {
    && t <= block.Size() && After(block, t) == Some(messages) && |messageCounts| == t && |messages| <= U32_MAX
    && (forall k :: 0 <= k < t ==> Counts(block, k + 1, messageCounts[k]))
  }

  lemma ProgressStep(block: Block, t: nat, messages: seq<OutgoingMessage>, messageCounts: seq<nat>)
    requires t < block.Size() && Progress(block, t, messages, messageCounts)
    ensures match Created(block, t, |messages|)
      case None => !Executable(block)
      case Some(more) =>
        var messages' := messages + more;
        if |messages'| <= U32_MAX then Progress(block, t + 1, messages', messageCounts + [|messages'|])
        else !Executable(block)
  {
    if After(block, block.Size()).Some? {
      AfterGrows(block, t + 1, block.Size());
    }
    var created := Created(block, t, |messages|);
    if created.Some? && |messages + created.value| <= U32_MAX {
      var counts := messageCounts + [|messages + created.value|];
      forall k | 0 <= k < t + 1 ensures Counts(block, k + 1, counts[k]) {
        assert k < t ==> counts[k] == messageCounts[k];
      }
    }
  }

  /** Messages are only ever appended. */
  lemma {:induction false} AfterGrows(block: Block, t: nat, u: nat)
    requires t <= u <= block.Size() && After(block, u).Some?
    ensures After(block, t).Some? && After(block, t).value <= After(block, u).value
  {
    if t < u {
      AfterGrows(block, t, u - 1);
    }
  }

  function IdOf(e: ExecutedBlock, index: nat): MessageId {
    MessageId(e.block.chain, e.block.height, index)
  }

  /** The identifier of a message created by an operation, computed from the message counts. */
  function MessageIdForOperation(e: ExecutedBlock, operation: nat, message: nat): Option<MessageId> {
    var transaction := |e.block.incoming| + operation;
    if transaction > 0 && transaction - 1 >= |e.messageCounts| then None
    else
      var first := if transaction == 0 then 0 else e.messageCounts[transaction - 1];
      var index := first + message;
      if index > U32_MAX || transaction >= |e.messageCounts| || index >= e.messageCounts[transaction] then None
      else Some(IdOf(e, index))
  }

  /** The number of messages before an operation of a block. */
  function NextIndex(block: Block, operation: nat): nat
    requires operation < |block.operations|
  {
    match After(block, |block.incoming| + operation)
    case Some(messages) => |messages|
    case None => 0
  }

  /** The identifier that an operation uses for the next message, while it executes. */
  function NextMessageId(block: Block, operation: nat): MessageId
    requires operation < |block.operations|
  {
    MessageId(block.chain, block.height, NextIndex(block, operation))
  }

  /** The messages that an operation of a block creates. */
  function CreatedBy(block: Block, operation: nat): seq<OutgoingMessage>
    requires operation < |block.operations|
  {
    match block.operations[operation](NextIndex(block, operation))
    case Some(messages) => messages
    case None => []
  }

  /** Counts never decrease, and the last one counts all the messages. */
  lemma CountsIncrease(e: ExecutedBlock)
    requires Executed(e)
    ensures forall t, u :: 0 <= t <= u < |e.messageCounts| ==> e.messageCounts[t] <= e.messageCounts[u]
    ensures e.messageCounts != [] ==> e.messageCounts[|e.messageCounts| - 1] == |e.messages|
  {
    forall t, u | 0 <= t <= u < |e.messageCounts| ensures e.messageCounts[t] <= e.messageCounts[u] {
      assert Counts(e.block, t + 1, e.messageCounts[t]) && Counts(e.block, u + 1, e.messageCounts[u]);
      AfterGrows(e.block, t + 1, u + 1);
    }
    if e.messageCounts != [] {
      assert Counts(e.block, e.block.Size(), e.messageCounts[|e.messageCounts| - 1]);
    }
  }

  /** Where the messages of an operation are in an executed block. */
  lemma OperationAt(e: ExecutedBlock, operation: nat)
    requires Executed(e) && operation < |e.block.operations|
    ensures var t, first := |e.block.incoming| + operation, NextIndex(e.block, operation);
      var created := CreatedBy(e.block, operation);
      && (t == 0 ==> first == 0) && (t > 0 ==> e.messageCounts[t - 1] == first)
      && e.messageCounts[t] == first + |created| <= |e.messages|
      && e.messages[first..first + |created|] == created
  {
    var t := |e.block.incoming| + operation;
    assert Counts(e.block, t + 1, e.messageCounts[t]);
    assert t > 0 ==> Counts(e.block, t, e.messageCounts[t - 1]);
    AfterGrows(e.block, t, t + 1);
    AfterGrows(e.block, t + 1, e.block.Size());
    var before, after := After(e.block, t).value, After(e.block, t + 1).value;
    assert after == before + CreatedBy(e.block, operation);
    assert after == e.messages[..|after|];
    assert after[|before|..] == CreatedBy(e.block, operation);
  }

  /** There is an identifier exactly for the messages that the operation created, and it points at them. */
  lemma IdentifiersAreExact(e: ExecutedBlock, operation: nat, message: nat)
    requires Executed(e)
    ensures MessageIdForOperation(e, operation, message).Some? <==>
      operation < |e.block.operations| && message < |CreatedBy(e.block, operation)|
    ensures MessageIdForOperation(e, operation, message).Some? ==>
      var id, next := MessageIdForOperation(e, operation, message).value, NextMessageId(e.block, operation);
      && id == next.(index := next.index + message) && id.index < |e.messages|
      && e.messages[id.index] == CreatedBy(e.block, operation)[message]
  {
    if operation < |e.block.operations| {
      OperationAt(e, operation);
      var t := |e.block.incoming| + operation;
      assert Counts(e.block, t + 1, e.messageCounts[t]);
    }
  }

  /** Clients and execution derive the same identifier for what the first message of an operation creates. */
  lemma ClientsAgree(e: ExecutedBlock, operation: nat)
    requires Executed(e) && operation < |e.block.operations| && CreatedBy(e.block, operation) != []
    ensures MessageIdForOperation(e, operation, 0) == Some(NextMessageId(e.block, operation))
  {
    IdentifiersAreExact(e, operation, 0);
  }
}
