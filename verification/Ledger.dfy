/** The balances of a chain: executing system messages, operations and blocks. */
module Ledger {
  import opened Common
  import opened Sums

  /** Amounts are 128-bit machine integers. */
  type Amount = n: nat | n <= U128_MAX

  datatype Account = Account(chain: ChainId, owner: Option<Owner>)

  /** Who receives a transfer: nobody, or an account. */
  datatype Payee = Burn | Pay(account: Account)

  /** The messages that concern balances; of the others, the fees charged by their execution matter. */
  datatype SystemMessage =
    | Credit(account: Account, amount: Amount)
    | Withdraw(account: Account, amount: Amount, payee: Payee)
    | OtherMessage(fees: seq<Amount>)

  datatype Incoming = Incoming(message: SystemMessage, signer: Option<Owner>)

  datatype Outgoing = Outgoing(target: ChainId, message: SystemMessage, authenticated: bool, isSkippable: bool)

  datatype Operation =
    | Transfer(source: Option<Owner>, payee: Payee, amount: Amount)
    | Claim(owner: Owner, target: ChainId, payee: Payee, amount: Amount)
    | OtherOperation(fees: seq<Amount>)

  /** A block, with the fees for its certificate, its incoming messages and its operations. */
  datatype Block = Block(incoming: seq<Incoming>, operations: seq<Operation>, signer: Option<Owner>, fees: seq<Amount>)

  datatype LedgerError =
    | Overflow
    | Underflow
    | UnauthenticatedTransferOwner
    | IncorrectTransferAmount
    | InsufficientFunding
    | UnauthenticatedClaimOwner
    | IncorrectClaimAmount

  datatype Balances = Balances(chain: Amount, owners: map<Owner, Amount>) {
    function Of(owner: Option<Owner>): Amount {
      match owner
      case None => chain
      case Some(o) => if o in owners then owners[o] else 0
    }

    function Set(owner: Option<Owner>, amount: Amount): Balances {
      match owner
      case None => Balances(amount, owners)
      case Some(o) => Balances(chain, owners[o := amount])
    }
  }

  /** The result of an execution: new balances, messages sent, and tokens burned. */
  datatype Effect = Effect(balances: Balances, sent: seq<Outgoing>, burned: nat)

  type Execution = Result<Effect, LedgerError>

  function SaturatingAdd(a: Amount, b: Amount): (r: Amount)
    ensures a <= r <= a + b && (r == a + b <==> a + b <= U128_MAX) && (a + b > U128_MAX ==> r == U128_MAX)
  {
    if a + b <= U128_MAX then a + b else U128_MAX
  }

  // ----- What an execution does -----

  /** Charges fees one by one to the balance of the chain. */
  function Charge(b: Balances, fees: seq<Amount>): Result<Balances, LedgerError> {
    if fees == [] then Ok(b)
    else match Charge(b, fees[..|fees| - 1])
      case Ok(b') =>
        if b'.chain < fees[|fees| - 1] then Err(Underflow) else Ok(b'.(chain := b'.chain - fees[|fees| - 1]))
      case Err(error) => Err(error)
  }

  /** Takes an amount out of an account and pays it. */
  function PayOut(b: Balances, owner: Option<Owner>, payee: Payee, amount: Amount): Effect
    requires amount <= b.Of(owner)
  {
    var b' := b.Set(owner, b.Of(owner) - amount);
    match payee
    case Burn => Effect(b', [], amount)
    case Pay(account) => Effect(b', [Outgoing(account.chain, Credit(account, amount), false, false)], 0)
  }

  function ExecuteMessage(b: Balances, chain: ChainId, m: Incoming): Execution {
    match m.message
    case Credit(account, amount) =>
      if account.chain != chain then Ok(Effect(b, [], 0))
      else Ok(Effect(b.Set(account.owner, SaturatingAdd(b.Of(account.owner), amount)), [], 0))
    case Withdraw(account, amount, payee) =>
      if account.owner.None? || account.chain != chain || m.signer != account.owner then Ok(Effect(b, [], 0))
      else if amount <= b.Of(account.owner) then Ok(PayOut(b, account.owner, payee, amount))
      else Ok(Effect(b.Set(account.owner, b.Of(account.owner)), [], 0))
    case OtherMessage(fees) => Charged(b, fees)
  }

  function Charged(b: Balances, fees: seq<Amount>): Execution {
    match Charge(b, fees)
    case Ok(b') => Ok(Effect(b', [], 0))
    case Err(error) => Err(error)
  }

  function ExecuteOperation(b: Balances, signer: Option<Owner>, op: Operation): Execution {
    match op
    case Transfer(owner, payee, amount) =>
      if owner.Some? && signer != owner then Err(UnauthenticatedTransferOwner)
      else if amount == 0 then Err(IncorrectTransferAmount)
      else if b.Of(owner) < amount then Err(InsufficientFunding)
      else Ok(PayOut(b, owner, payee, amount))
    case Claim(owner, target, payee, amount) =>
      if signer != Some(owner) then Err(UnauthenticatedClaimOwner)
      else if amount == 0 then Err(IncorrectClaimAmount)
      else Ok(Effect(b, [Outgoing(target, Withdraw(Account(target, Some(owner)), amount, payee), true, false)], 0))
    case OtherOperation(fees) => Charged(b, fees)
  }

  function ExecuteMessages(b: Balances, chain: ChainId, ms: seq<Incoming>): Execution {
    if ms == [] then Ok(Effect(b, [], 0))
    else match ExecuteMessages(b, chain, ms[..|ms| - 1])
      case Ok(e) => Then(e, ExecuteMessage(e.balances, chain, ms[|ms| - 1]))
      case Err(error) => Err(error)
  }

  function ExecuteOperations(b: Balances, signer: Option<Owner>, ops: seq<Operation>): Execution {
    if ops == [] then Ok(Effect(b, [], 0))
    else match ExecuteOperations(b, signer, ops[..|ops| - 1])
      case Ok(e) => Then(e, ExecuteOperation(e.balances, signer, ops[|ops| - 1]))
      case Err(error) => Err(error)
  }

  /** Adds the messages and the burned tokens of an earlier execution. */
  function Then(e: Effect, next: Execution): Execution {
    match next
    case Ok(n) => Ok(Effect(n.balances, e.sent + n.sent, e.burned + n.burned))
    case Err(error) => Err(error)
  }

  /** The credit that a block brings to the balance of its chain, as a saturating sum. */
  function IncomingCredit(chain: ChainId, ms: seq<Incoming>): Amount {
    if ms == [] then 0
    else match ms[|ms| - 1].message
      case Credit(account, amount) =>
        if account == Account(chain, None) then SaturatingAdd(IncomingCredit(chain, ms[..|ms| - 1]), amount)
        else IncomingCredit(chain, ms[..|ms| - 1])
      case _ => IncomingCredit(chain, ms[..|ms| - 1])
  }

  /** The balances with the incoming credit advanced and the fees of the block paid. */
  function Advance(b: Balances, chain: ChainId, block: Block): Result<Balances, LedgerError> {
    var credit := IncomingCredit(chain, block.incoming);
    if b.chain + credit > U128_MAX then Err(Overflow)
    else Charge(b.(chain := b.chain + credit), block.fees)
  }

  /** Executes the messages, then the operations. */
  function ExecuteTransactions(b: Balances, chain: ChainId, block: Block): Execution {
    match ExecuteMessages(b, chain, block.incoming)
    case Err(error) => Err(error)
    case Ok(e) => Then(e, ExecuteOperations(e.balances, block.signer, block.operations))
  }

  /** The incoming credit pays for fees in advance; it is taken back at the end of the block. */
  function ExecuteBlock(b: Balances, chain: ChainId, block: Block): Execution {
    match Advance(b, chain, block)
    case Err(error) => Err(error)
    case Ok(b0) => match ExecuteTransactions(b0, chain, block)
      case Err(error) => Err(error)
      case Ok(e) => match Charge(e.balances, [IncomingCredit(chain, block.incoming)])
        case Err(error) => Err(error)
        case Ok(after) => Ok(e.(balances := after))
  }

  // ----- What tokens are where -----

  /** All the tokens held by a chain. */
  ghost function Worth(b: Balances): nat {
    b.chain + Total(b.owners, b.owners.Keys)
  }

  function Sum(fees: seq<Amount>): nat {
    if fees == [] then 0 else Sum(fees[..|fees| - 1]) + fees[|fees| - 1]
  }

  /** The tokens that a message carries to a chain. */
  function CreditTo(chain: ChainId, m: SystemMessage): nat {
    if m.Credit? && m.account.chain == chain then m.amount else 0
  }

  function CreditsTo(chain: ChainId, ms: seq<Incoming>): nat {
    if ms == [] then 0 else CreditsTo(chain, ms[..|ms| - 1]) + CreditTo(chain, ms[|ms| - 1].message)
  }

  /** The tokens carried by outgoing messages. */
  function CreditsSent(sent: seq<Outgoing>): nat {
    if sent == [] then 0
    else CreditsSent(sent[..|sent| - 1]) + CreditTo(sent[|sent| - 1].target, sent[|sent| - 1].message)
  }

  function FeesOf(m: SystemMessage): seq<Amount> {
    if m.OtherMessage? then m.fees else []
  }

  function OperationFees(op: Operation): seq<Amount> {
    if op.OtherOperation? then op.fees else []
  }

  function MessagesFees(ms: seq<Incoming>): nat {
    if ms == [] then 0 else MessagesFees(ms[..|ms| - 1]) + Sum(FeesOf(ms[|ms| - 1].message))
  }

  function OperationsFees(ops: seq<Operation>): nat {
    if ops == [] then 0 else OperationsFees(ops[..|ops| - 1]) + Sum(OperationFees(ops[|ops| - 1]))
  }

  function BlockFees(block: Block): nat {
    Sum(block.fees) + MessagesFees(block.incoming) + OperationsFees(block.operations)
  }

  /** Whether a credit fits in the account it goes to. */
  predicate Fits(b: Balances, chain: ChainId, m: SystemMessage) {
    CreditTo(chain, m) > 0 ==> b.Of(m.account.owner) + m.amount <= U128_MAX
  }

  /** The tokens of a credit that do not fit in the account it goes to. */
  function LostBy(b: Balances, chain: ChainId, m: SystemMessage): nat {
    if Fits(b, chain, m) then 0 else b.Of(m.account.owner) + m.amount - U128_MAX
  }

  function Lost(b: Balances, chain: ChainId, ms: seq<Incoming>): nat {
    if ms == [] then 0
    else var front := ms[..|ms| - 1];
      match ExecuteMessages(b, chain, front)
      case Ok(e) => Lost(b, chain, front) + LostBy(e.balances, chain, ms[|ms| - 1].message)
      case Err(_) => Lost(b, chain, front)
  }

  // ----- Conservation -----

  /** Setting one account changes the worth by the difference. */
  lemma SetWorth(b: Balances, owner: Option<Owner>, amount: Amount)
    ensures Worth(b.Set(owner, amount)) + b.Of(owner) == Worth(b) + amount
  {
    if owner.Some? {
      TotalUpdate(b.owners, owner.value, amount);
    }
  }

  lemma {:induction false} ChargeWorth(b: Balances, fees: seq<Amount>)
    ensures Charge(b, fees).Ok? <==> Sum(fees) <= b.chain
    ensures Charge(b, fees).Ok? ==> Charge(b, fees).value == b.(chain := b.chain - Sum(fees))
    ensures Charge(b, fees).Ok? ==> Worth(Charge(b, fees).value) + Sum(fees) == Worth(b)
  {
    if fees != [] {
      ChargeWorth(b, fees[..|fees| - 1]);
    }
  }

  lemma PayOutWorth(b: Balances, owner: Option<Owner>, payee: Payee, amount: Amount)
    requires amount <= b.Of(owner)
    ensures var e := PayOut(b, owner, payee, amount); Worth(e.balances) + CreditsSent(e.sent) + e.burned == Worth(b)
  {
    SetWorth(b, owner, b.Of(owner) - amount);
    var sent := PayOut(b, owner, payee, amount).sent;
    if payee.Pay? {
      assert sent[..0] == [];
    }
  }

  lemma MessageConserves(b: Balances, chain: ChainId, m: Incoming)
    requires ExecuteMessage(b, chain, m).Ok?
    ensures var e := ExecuteMessage(b, chain, m).value;
      Worth(e.balances) + Sum(FeesOf(m.message)) + CreditsSent(e.sent) + e.burned + LostBy(b, chain, m.message)
      == Worth(b) + CreditTo(chain, m.message)
  {
    match m.message {
      case Credit(account, amount) => SetWorth(b, account.owner, SaturatingAdd(b.Of(account.owner), amount));
      case Withdraw(account, amount, payee) =>
        SetWorth(b, account.owner, b.Of(account.owner));
        if amount <= b.Of(account.owner) {
          PayOutWorth(b, account.owner, payee, amount);
        }
      case OtherMessage(fees) => ChargeWorth(b, fees);
    }
  }

  lemma OperationConserves(b: Balances, signer: Option<Owner>, op: Operation)
    requires ExecuteOperation(b, signer, op).Ok?
    ensures var e := ExecuteOperation(b, signer, op).value;
      Worth(e.balances) + Sum(OperationFees(op)) + CreditsSent(e.sent) + e.burned == Worth(b)
  {
    match op {
      case Transfer(owner, payee, amount) => PayOutWorth(b, owner, payee, amount);
      case Claim(_, _, _, _) => assert ExecuteOperation(b, signer, op).value.sent[..0] == [];
      case OtherOperation(fees) => ChargeWorth(b, fees);
    }
  }

  lemma {:induction false} CreditsSentAdd(a: seq<Outgoing>, c: seq<Outgoing>)
    ensures CreditsSent(a + c) == CreditsSent(a) + CreditsSent(c)
  {
    if c == [] {
      assert a + c == a;
    } else {
      CreditsSentAdd(a, c[..|c| - 1]);
      assert (a + c)[..|a + c| - 1] == a + c[..|c| - 1];
    }
  }

  lemma {:induction false} MessagesConserve(b: Balances, chain: ChainId, ms: seq<Incoming>)
    requires ExecuteMessages(b, chain, ms).Ok?
    ensures var e := ExecuteMessages(b, chain, ms).value;
      Worth(e.balances) + MessagesFees(ms) + CreditsSent(e.sent) + e.burned + Lost(b, chain, ms)
      == Worth(b) + CreditsTo(chain, ms)
  {
    if ms != [] {
      var front, last := ms[..|ms| - 1], ms[|ms| - 1];
      MessagesConserve(b, chain, front);
      var e := ExecuteMessages(b, chain, front).value;
      MessageConserves(e.balances, chain, last);
      CreditsSentAdd(e.sent, ExecuteMessage(e.balances, chain, last).value.sent);
    }
  }

  lemma {:induction false} OperationsConserve(b: Balances, signer: Option<Owner>, ops: seq<Operation>)
    requires ExecuteOperations(b, signer, ops).Ok?
    ensures var e := ExecuteOperations(b, signer, ops).value;
      Worth(e.balances) + OperationsFees(ops) + CreditsSent(e.sent) + e.burned == Worth(b)
  {
    if ops != [] {
      var front, last := ops[..|ops| - 1], ops[|ops| - 1];
      OperationsConserve(b, signer, front);
      var e := ExecuteOperations(b, signer, front).value;
      OperationConserves(e.balances, signer, last);
      CreditsSentAdd(e.sent, ExecuteOperation(e.balances, signer, last).value.sent);
    }
  }

  /** The tokens that the saturating additions of a block lose. */
  function BlockLoss(b: Balances, chain: ChainId, block: Block): nat {
    match Advance(b, chain, block)
    case Ok(b0) => Lost(b0, chain, block.incoming)
    case Err(_) => 0
  }

  /**
    A block creates no tokens: what the chain holds afterwards, with the fees, the tokens sent and
    the tokens burned, is what it held before with the credits it received, less what saturation lost.
   */
  lemma BlockConserves(b: Balances, chain: ChainId, block: Block)
    requires ExecuteBlock(b, chain, block).Ok?
    ensures var e := ExecuteBlock(b, chain, block).value;
      Worth(e.balances) + BlockFees(block) + CreditsSent(e.sent) + e.burned + BlockLoss(b, chain, block)
      == Worth(b) + CreditsTo(chain, block.incoming)
  {
    AdvanceWorth(b, chain, block);
    var b0 := Advance(b, chain, block).value;
    TransactionsConserve(b0, chain, block);
    SettleWorth(ExecuteTransactions(b0, chain, block).value.balances, IncomingCredit(chain, block.incoming));
  }

  lemma AdvanceWorth(b: Balances, chain: ChainId, block: Block)
    requires Advance(b, chain, block).Ok?
    ensures Worth(Advance(b, chain, block).value) + Sum(block.fees) == Worth(b) + IncomingCredit(chain, block.incoming)
  {
    ChargeWorth(b.(chain := b.chain + IncomingCredit(chain, block.incoming)), block.fees);
  }

  lemma SettleWorth(b: Balances, credit: Amount)
    requires Charge(b, [credit]).Ok?
    ensures Worth(Charge(b, [credit]).value) + credit == Worth(b)
  {
    ChargeWorth(b, [credit]);
    assert [credit][..0] == [];
  }

  lemma TransactionsConserve(b: Balances, chain: ChainId, block: Block)
    requires ExecuteTransactions(b, chain, block).Ok?
    ensures var e := ExecuteTransactions(b, chain, block).value;
      Worth(e.balances) + MessagesFees(block.incoming) + OperationsFees(block.operations)
      + CreditsSent(e.sent) + e.burned + Lost(b, chain, block.incoming)
      == Worth(b) + CreditsTo(chain, block.incoming)
  {
    MessagesConserve(b, chain, block.incoming);
    var e1 := ExecuteMessages(b, chain, block.incoming).value;
    OperationsConserve(e1.balances, block.signer, block.operations);
    CreditsSentAdd(e1.sent, ExecuteOperations(e1.balances, block.signer, block.operations).value.sent);
  }

  // ----- All the blocks of a chain -----

  function ExecuteBlocks(b: Balances, chain: ChainId, blocks: seq<Block>): Execution {
    if blocks == [] then Ok(Effect(b, [], 0))
    else match ExecuteBlocks(b, chain, blocks[..|blocks| - 1])
      case Ok(e) => Then(e, ExecuteBlock(e.balances, chain, blocks[|blocks| - 1]))
      case Err(error) => Err(error)
  }

  function BlocksFees(blocks: seq<Block>): nat {
    if blocks == [] then 0 else BlocksFees(blocks[..|blocks| - 1]) + BlockFees(blocks[|blocks| - 1])
  }

  /** The tokens that the blocks of a chain receive. */
  function BlocksCredits(chain: ChainId, blocks: seq<Block>): nat {
    if blocks == [] then 0
    else BlocksCredits(chain, blocks[..|blocks| - 1]) + CreditsTo(chain, blocks[|blocks| - 1].incoming)
  }

  function BlocksLoss(b: Balances, chain: ChainId, blocks: seq<Block>): nat {
    if blocks == [] then 0
    else var front := blocks[..|blocks| - 1];
      match ExecuteBlocks(b, chain, front)
      case Ok(e) => BlocksLoss(b, chain, front) + BlockLoss(e.balances, chain, blocks[|blocks| - 1])
      case Err(_) => BlocksLoss(b, chain, front)
  }

  /** The tokens of a chain are accounted for over all its blocks. */
  lemma {:induction false} BlocksConserve(b: Balances, chain: ChainId, blocks: seq<Block>)
    requires ExecuteBlocks(b, chain, blocks).Ok?
    ensures var e := ExecuteBlocks(b, chain, blocks).value;
      Worth(e.balances) + BlocksFees(blocks) + CreditsSent(e.sent) + e.burned + BlocksLoss(b, chain, blocks)
      == Worth(b) + BlocksCredits(chain, blocks)
  {
    if blocks != [] {
      var front, last := blocks[..|blocks| - 1], blocks[|blocks| - 1];
      BlocksConserve(b, chain, front);
      var e := ExecuteBlocks(b, chain, front).value;
      BlockConserves(e.balances, chain, last);
      CreditsSentAdd(e.sent, ExecuteBlock(e.balances, chain, last).value.sent);
    }
  }

  // ----- Who spends -----

  /** A withdrawal from an account of this chain that its owner signed. */
  predicate Withdraws(m: Incoming, chain: ChainId, o: Owner) {
    m.message.Withdraw? && m.message.account == Account(chain, Some(o)) && m.signer == Some(o)
  }

  lemma {:induction false} MessagesSpend(b: Balances, chain: ChainId, ms: seq<Incoming>, o: Owner)
    requires ExecuteMessages(b, chain, ms).Ok?
    ensures || ExecuteMessages(b, chain, ms).value.balances.Of(Some(o)) >= b.Of(Some(o))
            || exists i :: 0 <= i < |ms| && Withdraws(ms[i], chain, o)
  {
    if ms != [] {
      var front, last := ms[..|ms| - 1], ms[|ms| - 1];
      MessagesSpend(b, chain, front, o);
      if i :| 0 <= i < |front| && Withdraws(front[i], chain, o) {
        assert ms[i] == front[i];
      } else if last.message.OtherMessage? {
        ChargeWorth(ExecuteMessages(b, chain, front).value.balances, last.message.fees);
      } else {
        assert Withdraws(last, chain, o) ==> Withdraws(ms[|ms| - 1], chain, o);
      }
    }
  }

  lemma {:induction false} OperationsSpend(b: Balances, signer: Option<Owner>, ops: seq<Operation>, o: Owner)
    requires ExecuteOperations(b, signer, ops).Ok?
    ensures ExecuteOperations(b, signer, ops).value.balances.Of(Some(o)) >= b.Of(Some(o)) || signer == Some(o)
  {
    if ops != [] {
      var front, last := ops[..|ops| - 1], ops[|ops| - 1];
      OperationsSpend(b, signer, front, o);
      if last.OtherOperation? {
        ChargeWorth(ExecuteOperations(b, signer, front).value.balances, last.fees);
      }
    }
  }

  /** The balance of an owner decreases only if that owner signed the block or a withdrawal. */
  lemma OnlyOwnersSpend(b: Balances, chain: ChainId, block: Block, o: Owner)
    requires ExecuteBlock(b, chain, block).Ok?
    requires ExecuteBlock(b, chain, block).value.balances.Of(Some(o)) < b.Of(Some(o))
    ensures block.signer == Some(o) || exists i :: 0 <= i < |block.incoming| && Withdraws(block.incoming[i], chain, o)
  {
    var credit := IncomingCredit(chain, block.incoming);
    ChargeWorth(b.(chain := b.chain + credit), block.fees);
    var b0 := Advance(b, chain, block).value;
    MessagesSpend(b0, chain, block.incoming, o);
    var e := ExecuteMessages(b0, chain, block.incoming).value;
    OperationsSpend(e.balances, block.signer, block.operations, o);
    ChargeWorth(ExecuteTransactions(b0, chain, block).value.balances, [credit]);
  }

  // ----- When no token is lost -----

  function CreditOf(account: Account, m: SystemMessage): nat {
    if m.Credit? && m.account == account then m.amount else 0
  }

  /** The tokens that messages bring to one account of a chain. */
  function Received(account: Account, ms: seq<Incoming>): nat {
    if ms == [] then 0 else Received(account, ms[..|ms| - 1]) + CreditOf(account, ms[|ms| - 1].message)
  }

  /** No account can hold more than it had and received. */
  lemma {:induction false} AtMostReceived(b: Balances, chain: ChainId, ms: seq<Incoming>, owner: Option<Owner>)
    requires ExecuteMessages(b, chain, ms).Ok?
    ensures ExecuteMessages(b, chain, ms).value.balances.Of(owner) <= b.Of(owner) + Received(Account(chain, owner), ms)
  {
    if ms != [] {
      var front, last := ms[..|ms| - 1], ms[|ms| - 1];
      AtMostReceived(b, chain, front, owner);
      var e := ExecuteMessages(b, chain, front).value;
      if last.message.OtherMessage? {
        ChargeWorth(e.balances, last.message.fees);
      }
    }
  }

  lemma {:induction false} IncomingCreditBound(chain: ChainId, ms: seq<Incoming>)
    ensures IncomingCredit(chain, ms) <= Received(Account(chain, None), ms)
    ensures Received(Account(chain, None), ms) <= U128_MAX ==>
      IncomingCredit(chain, ms) == Received(Account(chain, None), ms)
  {
    if ms != [] {
      IncomingCreditBound(chain, ms[..|ms| - 1]);
    }
  }

  /** Room for what a block brings: twice for the balance of the chain, where the credit is also advanced. */
  ghost predicate Room(b: Balances, chain: ChainId, ms: seq<Incoming>) {
    && b.chain + 2 * Received(Account(chain, None), ms) <= U128_MAX
    && (forall o: Owner :: b.Of(Some(o)) + Received(Account(chain, Some(o)), ms) <= U128_MAX)
  }

  lemma {:induction false} RoomyMessagesLoseNothing(b: Balances, chain: ChainId, ms: seq<Incoming>)
    requires forall owner :: b.Of(owner) + Received(Account(chain, owner), ms) <= U128_MAX
    ensures Lost(b, chain, ms) == 0
  {
    if ms != [] {
      var front, last := ms[..|ms| - 1], ms[|ms| - 1];
      forall owner ensures b.Of(owner) + Received(Account(chain, owner), front) <= U128_MAX {
        assert b.Of(owner) + Received(Account(chain, owner), ms) <= U128_MAX;
      }
      RoomyMessagesLoseNothing(b, chain, front);
      if ExecuteMessages(b, chain, front).Ok? && CreditTo(chain, last.message) > 0 {
        var owner := last.message.account.owner;
        AtMostReceived(b, chain, front, owner);
        assert b.Of(owner) + Received(Account(chain, owner), ms) <= U128_MAX;
      }
    }
  }

  /** A block for which there is room loses nothing. */
  lemma RoomLosesNothing(b: Balances, chain: ChainId, block: Block)
    requires Room(b, chain, block.incoming)
    ensures BlockLoss(b, chain, block) == 0
  {
    var ms, credit := block.incoming, IncomingCredit(chain, block.incoming);
    IncomingCreditBound(chain, ms);
    if Advance(b, chain, block).Ok? {
      ChargeWorth(b.(chain := b.chain + credit), block.fees);
      var b0 := Advance(b, chain, block).value;
      forall owner ensures b0.Of(owner) + Received(Account(chain, owner), ms) <= U128_MAX {
        if owner.Some? {
          assert b0.Of(owner) == b.Of(Some(owner.value));
        }
      }
      RoomyMessagesLoseNothing(b0, chain, ms);
    }
  }

  // ----- Exactly when no token is lost -----

  /** What one message does to an account, if amounts had no bound. */
  function Moved(x: int, account: Account, m: Incoming): int {
    match m.message
    case Credit(to, amount) => if to == account then x + amount else x
    case Withdraw(_, amount, _) =>
      if account.owner.Some? && Withdraws(m, account.chain, account.owner.value) && amount <= x then x - amount else x
    case OtherMessage(fees) => if account.owner.None? then x - Sum(fees) else x
  }

  /** What an account would hold after some messages, if amounts had no bound. */
  function Running(x: int, account: Account, ms: seq<Incoming>): int {
    if ms == [] then x else Moved(Running(x, account, ms[..|ms| - 1]), account, ms[|ms| - 1])
  }

  /** Without a bound, no credit would take its account over the largest amount. */
  ghost predicate NeverExceeds(b: Balances, chain: ChainId, ms: seq<Incoming>) {
    forall i :: 0 <= i < |ms| && CreditTo(chain, ms[i].message) > 0 ==> StaysBelow(b, ms, i)
  }

  predicate StaysBelow(b: Balances, ms: seq<Incoming>, i: nat)
    requires i < |ms| && ms[i].message.Credit?
  {
    var account := ms[i].message.account;
    Running(b.Of(account.owner), account, ms[..i]) + ms[i].message.amount <= U128_MAX
  }

  lemma MessageMoves(b: Balances, chain: ChainId, m: Incoming, owner: Option<Owner>)
    requires ExecuteMessage(b, chain, m).Ok? && Fits(b, chain, m.message)
    ensures ExecuteMessage(b, chain, m).value.balances.Of(owner) == Moved(b.Of(owner), Account(chain, owner), m)
  {
    if m.message.OtherMessage? {
      ChargeWorth(b, m.message.fees);
    }
  }

  /** Nothing is lost exactly if no running balance exceeds the bound; then every balance is its running balance. */
  lemma {:induction false} RunningIs(b: Balances, chain: ChainId, ms: seq<Incoming>)
    requires ExecuteMessages(b, chain, ms).Ok?
    ensures Lost(b, chain, ms) == 0 <==> NeverExceeds(b, chain, ms)
    ensures Lost(b, chain, ms) == 0 ==> forall owner ::
      ExecuteMessages(b, chain, ms).value.balances.Of(owner) == Running(b.Of(owner), Account(chain, owner), ms)
  {
    if ms != [] {
      var n, front, last := |ms| - 1, ms[..|ms| - 1], ms[|ms| - 1];
      RunningIs(b, chain, front);
      NeverExceedsStep(b, chain, ms);
      var before := ExecuteMessages(b, chain, front).value.balances;
      if Lost(b, chain, front) == 0 && CreditTo(chain, last.message) > 0 {
        var owner := last.message.account.owner;
        assert before.Of(owner) == Running(b.Of(owner), Account(chain, owner), front);
        assert ms[..n] == front;
      }
      if Lost(b, chain, ms) == 0 {
        forall owner ensures ExecuteMessages(b, chain, ms).value.balances.Of(owner)
                          == Running(b.Of(owner), Account(chain, owner), ms)
        {
          MessageMoves(before, chain, last, owner);
        }
      }
    }
  }

  lemma NeverExceedsStep(b: Balances, chain: ChainId, ms: seq<Incoming>)
    requires ms != []
    ensures NeverExceeds(b, chain, ms) <==>
      && NeverExceeds(b, chain, ms[..|ms| - 1])
      && (CreditTo(chain, ms[|ms| - 1].message) > 0 ==> StaysBelow(b, ms, |ms| - 1))
  {
    var front := ms[..|ms| - 1];
    forall i | 0 <= i < |front| ensures front[i] == ms[i] && front[..i] == ms[..i] {
    }
    forall i | 0 <= i < |front| && CreditTo(chain, ms[i].message) > 0
      ensures StaysBelow(b, front, i) <==> StaysBelow(b, ms, i)
    {
      assert front[i] == ms[i] && front[..i] == ms[..i];
    }
  }

  /** The balance of a chain only receives credits and pays fees. */
  lemma {:induction false} ChainRunning(x: int, chain: ChainId, ms: seq<Incoming>)
    ensures Running(x, Account(chain, None), ms) == x + Received(Account(chain, None), ms) - MessagesFees(ms)
  {
    if ms != [] {
      ChainRunning(x, chain, ms[..|ms| - 1]);
    }
  }

  /**
    A credit of a block fits: in the balance of the chain, with the advance and the fees so far, or in that of an owner.
   */
  ghost predicate CreditStaysBelow(b: Balances, chain: ChainId, block: Block, i: nat)
    requires i < |block.incoming| && block.incoming[i].message.Credit?
  {
    var front, m := block.incoming[..i], block.incoming[i].message;
    var account, amount := m.account, m.amount;
    match account.owner
    case None => b.chain + IncomingCredit(chain, block.incoming) + Received(account, front) + amount
                 <= U128_MAX + Sum(block.fees) + MessagesFees(front)
    case Some(o) => Running(b.Of(Some(o)), account, front) + amount <= U128_MAX
  }

  ghost predicate CreditsStayBelow(b: Balances, chain: ChainId, block: Block) {
    forall i :: 0 <= i < |block.incoming| && CreditTo(chain, block.incoming[i].message) > 0 ==>
      CreditStaysBelow(b, chain, block, i)
  }

  /** A block loses no token if and only if each of its credits stays below the bound. */
  lemma BlockLosesNothingIff(b: Balances, chain: ChainId, block: Block)
    requires ExecuteBlock(b, chain, block).Ok?
    ensures BlockLoss(b, chain, block) == 0 <==> CreditsStayBelow(b, chain, block)
  {
    var b0 := Advance(b, chain, block).value;
    RunningIs(b0, chain, block.incoming);
    BoundsAgree(b, chain, block);
  }

  lemma BoundsAgree(b: Balances, chain: ChainId, block: Block)
    requires Advance(b, chain, block).Ok?
    ensures NeverExceeds(Advance(b, chain, block).value, chain, block.incoming) <==> CreditsStayBelow(b, chain, block)
  {
    var ms, b0 := block.incoming, Advance(b, chain, block).value;
    forall i | 0 <= i < |ms| && CreditTo(chain, ms[i].message) > 0
      ensures StaysBelow(b0, ms, i) <==> CreditStaysBelow(b, chain, block, i)
    {
      BoundAgrees(b, chain, block, i);
    }
  }

  lemma BoundAgrees(b: Balances, chain: ChainId, block: Block, i: nat)
    requires Advance(b, chain, block).Ok? && i < |block.incoming| && CreditTo(chain, block.incoming[i].message) > 0
    ensures StaysBelow(Advance(b, chain, block).value, block.incoming, i) <==> CreditStaysBelow(b, chain, block, i)
  {
    var b0, owner := Advance(b, chain, block).value, block.incoming[i].message.account.owner;
    ChargeWorth(b.(chain := b.chain + IncomingCredit(chain, block.incoming)), block.fees);
    if owner.None? {
      ChainRunning(b0.chain, chain, block.incoming[..i]);
    } else {
      assert b0.Of(owner) == b.Of(owner);
    }
  }

  /**
    Room for the credits alone is not enough: the balance of the chain holds a credit twice while a
    block executes. A credit of half the range to an empty chain loses a token.
   */
  lemma DoubleCountLoses(chain: ChainId)
    ensures var half: Amount := 0x8000_0000_0000_0000_0000_0000_0000_0000;
      var block := Block([Incoming(Credit(Account(chain, None), half), None)], [], None, []);
      ExecuteBlock(Balances(0, map[]), chain, block) == Ok(Effect(Balances(half - 1, map[]), [], 0))
  {
    var half: Amount := 0x8000_0000_0000_0000_0000_0000_0000_0000;
    var m := Incoming(Credit(Account(chain, None), half), None);
    var block := Block([m], [], None, []);
    var b, b0 := Balances(0, map[]), Balances(half, map[]);
    assert [m][..0] == [];
    assert IncomingCredit(chain, [m]) == half;
    assert Advance(b, chain, block) == Ok(b0);
    assert ExecuteMessages(b0, chain, []) == Ok(Effect(b0, [], 0));
    assert ExecuteMessage(b0, chain, m) == Ok(Effect(Balances(U128_MAX, map[]), [], 0));
    var none: seq<Outgoing> := [];
    assert none + none == none;
    assert ExecuteMessages(b0, chain, [m]) == Ok(Effect(Balances(U128_MAX, map[]), [], 0));
    var b1 := Balances(U128_MAX, map[]);
    assert ExecuteOperations(b1, None, []) == Ok(Effect(b1, [], 0));
    assert ExecuteTransactions(b0, chain, block) == Ok(Effect(b1, [], 0));
    assert [half as Amount][..0] == [];
    assert Charge(b1, [half]) == Ok(Balances(half - 1, map[]));
  }

  // ----- The state of a chain, updated in place -----

  class SystemState {
    const chain: ChainId
    var balance: Amount
    var balances: map<Owner, Amount>

    function State(): Balances
      reads this
    {
      Balances(balance, balances)
    }

    constructor (chain: ChainId, balance: Amount, balances: map<Owner, Amount>)
      ensures this.chain == chain && State() == Balances(balance, balances)
    {
      this.chain, this.balance, this.balances := chain, balance, balances;
    }

    method SubAssignFees(fees: Amount) returns (result: Result<(), LedgerError>)
      modifies this`balance
      ensures result.Ok? <==> fees <= old(balance)
      ensures balance == old(balance) - if result.Ok? then fees else 0
      ensures result.Err? ==> result.error == Underflow
    {
      if balance < fees {
        return Err(Underflow);
      }
      balance := balance - fees;
      return Ok(());
    }

    method ChargeFees(fees: seq<Amount>) returns (result: Result<(), LedgerError>)
      modifies this`balance
      ensures result.Ok? ==> Charge(old(State()), fees) == Ok(State())
      ensures result.Err? ==> Charge(old(State()), fees) == Err(result.error)
    {
      for i := 0 to |fees|
        invariant Charge(old(State()), fees[..i]) == Ok(State())
      {
        assert fees[..i + 1][..i] == fees[..i];
        var paid := SubAssignFees(fees[i]);
        if paid.Err? {
          ChargeFails(old(State()), fees, i);
          return paid;
        }
      }
      assert fees[..|fees|] == fees;
      return Ok(());
    }

    /** Adds to an account, creating it if needed. */
    method SetBalance(owner: Option<Owner>, amount: Amount)
      modifies this
      ensures State() == old(State()).Set(owner, amount)
    {
      match owner {
        case None => balance := amount;
        case Some(o) => balances := balances[o := amount];
      }
    }

    method TransferOut(owner: Option<Owner>, payee: Payee, amount: Amount)
      returns (sent: seq<Outgoing>, ghost burned: nat)
      requires amount <= State().Of(owner)
      modifies this
      ensures Effect(State(), sent, burned) == PayOut(old(State()), owner, payee, amount)
    {
      SetBalance(owner, State().Of(owner) - amount);
      match payee {
        case Burn => return [], amount;
        case Pay(account) => return [Outgoing(account.chain, Credit(account, amount), false, false)], 0;
      }
    }

    method ApplyMessage(m: Incoming) returns (result: Result<seq<Outgoing>, LedgerError>, ghost burned: nat)
      modifies this
      ensures result.Ok? ==> ExecuteMessage(old(State()), chain, m) == Ok(Effect(State(), result.value, burned))
      ensures result.Err? ==> ExecuteMessage(old(State()), chain, m) == Err(result.error)
    {
      match m.message {
        case Credit(account, amount) =>
          if account.chain == chain {
            SetBalance(account.owner, SaturatingAdd(State().Of(account.owner), amount));
          }
          return Ok([]), 0;
        case Withdraw(account, amount, payee) =>
          if account.owner.Some? && account.chain == chain && m.signer == account.owner {
            if amount <= State().Of(account.owner) {
              var sent;
              sent, burned := TransferOut(account.owner, payee, amount);
              return Ok(sent), burned;
            }
            SetBalance(account.owner, State().Of(account.owner));
          }
          return Ok([]), 0;
        case OtherMessage(fees) =>
          var charged := ChargeFees(fees);
          if charged.Err? {
            return Err(charged.error), 0;
          }
          return Ok([]), 0;
      }
    }

    method ApplyOperation(signer: Option<Owner>, op: Operation)
      returns (result: Result<seq<Outgoing>, LedgerError>, ghost burned: nat)
      modifies this
      ensures result.Ok? ==> ExecuteOperation(old(State()), signer, op) == Ok(Effect(State(), result.value, burned))
      ensures result.Err? ==> ExecuteOperation(old(State()), signer, op) == Err(result.error)
    {
      match op {
        case Transfer(source, payee, amount) =>
          if source.Some? && signer != source {
            return Err(UnauthenticatedTransferOwner), 0;
          }
          if amount == 0 {
            return Err(IncorrectTransferAmount), 0;
          }
          if State().Of(source) < amount {
            return Err(InsufficientFunding), 0;
          }
          var sent;
          sent, burned := TransferOut(source, payee, amount);
          return Ok(sent), burned;
        case Claim(owner, target, payee, amount) =>
          if signer != Some(owner) {
            return Err(UnauthenticatedClaimOwner), 0;
          }
          if amount == 0 {
            return Err(IncorrectClaimAmount), 0;
          }
          return Ok([Outgoing(target, Withdraw(Account(target, Some(owner)), amount, payee), true, false)]), 0;
        case OtherOperation(fees) =>
          var charged := ChargeFees(fees);
          if charged.Err? {
            return Err(charged.error), 0;
          }
          return Ok([]), 0;
      }
    }

    method ApplyMessages(ms: seq<Incoming>) returns (result: Result<seq<Outgoing>, LedgerError>, ghost burned: nat)
      modifies this
      ensures result.Ok? ==> ExecuteMessages(old(State()), chain, ms) == Ok(Effect(State(), result.value, burned))
      ensures result.Err? ==> ExecuteMessages(old(State()), chain, ms) == Err(result.error)
    {
      var sent: seq<Outgoing> := [];
      burned := 0;
      for i := 0 to |ms|
        invariant ExecuteMessages(old(State()), chain, ms[..i]) == Ok(Effect(State(), sent, burned))
      {
        assert ms[..i + 1][..i] == ms[..i];
        var step, more := ApplyMessage(ms[i]);
        if step.Err? {
          MessagesFail(old(State()), chain, ms, i);
          return step, burned;
        }
        sent, burned := sent + step.value, burned + more;
      }
      assert ms[..|ms|] == ms;
      return Ok(sent), burned;
    }

    method ApplyOperations(signer: Option<Owner>, ops: seq<Operation>)
      returns (result: Result<seq<Outgoing>, LedgerError>, ghost burned: nat)
      modifies this
      ensures result.Ok? ==> ExecuteOperations(old(State()), signer, ops) == Ok(Effect(State(), result.value, burned))
      ensures result.Err? ==> ExecuteOperations(old(State()), signer, ops) == Err(result.error)
    {
      var sent: seq<Outgoing> := [];
      burned := 0;
      for i := 0 to |ops|
        invariant ExecuteOperations(old(State()), signer, ops[..i]) == Ok(Effect(State(), sent, burned))
      {
        assert ops[..i + 1][..i] == ops[..i];
        var step, more := ApplyOperation(signer, ops[i]);
        if step.Err? {
          OperationsFail(old(State()), signer, ops, i);
          return step, burned;
        }
        sent, burned := sent + step.value, burned + more;
      }
      assert ops[..|ops|] == ops;
      return Ok(sent), burned;
    }

    method SumCredits(ms: seq<Incoming>) returns (credit: Amount)
      ensures credit == IncomingCredit(chain, ms)
    {
      credit := 0;
      for i := 0 to |ms|
        invariant credit == IncomingCredit(chain, ms[..i])
      {
        assert ms[..i + 1][..i] == ms[..i];
        match ms[i].message {
          case Credit(account, amount) =>
            if account == Account(chain, None) {
              credit := SaturatingAdd(credit, amount);
            }
          case _ =>
        }
      }
      assert ms[..|ms|] == ms;
    }

    method ApplyTransactions(block: Block) returns (result: Result<seq<Outgoing>, LedgerError>, ghost burned: nat)
      modifies this
      ensures result.Ok? ==>
        ExecuteTransactions(old(State()), chain, block) == Ok(Effect(State(), result.value, burned))
      ensures result.Err? ==> ExecuteTransactions(old(State()), chain, block) == Err(result.error)
    {
      var received, burned1 := ApplyMessages(block.incoming);
      if received.Err? {
        return received, 0;
      }
      var operated, burned2 := ApplyOperations(block.signer, block.operations);
      if operated.Err? {
        return operated, 0;
      }
      return Ok(received.value + operated.value), burned1 + burned2;
    }

    /** Executes a block: advances the incoming credit, charges, executes, and takes the credit back. */
    method ApplyBlock(block: Block) returns (result: Result<seq<Outgoing>, LedgerError>, ghost burned: nat)
      modifies this
      ensures result.Ok? ==> ExecuteBlock(old(State()), chain, block) == Ok(Effect(State(), result.value, burned))
      ensures result.Err? ==> ExecuteBlock(old(State()), chain, block) == Err(result.error)
    {
      var credit := SumCredits(block.incoming);
      if balance + credit > U128_MAX {
        return Err(Overflow), 0;
      }
      balance := balance + credit;
      var charged := ChargeFees(block.fees);
      if charged.Err? {
        return Err(charged.error), 0;
      }
      result, burned := ApplyTransactions(block);
      if result.Ok? {
        var settled := ChargeFees([credit]);
        if settled.Err? {
          return Err(settled.error), burned;
        }
      }
    }
  }

  // An execution that fails stays failed.

  lemma {:induction false} ChargeFails(b: Balances, fees: seq<Amount>, i: nat)
    requires i < |fees| && Charge(b, fees[..i + 1]).Err?
    ensures Charge(b, fees) == Charge(b, fees[..i + 1])
  {
    if i + 1 == |fees| {
      assert fees[..i + 1] == fees;
    } else {
      assert fees[..|fees| - 1][..i + 1] == fees[..i + 1];
      ChargeFails(b, fees[..|fees| - 1], i);
    }
  }

  lemma {:induction false} MessagesFail(b: Balances, chain: ChainId, ms: seq<Incoming>, i: nat)
    requires i < |ms| && ExecuteMessages(b, chain, ms[..i + 1]).Err?
    ensures ExecuteMessages(b, chain, ms) == ExecuteMessages(b, chain, ms[..i + 1])
  {
    if i + 1 == |ms| {
      assert ms[..i + 1] == ms;
    } else {
      assert ms[..|ms| - 1][..i + 1] == ms[..i + 1];
      MessagesFail(b, chain, ms[..|ms| - 1], i);
    }
  }

  lemma {:induction false} OperationsFail(b: Balances, signer: Option<Owner>, ops: seq<Operation>, i: nat)
    requires i < |ops| && ExecuteOperations(b, signer, ops[..i + 1]).Err?
    ensures ExecuteOperations(b, signer, ops) == ExecuteOperations(b, signer, ops[..i + 1])
  {
    if i + 1 == |ops| {
      assert ops[..i + 1] == ops;
    } else {
      assert ops[..|ops| - 1][..i + 1] == ops[..i + 1];
      OperationsFail(b, signer, ops[..|ops| - 1], i);
    }
  }
}
