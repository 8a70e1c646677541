// Everything that writes one user's wallet balance, statement by statement:
// conditional debits and standalone credits, the settlement credit that reads
// the row under its lock and writes an absolute balance, and the payment
// webhook with its single-use gate and its first-deposit advisory lock.
// Statements of different processes interleave freely; one that needs a lock
// another process holds waits, which is a step that changes nothing.
module WalletWriters {
  import opened Positions
  import opened Wrappers
  import opened Sums

  // A wallet_ledger row.  `credits` counts the times it reached the wallet.
  datatype Payment = Payment(amount: real, paid: bool, credits: nat)

  datatype Process =
    | Locked(read: real, gained: real)      // settlement: row locked and read
    | Written(balance: real, gained: real)  // settlement: new balance written, uncommitted
    | Claimed(order: int)                   // webhook: flipped PENDING to SUCCESS
    | RowMissing(order: int)                // webhook: the join showed no wallet
    | RowSeen(order: int)                   // webhook: the join showed a wallet
    | Serialized(order: int)                // webhook: holds the advisory lock
    | Inserting(order: int)                 // webhook: wallet row inserted, uncommitted
    | Adding(order: int, serialized: bool)  // webhook: balance incremented, uncommitted
  {
    predicate HoldsRow() { Locked? || Written? || Adding? }

    predicate HoldsAdvisory() { Serialized? || Inserting? || (Adding? && serialized) }

    predicate Carries(o: int) { !Locked? && !Written? && order == o }
  }

  // `rows`: the user's committed wallet rows (nothing in the schema says there
  // is at most one).  The last four fields keep the books: money callers were
  // told was debited, were told was credited, settled from trades, and
  // credited to a user with no wallet row.
  datatype State = State(
    rows: seq<real>, rowLock: Option<int>, advisory: Option<int>,
    ledger: map<int, Payment>, processes: map<int, Process>, failed: set<int>,
    debited: real, refunded: real, traded: real, lost: real)

  datatype Action =
    | Debit(amount: real)                // debitWalletIfSufficient
    | Credit(amount: real)               // creditWalletStandalone
    | TradeRead(p: int)                  // creditWallet: SELECT ... FOR UPDATE
    | TradeWrite(p: int, amount: real)   // creditWallet: UPDATE
    | AddFunds(order: int, amount: real) // the PENDING ledger row
    | Gate(p: int, order: int)           // updatePaymentStatus
    | Look(p: int)                       // insertUpdateWallet: the join
    | Serialize(p: int)                  // insertUpdateWallet: advisory lock
    | Recheck(p: int)                    // insertUpdateWallet: SELECT ... FOR UPDATE, then INSERT or UPDATE
    | Increment(p: int)                  // insertUpdateWallet: UPDATE of a row seen by the join
    | Commit(p: int)
    | Fail(p: int)                       // any exception: roll back

  function AddToAll(rows: seq<real>, amount: real): seq<real>
  {
    seq(|rows|, i requires 0 <= i < |rows| => rows[i] + amount)
  }

  function SetAll(rows: seq<real>, balance: real): seq<real> { seq(|rows|, i => balance) }

  function TakeWhereEnough(rows: seq<real>, amount: real): seq<real>
  {
    seq(|rows|, i requires 0 <= i < |rows| => if rows[i] >= amount then rows[i] - amount else rows[i])
  }

  predicate Enough(rows: seq<real>, amount: real) { exists i :: 0 <= i < |rows| && rows[i] >= amount }

  function Put(s: State, p: int, process: Process): State { s.(processes := s.processes[p := process]) }

  // The process is over: its locks are free again.
  function End(s: State, p: int): State
  {
    s.(processes := s.processes - {p},
       rowLock := if s.rowLock == Some(p) then None else s.rowLock,
       advisory := if s.advisory == Some(p) then None else s.advisory)
  }

  function Paid(s: State, order: int): State
    requires order in s.ledger
  {
    s.(ledger := s.ledger[order := s.ledger[order].(credits := s.ledger[order].credits + 1)])
  }

  function CommitStep(s: State, p: int): State
  {
    if p !in s.processes then s
    else match s.processes[p]
         case Written(balance, gained) => End(s, p).(rows := SetAll(s.rows, balance), traded := s.traded + gained)
         case Inserting(order) =>
           if order !in s.ledger then s else Paid(End(s, p), order).(rows := s.rows + [s.ledger[order].amount])
         case Adding(order, _) =>
           if order !in s.ledger then s else Paid(End(s, p), order).(rows := AddToAll(s.rows, s.ledger[order].amount))
         case _ => s
  }

  function TradeStep(s: State, a: Action): State
    requires a.TradeRead? || a.TradeWrite?
  {
    match a
    case TradeRead(p) =>
      if p in s.processes then
        if s.processes[p].Written? then Put(s, p, Locked(s.processes[p].balance, s.processes[p].gained)) else s
      else if s.rowLock.Some? || s.rows == [] then s  // waits; or "No wallet found"
      else Put(s, p, Locked(s.rows[0], 0.0)).(rowLock := Some(p))
    case TradeWrite(p, amount) =>
      if p !in s.processes || !s.processes[p].Locked? || amount <= 0.0 then s
      else Put(s, p, Written(s.processes[p].read + amount, s.processes[p].gained + amount))
  }

  function WebhookStep(s: State, a: Action): State
    requires a.Gate? || a.Look? || a.Serialize? || a.Recheck? || a.Increment?
  {
    match a
    case Gate(p, order) =>
      if p in s.processes || order !in s.ledger || s.ledger[order].paid then s
      else Put(s, p, Claimed(order)).(ledger := s.ledger[order := s.ledger[order].(paid := true)])
    case Look(p) =>
      if p !in s.processes || !s.processes[p].Claimed? then s
      else Put(s, p, if s.rows == [] then RowMissing(s.processes[p].order) else RowSeen(s.processes[p].order))
    case Serialize(p) =>
      if p !in s.processes || !s.processes[p].RowMissing? || s.advisory.Some? then s
      else Put(s, p, Serialized(s.processes[p].order)).(advisory := Some(p))
    case Recheck(p) =>
      if p !in s.processes || !s.processes[p].Serialized? then s
      else if s.rows == [] then Put(s, p, Inserting(s.processes[p].order))
      else if s.rowLock.Some? then s
      else Put(s, p, Adding(s.processes[p].order, true)).(rowLock := Some(p))
    case Increment(p) =>
      if p !in s.processes || !s.processes[p].RowSeen? || s.rowLock.Some? then s
      else Put(s, p, Adding(s.processes[p].order, false)).(rowLock := Some(p))
  }

  function Apply(s: State, a: Action): State
  {
    match a
    case Debit(amount) =>
      if amount <= 0.0 || s.rowLock.Some? || !Enough(s.rows, amount) then s
      else s.(rows := TakeWhereEnough(s.rows, amount), debited := s.debited + amount)
    case Credit(amount) =>
      if amount <= 0.0 || s.rowLock.Some? then s
      else s.(rows := AddToAll(s.rows, amount), refunded := s.refunded + amount,
              lost := if s.rows == [] then s.lost + amount else s.lost)
    case TradeRead(_) => TradeStep(s, a)
    case TradeWrite(_, _) => TradeStep(s, a)
    case AddFunds(order, amount) =>
      if order in s.ledger || amount <= 0.0 then s else s.(ledger := s.ledger[order := Payment(amount, false, 0)])
    case Commit(p) => CommitStep(s, p)
    case Fail(p) =>
      if p !in s.processes then s
      else if s.processes[p].HoldsRow() && !s.processes[p].Adding? then End(s, p)
      else End(s, p).(failed := s.failed + {s.processes[p].order})
    case _ => WebhookStep(s, a)
  }

  function Run(s: State, actions: seq<Action>): State
  {
    if |actions| == 0 then s else Apply(Run(s, actions[..|actions| - 1]), actions[|actions| - 1])
  }

  // ----- Invariant ----------------------------------------------------------------------

  // What a process knows is still true, because of the locks it holds.
  ghost predicate Knows(s: State, process: Process)
  {
    match process
    case Locked(read, gained) => |s.rows| == 1 && s.rows[0] == read - gained && gained >= 0.0
    case Written(balance, gained) => |s.rows| == 1 && s.rows[0] == balance - gained && gained >= 0.0
    case Inserting(_) => s.rows == []
    case Adding(_, _) => |s.rows| == 1
    case RowSeen(_) => |s.rows| == 1
    case _ => true
  }

  ghost predicate LocksHeld(s: State)
  {
    && (forall p :: p in s.processes && s.processes[p].HoldsRow() ==> s.rowLock == Some(p))
    && (forall p :: p in s.processes && s.processes[p].HoldsAdvisory() ==> s.advisory == Some(p))
    && (s.rowLock.Some? ==> s.rowLock.value in s.processes && s.processes[s.rowLock.value].HoldsRow())
    && (s.advisory.Some? ==> s.advisory.value in s.processes && s.processes[s.advisory.value].HoldsAdvisory())
  }

  // One row at most, never negative; every process's knowledge is current.
  ghost predicate RowsSound(s: State)
  {
    && |s.rows| <= 1 && (|s.rows| == 1 ==> s.rows[0] >= 0.0)
    && LocksHeld(s)
    && (forall o :: o in s.ledger ==> s.ledger[o].amount > 0.0)
    && (forall p :: p in s.processes ==> Knows(s, s.processes[p]))
  }

  // A payment in the hands of a process is paid for and not yet credited; no
  // other process has it.
  ghost predicate PaymentsSound(s: State)
  {
    && (forall p, o :: p in s.processes && s.processes[p].Carries(o) ==>
         o in s.ledger && s.ledger[o].paid && s.ledger[o].credits == 0 && o !in s.failed)
    && (forall p, q, o |
          p in s.processes && q in s.processes && s.processes[p].Carries(o) && s.processes[q].Carries(o) :: p == q)
    && (forall o :: o in s.failed ==> o in s.ledger && s.ledger[o].paid && s.ledger[o].credits == 0)
    && (forall o :: o in s.ledger && s.ledger[o].credits > 0 ==> s.ledger[o].paid && s.ledger[o].credits == 1)
  }

  // Where a paid payment is: credited, failed, or in a process's hands.
  ghost predicate Placed(s: State, o: int)
  {
    o in s.ledger && s.ledger[o].paid ==>
      s.ledger[o].credits == 1 || o in s.failed || exists p :: p in s.processes && s.processes[p].Carries(o)
  }

  ghost predicate Accounted(s: State)
  {
    forall o :: Placed(s, o)
  }

  lemma ApplyKeepsRows(s: State, a: Action)
    requires RowsSound(s)
    ensures RowsSound(Apply(s, a))
  {
    match a {
      case TradeRead(_) => TradeKeepsRows(s, a);
      case TradeWrite(_, _) => TradeKeepsRows(s, a);
      case Commit(p) => CommitKeepsRows(s, p);
      case Fail(p) =>
      case Debit(_) =>
        var s' := Apply(s, a);
        forall p | p in s.processes ensures Knows(s', s.processes[p]) { assert Knows(s, s.processes[p]); }
      case Credit(_) =>
        var s' := Apply(s, a);
        forall p | p in s.processes ensures Knows(s', s.processes[p]) { assert Knows(s, s.processes[p]); }
      case AddFunds(_, _) =>
      case _ => WebhookKeepsRows(s, a);
    }
  }

  lemma TradeKeepsRows(s: State, a: Action)
    requires RowsSound(s) && (a.TradeRead? || a.TradeWrite?)
    ensures RowsSound(TradeStep(s, a))
  {}

  lemma WebhookKeepsRows(s: State, a: Action)
    requires RowsSound(s) && (a.Gate? || a.Look? || a.Serialize? || a.Recheck? || a.Increment?)
    ensures RowsSound(WebhookStep(s, a))
  {}

  lemma CommitKeepsRows(s: State, p: int)
    requires RowsSound(s)
    ensures RowsSound(CommitStep(s, p))
  {
    var s' := CommitStep(s, p);
    if s' != s {
      assert Knows(s, s.processes[p]);
      forall q | q in s'.processes ensures Knows(s', s'.processes[q]) { assert Knows(s, s.processes[q]); }
    }
  }

  lemma ApplyKeepsPayments(s: State, a: Action)
    requires PaymentsSound(s)
    ensures PaymentsSound(Apply(s, a))
  {
    hide WebhookStep, CommitStep;
    match a {
      case Commit(p) => CommitKeepsPayments(s, p);
      case Fail(p) => FailKeepsPayments(s, p);
      case TradeRead(_) =>
      case TradeWrite(_, _) =>
      case AddFunds(_, _) =>
      case Debit(_) =>
      case Credit(_) =>
      case _ => WebhookKeepsPayments(s, a);
    }
  }

  lemma CommitKeepsPayments(s: State, p: int)
    requires PaymentsSound(s)
    ensures PaymentsSound(CommitStep(s, p))
  {
    var s' := CommitStep(s, p);
    if s' != s && !s.processes[p].Written? {
      assert s.processes[p].Carries(s.processes[p].order);
    }
  }

  lemma WebhookKeepsPayments(s: State, a: Action)
    requires PaymentsSound(s) && (a.Gate? || a.Look? || a.Serialize? || a.Recheck? || a.Increment?)
    ensures PaymentsSound(WebhookStep(s, a))
  {
    hide PaymentsSound;
    var s' := WebhookStep(s, a);
    if a.Gate? {
      GateKeepsPayments(s, a);
    } else if s' != s {
      NextPhase(s, s', a.p);
    }
  }

  lemma GateKeepsPayments(s: State, a: Action)
    requires PaymentsSound(s) && a.Gate?
    ensures PaymentsSound(WebhookStep(s, a))
  {}

  // A handler going on to its next statement holds the same payment.
  lemma NextPhase(s: State, s': State, p: int)
    requires PaymentsSound(s) && p in s.processes && p in s'.processes
    requires s'.processes == s.processes[p := s'.processes[p]] && s'.ledger == s.ledger && s'.failed == s.failed
    requires !s.processes[p].Locked? && !s.processes[p].Written? && !s'.processes[p].Locked? &&
      !s'.processes[p].Written?
    requires s.processes[p].order == s'.processes[p].order
    ensures PaymentsSound(s')
  {
    assert s.processes[p].Carries(s.processes[p].order);
  }

  lemma FailKeepsPayments(s: State, p: int)
    requires PaymentsSound(s)
    ensures PaymentsSound(Apply(s, Fail(p)))
  {
    if p in s.processes && !s.processes[p].Locked? && !s.processes[p].Written? {
      assert s.processes[p].Carries(s.processes[p].order);
    }
  }

  lemma PaymentPlaced(s: State, a: Action, o: int)
    requires Placed(s, o) && PaymentsSound(s)
    ensures Placed(Apply(s, a), o)
  {
    hide PaymentsSound;
    var s' := Apply(s, a);
    if o in s.ledger && s.ledger[o].paid && s.ledger[o].credits == 0 && o !in s.failed {
      var p :| p in s.processes && s.processes[p].Carries(o);
      CarriedOn(s, a, p, o);
    } else if o in s.ledger && s.ledger[o].paid {
      CreditedStays(s, a, o);
    } else if o in s'.ledger && s'.ledger[o].paid {
      assert a.Gate? && a.order == o && s'.processes[a.p].Carries(o);
    }
  }

  lemma CarriedOn(s: State, a: Action, p: int, o: int)
    requires p in s.processes && s.processes[p].Carries(o) && o in s.ledger && s.ledger[o].credits == 0
    ensures var s' := Apply(s, a);
      || (p in s'.processes && s'.processes[p].Carries(o))
      || (o in s'.ledger && s'.ledger[o].credits == 1) || o in s'.failed
  {}

  lemma CreditedStays(s: State, a: Action, o: int)
    requires PaymentsSound(s) && o in s.ledger && s.ledger[o].paid && (s.ledger[o].credits > 0 || o in s.failed)
    ensures o in Apply(s, a).ledger && (Apply(s, a).ledger[o].credits == 1 || o in Apply(s, a).failed)
  {
    ApplyKeepsPayments(s, a);
    StaysPaidStep(s, a, o);
  }

  lemma ApplyKeepsAccounted(s: State, a: Action)
    requires Accounted(s) && PaymentsSound(s)
    ensures Accounted(Apply(s, a))
  {
    hide PaymentsSound, Apply;
    forall o { PaymentPlaced(s, a, o); }
  }

  ghost predicate Sound(s: State) { RowsSound(s) && PaymentsSound(s) && Accounted(s) }

  // In every interleaving there is at most one wallet row, its balance is never
  // negative, and each payment reaches it at most once.
  lemma {:induction false} RunKeepsSound(s: State, actions: seq<Action>)
    requires Sound(s)
    ensures Sound(Run(s, actions))
  {
    hide RowsSound, PaymentsSound, Accounted, Apply;
    if |actions| > 0 {
      var before, a := Run(s, actions[..|actions| - 1]), actions[|actions| - 1];
      RunKeepsSound(s, actions[..|actions| - 1]);
      ApplyKeepsRows(before, a);
      ApplyKeepsPayments(before, a);
      ApplyKeepsAccounted(before, a);
    }
  }

  // ----- No money lost or made -------------------------------------------------------------

  function Balance(s: State): real { if s.rows == [] then 0.0 else s.rows[0] }

  ghost function Received(o: int, p: Payment): real { Value(p.credits, p.amount) }

  // The balance against the books: what came in less what went out.
  ghost function Unexplained(s: State): real
  {
    Balance(s) - (MapSum(s.ledger, Received) + s.refunded + s.traded - s.debited - s.lost)
  }

  lemma PaidReceives(s: State, order: int)
    requires order in s.ledger
    ensures MapSum(Paid(s, order).ledger, Received) == MapSum(s.ledger, Received) + s.ledger[order].amount
  {
    var p := s.ledger[order];
    var p' := p.(credits := p.credits + 1);
    MapSumPut(s.ledger, Received, order, p');
    OneMore(p.credits, p.amount);
  }

  lemma OneMore(n: int, x: real)
    ensures Value(n + 1, x) == Value(n, x) + x
  {
    ValueSum(n, 1, x);
  }

  lemma CommitExplained(s: State, p: int)
    requires RowsSound(s)
    ensures Unexplained(CommitStep(s, p)) == Unexplained(s)
  {
    hide MapSum, Received;
    if p in s.processes {
      assert Knows(s, s.processes[p]);
      if s.processes[p].Inserting? || s.processes[p].Adding? {
        var order := s.processes[p].order;
        if order in s.ledger { PaidReceives(End(s, p), order); }
      }
    }
  }

  lemma WebhookExplained(s: State, a: Action)
    requires a.Gate? || a.Look? || a.Serialize? || a.Recheck? || a.Increment?
    ensures Unexplained(WebhookStep(s, a)) == Unexplained(s)
  {
    var s' := WebhookStep(s, a);
    if a.Gate? && s' != s { MapSumPut(s.ledger, Received, a.order, s'.ledger[a.order]); }
  }

  lemma ApplyExplained(s: State, a: Action)
    requires RowsSound(s)
    ensures Unexplained(Apply(s, a)) == Unexplained(s)
  {
    hide MapSum, Received, WebhookStep, CommitStep;
    match a {
      case Commit(p) => CommitExplained(s, p);
      case AddFunds(order, amount) =>
        if order !in s.ledger && amount > 0.0 { FreshExplained(s, order, amount); }
      case Debit(_) =>
      case Credit(_) =>
      case TradeRead(_) =>
      case TradeWrite(_, _) =>
      case Fail(_) =>
      case _ => WebhookExplained(s, a);
    }
  }

  lemma FreshExplained(s: State, order: int, amount: real)
    requires order !in s.ledger
    ensures MapSum(s.ledger[order := Payment(amount, false, 0)], Received) == MapSum(s.ledger, Received)
  {
    MapSumPut(s.ledger, Received, order, Payment(amount, false, 0));
    ValueSum(0, 0, amount);
  }

  // In every interleaving the balance is the opening balance plus every credit
  // committed less every debit granted, except credits that met no wallet row.
  lemma NoLostUpdates(s: State, actions: seq<Action>)
    requires Sound(s)
    ensures var s' := Run(s, actions);
      Balance(s') == Balance(s)
        + (MapSum(s'.ledger, Received) - MapSum(s.ledger, Received))
        + (s'.refunded - s.refunded) + (s'.traded - s.traded) - (s'.debited - s.debited) - (s'.lost - s.lost)
  {
    Explained(s, actions);
  }

  lemma {:induction false} Explained(s: State, actions: seq<Action>)
    requires Sound(s)
    ensures Unexplained(Run(s, actions)) == Unexplained(s)
  {
    hide RowsSound, PaymentsSound, Accounted, Apply, Unexplained;
    if |actions| > 0 {
      RunKeepsSound(s, actions[..|actions| - 1]);
      Explained(s, actions[..|actions| - 1]);
      ApplyExplained(Run(s, actions[..|actions| - 1]), actions[|actions| - 1]);
    }
  }

  // A standalone credit of a user without a wallet updates no row.
  ghost predicate MeetsNoWallet(s: State, a: Action) { a.Credit? && a.amount > 0.0 && s.rows == [] && s.rowLock.None? }

  // Credits are lost exactly by the runs in which one met no wallet row.
  lemma {:induction false} LostIffNoWallet(s: State, actions: seq<Action>)
    requires Sound(s)
    ensures Run(s, actions).lost >= s.lost
    ensures Run(s, actions).lost == s.lost <==>
      forall k :: 0 <= k < |actions| ==> !MeetsNoWallet(Run(s, actions[..k]), actions[k])
  {
    hide Sound, Apply, MeetsNoWallet;
    if |actions| > 0 {
      var init, a := actions[..|actions| - 1], actions[|actions| - 1];
      LostIffNoWallet(s, init);
      LostStep(Run(s, init), a);
      assert forall k :: 0 <= k < |init| ==> init[..k] == actions[..k] && init[k] == actions[k];
      assert actions[..|init|] == init;
    }
  }

  // It happens to a user who has never paid in.
  lemma CreditBeforeFirstDeposit(amount: real)
    requires amount > 0.0
    ensures var s := State([], None, None, map[], map[], {}, 0.0, 0.0, 0.0, 0.0);
            var s' := Run(s, [Credit(amount)]);
      Sound(s) && s'.lost == amount && s'.refunded == amount && s'.rows == []
  {
    var s := State([], None, None, map[], map[], {}, 0.0, 0.0, 0.0, 0.0);
    assert [Credit(amount)][..0] == [];
    assert Run(s, []) == s;
    assert Run(s, [Credit(amount)]) == Apply(s, Credit(amount));
  }

  lemma LostStep(s: State, a: Action)
    ensures Apply(s, a).lost >= s.lost && (Apply(s, a).lost == s.lost <==> !MeetsNoWallet(s, a))
    ensures s.rows != [] ==> Apply(s, a).rows != []
  {}

  // Once there is a wallet it stays, so nothing is lost from then on.
  lemma {:induction false} WalletStays(s: State, actions: seq<Action>)
    requires Sound(s) && s.rows != []
    ensures |Run(s, actions).rows| == 1 && Run(s, actions).lost == s.lost
  {
    hide Apply;
    if |actions| > 0 {
      WalletStays(s, actions[..|actions| - 1]);
      RunKeepsSound(s, actions);
      LostStep(Run(s, actions[..|actions| - 1]), actions[|actions| - 1]);
    }
  }

  // ----- Payments -----------------------------------------------------------------------

  // When no process is running, a payment is credited once if it was paid and
  // its handler did not fail, and not at all otherwise.
  lemma AtRest(s: State, actions: seq<Action>, o: int)
    requires Sound(s) && Run(s, actions).processes == map[] && o in Run(s, actions).ledger
    ensures var s' := Run(s, actions);
      && s'.ledger[o].credits == (if s'.ledger[o].paid && o !in s'.failed then 1 else 0)
      && (o in s'.failed ==> s'.ledger[o].paid)
  {
    RunKeepsSound(s, actions);
    assert Placed(Run(s, actions), o);
  }

  // A webhook delivered again, at any later time and by any process, changes
  // nothing.
  lemma RedeliveryIsIgnored(s: State, p: int, o: int, between: seq<Action>, q: int)
    requires p !in s.processes && o in s.ledger
    ensures var later := Run(Apply(s, Gate(p, o)), between); Apply(later, Gate(q, o)) == later
  {
    StaysPaid(Apply(s, Gate(p, o)), between, o);
  }

  lemma {:induction false} StaysPaid(s: State, actions: seq<Action>, o: int)
    requires o in s.ledger && s.ledger[o].paid
    ensures o in Run(s, actions).ledger && Run(s, actions).ledger[o].paid
  {
    hide Apply;
    if |actions| > 0 {
      StaysPaid(s, actions[..|actions| - 1], o);
      StaysPaidStep(Run(s, actions[..|actions| - 1]), actions[|actions| - 1], o);
    }
  }

  lemma StaysPaidStep(s: State, a: Action, o: int)
    requires o in s.ledger && s.ledger[o].paid
    ensures o in Apply(s, a).ledger && Apply(s, a).ledger[o].paid
  {}

  // ----- The statements as written ---------------------------------------------------------

  predicate Mine(p: int, a: Action)
  {
    !a.Debit? && !a.Credit? && !a.AddFunds? && a.p == p
  }

  lemma OtherLeavesProcess(s: State, p: int, a: Action)
    requires !Mine(p, a)
    ensures (p in Apply(s, a).processes <==> p in s.processes)
    ensures p in s.processes ==> Apply(s, a).processes[p] == s.processes[p]
  {}

  lemma {:induction false} OthersLeaveProcess(s: State, p: int, env: seq<Action>)
    requires forall a :: a in env ==> !Mine(p, a)
    ensures (p in Run(s, env).processes <==> p in s.processes)
    ensures p in s.processes ==> Run(s, env).processes[p] == s.processes[p]
  {
    hide Apply, Mine;
    if |env| > 0 {
      OthersLeaveProcess(s, p, env[..|env| - 1]);
      assert env[|env| - 1] in env;
      OtherLeavesProcess(Run(s, env[..|env| - 1]), p, env[|env| - 1]);
    }
  }

  lemma {:induction false} RunAppend(s: State, a: seq<Action>, b: seq<Action>)
    ensures Run(s, a + b) == Run(Run(s, a), b)
  {
    hide Apply;
    if |b| == 0 {
      assert a + b == a;
    } else {
      RunAppend(s, a, b[..|b| - 1]);
      assert (a + b)[..|a + b| - 1] == a + b[..|b| - 1];
    }
  }

  lemma RunOne(s: State, a: seq<Action>, next: Action)
    ensures Run(s, a + [next]) == Apply(Run(s, a), next)
    ensures Run(s, []) == s
  {
    assert (a + [next])[..|a|] == a;
  }

  datatype Outcome = Duplicate | Waiting | Credited

  // The wallet tables with the methods of WalletBalancePersistence and
  // RazorPayPersistence; `env*` are whatever other processes do meanwhile.
  class Wallets {
    var st: State

    constructor (s: State)
      ensures st == s
    {
      st := s;
    }

    method Others(env: seq<Action>)
      modifies this
      ensures st == Run(old(st), env)
    {
      var k := 0;
      while k < |env|
        invariant 0 <= k <= |env|
        invariant st == Run(old(st), env[..k])
      {
        assert env[..k + 1][..k] == env[..k];
        st := Apply(st, env[k]);
        k := k + 1;
      }
      assert env[..k] == env;
    }

    // UPDATE wallets SET balance = balance - amount WHERE balance >= amount,
    // row by row.  True exactly when the wallet could pay, and then it has paid.
    method DebitWalletIfSufficient(amount: real) returns (debited: bool)
      requires amount > 0.0 && st.rowLock.None?
      modifies this
      ensures st == Apply(old(st), Debit(amount))
      ensures Sound(old(st)) ==> debited == (Balance(old(st)) >= amount)
      ensures Sound(old(st)) ==> Balance(st) == Balance(old(st)) - if debited then amount else 0.0
    {
      hide Sound, PaymentsSound, Accounted;
      var rows := st.rows;
      debited := false;
      var i := 0;
      while i < |rows|
        invariant 0 <= i <= |rows| == |st.rows|
        invariant debited == Enough(st.rows[..i], amount)
        invariant forall j :: 0 <= j < |rows| ==>
          rows[j] == if j < i && st.rows[j] >= amount then st.rows[j] - amount else st.rows[j]
      {
        assert st.rows[..i + 1] == st.rows[..i] + [st.rows[i]];
        if rows[i] >= amount {
          rows := rows[i := rows[i] - amount];
          assert st.rows[..i + 1][i] >= amount;
          debited := true;
        } else {
          assert Enough(st.rows[..i + 1], amount) ==> Enough(st.rows[..i], amount) by {
            if Enough(st.rows[..i + 1], amount) {
              var j :| 0 <= j < i + 1 && st.rows[..i + 1][j] >= amount;
              assert st.rows[..i][j] >= amount;
            }
          }
          assert Enough(st.rows[..i], amount) ==> Enough(st.rows[..i + 1], amount) by {
            if Enough(st.rows[..i], amount) {
              var j :| 0 <= j < i && st.rows[..i][j] >= amount;
              assert st.rows[..i + 1][j] >= amount;
            }
          }
        }
        i := i + 1;
      }
      assert st.rows[..i] == st.rows;
      if debited {
        assert rows == TakeWhereEnough(st.rows, amount);
        st := st.(rows := rows, debited := st.debited + amount);
      }
      ghost var was := old(st);
      if Sound(was) { DebitOfOneRow(was, amount); }
    }

    // creditWallet: the balance written back is the balance still in the table
    // plus the credit, whatever others did between the read and the write.
    method CreditWallet(p: int, amount: real, env: seq<Action>) returns (balance: Option<real>)
      requires amount > 0.0 && Sound(st) && p !in st.processes && st.rowLock.None?
      requires forall a :: a in env ==> !Mine(p, a)
      modifies this
      ensures Sound(st)
      ensures balance.None? <==> old(st).rows == []
      ensures balance.None? ==> st == old(st)
      ensures balance.Some? ==>
        && st == Run(old(st), [TradeRead(p)] + env + [TradeWrite(p, amount)])
        && p in st.processes && st.processes[p] == Written(balance.value, amount)
        && balance.value == Balance(st) + amount
    {
      hide Sound, PaymentsSound, Accounted, Run;
      ghost var s0 := st;
      if st.rows == [] { return None; }
      var read := st.rows[0];
      RunOne(s0, [], TradeRead(p));
      assert [] + [TradeRead(p)] == [TradeRead(p)];
      st := Put(st, p, Locked(read, 0.0)).(rowLock := Some(p));
      assert st == Run(s0, [TradeRead(p)]);
      OthersLeaveProcess(st, p, env);
      RunAppend(s0, [TradeRead(p)], env);
      Others(env);
      RunOne(s0, [TradeRead(p)] + env, TradeWrite(p, amount));
      st := Put(st, p, Written(read + amount, 0.0 + amount));
      balance := Some(read + amount);
      RunKeepsSound(s0, [TradeRead(p)] + env + [TradeWrite(p, amount)]);
      WrittenIsCurrent(st, p);
    }

    // Whatever others do leaves this process where it was.
    method Meanwhile(p: int, env: seq<Action>)
      requires forall a :: a in env ==> !Mine(p, a)
      modifies this
      ensures st == Run(old(st), env)
      ensures (p in st.processes <==> p in old(st).processes) &&
        (p in st.processes ==> st.processes[p] == old(st).processes[p])
    {
      OthersLeaveProcess(st, p, env);
      Others(env);
    }

    // True only for the call that flips the ledger row from PENDING to SUCCESS.
    method UpdatePaymentStatus(p: int, order: int) returns (wasPending: bool)
      requires p !in st.processes
      modifies this
      ensures st == Apply(old(st), Gate(p, order))
      ensures wasPending == (order in old(st).ledger && !old(st).ledger[order].paid)
      ensures wasPending ==> p in st.processes && st.processes[p] == Claimed(order)
      ensures !wasPending ==> st == old(st)
    {
      wasPending := false;
      if order in st.ledger && !st.ledger[order].paid {
        st := Put(st, p, Claimed(order)).(ledger := st.ledger[order := st.ledger[order].(paid := true)]);
        wasPending := true;
      }
    }

    method JoinLedgerWithWallet(p: int, order: int) returns (missing: bool)
      requires p in st.processes && st.processes[p] == Claimed(order)
      modifies this
      ensures st == Apply(old(st), Look(p)) && p in st.processes
      ensures st.processes[p] == if missing then RowMissing(order) else RowSeen(order)
    {
      missing := st.rows == [];
      st := Put(st, p, if missing then RowMissing(order) else RowSeen(order));
    }

    method TakeAdvisoryLock(p: int, order: int) returns (granted: bool)
      requires p in st.processes && st.processes[p] == RowMissing(order)
      modifies this
      ensures st == Apply(old(st), Serialize(p)) && p in st.processes
      ensures st.processes[p] == if granted then Serialized(order) else RowMissing(order)
    {
      granted := st.advisory.None?;
      if granted { st := Put(st, p, Serialized(order)).(advisory := Some(p)); }
    }

    // Under the advisory lock: insert the first row, or add to the one that has
    // appeared since.
    method InsertOrIncrement(p: int, order: int) returns (granted: bool)
      requires p in st.processes && st.processes[p] == Serialized(order)
      modifies this
      ensures st == Apply(old(st), Recheck(p)) && p in st.processes
      ensures granted ==> st.processes[p] == Inserting(order) || st.processes[p] == Adding(order, true)
      ensures !granted ==> st.processes[p] == Serialized(order)
    {
      granted := true;
      if st.rows == [] {
        st := Put(st, p, Inserting(order));
      } else if st.rowLock.None? {
        st := Put(st, p, Adding(order, true)).(rowLock := Some(p));
      } else {
        granted := false;
      }
    }

    method IncrementRow(p: int, order: int) returns (granted: bool)
      requires p in st.processes && st.processes[p] == RowSeen(order)
      modifies this
      ensures st == Apply(old(st), Increment(p)) && p in st.processes
      ensures st.processes[p] == if granted then Adding(order, false) else RowSeen(order)
    {
      granted := st.rowLock.None?;
      if granted { st := Put(st, p, Adding(order, false)).(rowLock := Some(p)); }
    }

    // insertUpdateWallet: credit the wallet, creating it under the advisory lock
    // if the join found none.
    method InsertUpdateWallet(p: int, order: int, env1: seq<Action>, env2: seq<Action>, env3: seq<Action>)
      returns (done: bool, ghost trace: seq<Action>)
      requires Sound(st) && p in st.processes && st.processes[p] == Claimed(order)
      requires forall a :: a in env1 + env2 + env3 ==> !Mine(p, a)
      modifies this
      ensures Sound(st) && st == Run(old(st), trace)
      ensures done ==> order in st.ledger && st.ledger[order].credits == 1 && p !in st.processes
      ensures !done ==> p in st.processes && st.processes[p].Carries(order)
    {
      hide Sound, Run, Apply, CommitStep, Mine;
      ghost var s0 := st;
      RunOne(s0, [], Look(p));
      var missing := JoinLedgerWithWallet(p, order);
      trace := [] + [Look(p)];
      RunAppend(s0, trace, env1);
      Meanwhile(p, env1);
      trace := trace + env1;
      var granted;
      if missing {
        RunOne(s0, trace, Serialize(p));
        granted := TakeAdvisoryLock(p, order);
        trace := trace + [Serialize(p)];
        if granted {
          RunAppend(s0, trace, env2);
          Meanwhile(p, env2);
          trace := trace + env2;
          RunOne(s0, trace, Recheck(p));
          granted := InsertOrIncrement(p, order);
          trace := trace + [Recheck(p)];
        }
      } else {
        RunOne(s0, trace, Increment(p));
        granted := IncrementRow(p, order);
        trace := trace + [Increment(p)];
      }
      if granted {
        RunAppend(s0, trace, env3);
        Meanwhile(p, env3);
        trace := trace + env3;
        RunKeepsSound(s0, trace);
        CommitCredits(st, p, order);
        RunOne(s0, trace, Commit(p));
        st := Apply(st, Commit(p));
        trace := trace + [Commit(p)];
      }
      RunKeepsSound(s0, trace);
      return granted, trace;
    }

    // The webhook handler: only the delivery that flips the ledger row credits
    // the wallet; every other delivery changes nothing.
    method PaymentWebhook(p: int, order: int, env0: seq<Action>, env1: seq<Action>, env2: seq<Action>,
        env3: seq<Action>)
      returns (outcome: Outcome, ghost trace: seq<Action>)
      requires Sound(st) && p !in st.processes
      requires forall a :: a in env0 + env1 + env2 + env3 ==> !Mine(p, a)
      modifies this
      ensures Sound(st) && st == Run(old(st), trace)
      ensures outcome == Duplicate <==> order !in old(st).ledger || old(st).ledger[order].paid
      ensures outcome == Duplicate ==> st == old(st)
      ensures outcome == Credited ==> order in st.ledger && st.ledger[order].credits == 1 && p !in st.processes
      ensures outcome == Waiting ==> p in st.processes && st.processes[p].Carries(order)
    {
      hide Sound, Run, Apply, Mine;
      ghost var s0 := st;
      RunOne(s0, [], Gate(p, order));
      var wasPending := UpdatePaymentStatus(p, order);
      if !wasPending { return Duplicate, []; }
      trace := [] + [Gate(p, order)];
      RunAppend(s0, trace, env0);
      Meanwhile(p, env0);
      trace := trace + env0;
      RunKeepsSound(s0, trace);
      ghost var rest;
      var done;
      done, rest := InsertUpdateWallet(p, order, env1, env2, env3);
      RunAppend(s0, trace, rest);
      trace := trace + rest;
      return if done then Credited else Waiting, trace;
    }
  }

  lemma DebitOfOneRow(s: State, amount: real)
    requires Sound(s) && amount > 0.0 && s.rowLock.None?
    ensures Enough(s.rows, amount) == (Balance(s) >= amount)
    ensures Balance(Apply(s, Debit(amount))) == Balance(s) - if Balance(s) >= amount then amount else 0.0
  {
    if s.rows != [] && s.rows[0] >= amount { assert Enough(s.rows, amount); }
  }

  lemma WrittenIsCurrent(s: State, p: int)
    requires Sound(s) && p in s.processes && s.processes[p].Written?
    ensures s.processes[p].balance == Balance(s) + s.processes[p].gained
  {
    assert Knows(s, s.processes[p]);
  }

  lemma CommitCredits(s: State, p: int, order: int)
    requires Sound(s) && p in s.processes
    requires s.processes[p] == Inserting(order) || s.processes[p] == Adding(order, true) ||
      s.processes[p] == Adding(order, false)
    ensures var s' := Apply(s, Commit(p)); order in s'.ledger && s'.ledger[order].credits == 1 && p !in s'.processes
  {
    assert s.processes[p].Carries(order);
  }
}
