// Amending an order (api/orders.py modify_order) while other requests for the
// same user run: read the order, move the price difference in the wallet, write
// the order only if it still reads the same, and undo the wallet move if not.
// Each statement of each request is one atomic action; actions of different
// requests interleave freely.
module AmendProtocol {
  import opened Positions
  import opened Wrappers
  import opened Sums

  datatype Terms = Terms(price: Option<real>, quantity: int, trigger: Option<real>)

  // `cash`: a BUY paid for when it was placed.  `routed`: it went to the broker.
  // `margined`: the margin engine holds something for it.
  datatype Nature = Nature(cash: bool, routed: bool, margined: bool)

  // `live`: PENDING or PENDING_TRIGGER, the statuses the guarded UPDATEs look for.
  datatype Order = Order(nature: Nature, terms: Terms, live: bool)
  {
    function Cash(): bool { nature.cash }
  }

  datatype Change = Change(price: Option<real>, quantity: Option<int>, trigger: Option<real>)
  {
    // OrderModify's field constraints, and at least one field.
    predicate Valid()
    {
      && (price.Some? || quantity.Some? || trigger.Some?)
      && (price.Some? ==> price.value > 0.0) && (quantity.Some? ==> quantity.value > 0)
      && (trigger.Some? ==> trigger.value > 0.0)
    }
  }

  datatype Reply = Modified | Rejected | Conflict | Error

  // How far one amend request has got, with what it remembers.
  datatype Request =
    | Seen(id: nat, order: Order, change: Change)                  // after get_order_by_id
    | Charged(id: nat, order: Order, change: Change, delta: real)  // after the wallet move
    | Undoing(delta: real, reply: Reply)                           // after a write lost or failed
    | Answered(reply: Reply)

  // One user's wallet and orders.  `refunds`: cancellations committed whose
  // credit has yet to run.  `outside`: net money other requests brought in or
  // spent.  `unrecovered`: undos the wallet could no longer pay for.
  datatype State = State(balance: real, orders: seq<Order>, requests: map<int, Request>, refunds: map<int, real>,
                         outside: real, unrecovered: real)

  datatype Action =
    | Read(r: int, id: nat, change: Change)
    | Charge(r: int)
    | Write(r: int)
    | Fault(r: int)          // the write raises
    | Undo(r: int)
    | Cancel(c: int, id: nat)
    | Refund(c: int)
    | Fill(id: nat)          // the matching engine takes the order
    | Wake(id: nat, price: real)  // a trigger reprices the order
    | Debit(amount: real)    // any other conditional debit of this wallet
    | Credit(amount: real)

  function Amended(t: Terms, c: Change): Terms
  {
    Terms(if c.price.Some? then c.price else t.price,
          if c.quantity.Some? then c.quantity.value else t.quantity,
          if c.trigger.Some? then c.trigger else t.trigger)
  }

  // The cash an order at these terms holds.
  function Needs(cash: bool, t: Terms): real
  {
    if cash && t.price.Some? then Value(t.quantity, t.price.value) else 0.0
  }

  function Answer(s: State, r: int, reply: Reply): State { s.(requests := s.requests[r := Answered(reply)]) }

  function ReadStep(s: State, r: int, id: nat, change: Change): State
  {
    if r in s.requests then s
    else if !change.Valid() || id >= |s.orders| || s.orders[id].nature.routed || !s.orders[id].live then
      Answer(s, r, Rejected)
    else s.(requests := s.requests[r := Seen(id, s.orders[id], change)])
  }

  function ChargeStep(s: State, r: int): State
  {
    if r !in s.requests || !s.requests[r].Seen? then s
    else
      var Seen(id, order, change) := s.requests[r];
      var terms := Amended(order.terms, change);
      if order.nature.margined || (order.Cash() && (terms.price.None? || terms.price.value <= 0.0)) then
        Answer(s, r, Rejected)
      else
        var delta := Needs(order.Cash(), terms) - Needs(order.Cash(), order.terms);
        if delta > s.balance && delta > 0.0 then Answer(s, r, Rejected)
        else s.(balance := s.balance - delta, requests := s.requests[r := Charged(id, order, change, delta)])
  }

  // modify_order's WHERE clause: still pending and still the values read.
  predicate Unchanged(s: State, id: nat, seen: Order)
  {
    id < |s.orders| && s.orders[id].live && s.orders[id].terms == seen.terms
  }

  function WriteStep(s: State, r: int): State
  {
    if r !in s.requests || !s.requests[r].Charged? then s
    else
      var Charged(id, order, change, delta) := s.requests[r];
      if Unchanged(s, id, order) then
        Answer(s, r, Modified).(orders := s.orders[id := s.orders[id].(terms := Amended(s.orders[id].terms, change))])
      else Lose(s, r, delta, Conflict)
  }

  // Nothing to undo, or the undo comes next.
  function Lose(s: State, r: int, delta: real, reply: Reply): State
  {
    if delta == 0.0 then Answer(s, r, reply) else s.(requests := s.requests[r := Undoing(delta, reply)])
  }

  // modify_order_by_id raises, its transaction rolled back.
  function FaultStep(s: State, r: int): State
  {
    if r !in s.requests || !s.requests[r].Charged? then s else Lose(s, r, s.requests[r].delta, Error)
  }

  // _reverse_wallet_delta
  function UndoStep(s: State, r: int): State
  {
    if r !in s.requests || !s.requests[r].Undoing? then s
    else
      var Undoing(delta, reply) := s.requests[r];
      if delta >= 0.0 || s.balance >= -delta then Answer(s, r, reply).(balance := s.balance + delta)
      else Answer(s, r, reply).(unrecovered := s.unrecovered - delta)
  }

  function Close(s: State, id: nat): State
    requires id < |s.orders|
  {
    s.(orders := s.orders[id := s.orders[id].(live := false)])
  }

  function Apply(s: State, a: Action): State
  {
    match a
    case Read(r, id, change) => ReadStep(s, r, id, change)
    case Charge(r) => ChargeStep(s, r)
    case Write(r) => WriteStep(s, r)
    case Fault(r) => FaultStep(s, r)
    case Undo(r) => UndoStep(s, r)
    case Cancel(c, id) =>
      if c in s.refunds || id >= |s.orders| || !s.orders[id].live then s
      else Close(s, id).(refunds := s.refunds[c := Needs(s.orders[id].Cash(), s.orders[id].terms)])
    case Refund(c) =>
      if c !in s.refunds then s
      else s.(balance := s.balance + s.refunds[c], refunds := s.refunds - {c})
    case Fill(id) =>
      if id >= |s.orders| || !s.orders[id].live then s
      else Close(s, id).(outside := s.outside - Needs(s.orders[id].Cash(), s.orders[id].terms))
    case Wake(id, price) =>
      if id >= |s.orders| || !s.orders[id].live || price <= 0.0 then s
      else
        var o := s.orders[id];
        var woken := o.(terms := o.terms.(price := Some(price)));
        s.(orders := s.orders[id := woken],
           outside := s.outside + (Needs(o.Cash(), woken.terms) - Needs(o.Cash(), o.terms)))
    case Debit(amount) =>
      if amount <= 0.0 || s.balance < amount then s
      else s.(balance := s.balance - amount, outside := s.outside - amount)
    case Credit(amount) =>
      if amount <= 0.0 then s else s.(balance := s.balance + amount, outside := s.outside + amount)
  }

  function Run(s: State, actions: seq<Action>): State
  {
    if |actions| == 0 then s else Apply(Run(s, actions[..|actions| - 1]), actions[|actions| - 1])
  }

  // ----- Invariant ----------------------------------------------------------------------

  // What an order, or an order as remembered by a request, always satisfies.
  ghost predicate Priced(o: Order)
  {
    o.terms.quantity > 0 && (o.Cash() ==> o.terms.price.Some?) && (o.terms.price.Some? ==> o.terms.price.value > 0.0)
  }

  ghost predicate RequestSound(s: State, q: Request)
  {
    match q
    case Seen(id, order, change) =>
      id < |s.orders| && order.nature == s.orders[id].nature && Priced(order) && change.Valid()
    case Charged(id, order, change, delta) =>
      && id < |s.orders| && order.nature == s.orders[id].nature && Priced(order) && change.Valid()
      && delta == Needs(order.Cash(), Amended(order.terms, change)) - Needs(order.Cash(), order.terms)
    case _ => true
  }

  ghost predicate Sound(s: State)
  {
    && s.balance >= 0.0
    && (forall i :: 0 <= i < |s.orders| ==> Priced(s.orders[i]))
    && (forall r :: r in s.requests ==> RequestSound(s, s.requests[r]))
    && (forall c :: c in s.refunds ==> s.refunds[c] >= 0.0)
  }

  lemma NeedsSign(o: Order)
    requires Priced(o)
    ensures Needs(o.Cash(), o.terms) >= 0.0
  {}

  lemma ApplyKeepsSound(s: State, a: Action)
    requires Sound(s)
    ensures Sound(Apply(s, a))
  {
    hide Needs, ChargeStep, WriteStep, UndoStep, FaultStep;
    match a {
      case Charge(r) => ChargeKeepsSound(s, r);
      case Fault(r) => FaultKeepsSound(s, r);
      case Write(r) => WriteKeepsSound(s, r);
      case Undo(r) => UndoKeepsSound(s, r);
      case Cancel(_, id) => if id < |s.orders| { NeedsSign(s.orders[id]); }
      case _ =>
    }
  }

  lemma ChargeKeepsSound(s: State, r: int)
    requires Sound(s)
    ensures Sound(ChargeStep(s, r))
  {
    hide Needs;
  }

  lemma WriteKeepsSound(s: State, r: int)
    requires Sound(s)
    ensures Sound(WriteStep(s, r))
  {
    hide Needs;
  }

  lemma FaultKeepsSound(s: State, r: int)
    requires Sound(s)
    ensures Sound(FaultStep(s, r))
  {
    hide Needs;
  }

  lemma UndoKeepsSound(s: State, r: int)
    requires Sound(s)
    ensures Sound(UndoStep(s, r))
  {
    hide Needs;
  }

  // In every interleaving the balance never goes negative.
  lemma {:induction false} RunKeepsSound(s: State, actions: seq<Action>)
    requires Sound(s)
    ensures Sound(Run(s, actions))
  {
    hide Sound, Apply;
    if |actions| > 0 {
      RunKeepsSound(s, actions[..|actions| - 1]);
      ApplyKeepsSound(Run(s, actions[..|actions| - 1]), actions[|actions| - 1]);
    }
  }

  // ----- Conservation ---------------------------------------------------------------------

  ghost function Held(o: Order): real { if o.live then Needs(o.Cash(), o.terms) else 0.0 }

  ghost function InFlight(r: int, q: Request): real { if q.Charged? || q.Undoing? then q.delta else 0.0 }

  ghost function Owed(c: int, amount: real): real { amount }

  // Wallet, reservations, wallet moves not yet written or undone, and refunds
  // not yet paid.
  ghost function Money(s: State): real
  {
    s.balance + SeqSum(s.orders, Held) + MapSum(s.requests, InFlight) + MapSum(s.refunds, Owed)
  }

  // What the ledger of a state says: money less what came from outside, less
  // what was lost on the way.
  ghost function Ledger(s: State): real { Money(s) - s.outside - s.unrecovered }

  lemma ApplyConserves(s: State, a: Action)
    requires Sound(s)
    ensures Ledger(Apply(s, a)) == Ledger(s)
  {
    hide Ledger, Sound, ReadStep, ChargeStep, WriteStep, UndoStep, FaultStep;
    match a {
      case Read(r, id, change) => ReadConserves(s, r, id, change);
      case Charge(r) => ChargeConserves(s, r);
      case Write(r) => WriteConserves(s, r);
      case Fault(r) => FaultConserves(s, r);
      case Undo(r) => UndoConserves(s, r);
      case Cancel(_, _) => CancelConserves(s, a);
      case Refund(_) => RefundConserves(s, a);
      case Fill(_) => FillConserves(s, a);
      case Wake(_, _) => WakeConserves(s, a);
      case Debit(_) => CashConserves(s, a);
      case Credit(_) => CashConserves(s, a);
    }
  }

  lemma CashConserves(s: State, a: Action)
    requires a.Debit? || a.Credit?
    ensures Ledger(Apply(s, a)) == Ledger(s)
  {}

  lemma ReadConserves(s: State, r: int, id: nat, change: Change)
    ensures Ledger(ReadStep(s, r, id, change)) == Ledger(s)
  {
    PutRequest(s, ReadStep(s, r, id, change), r);
  }

  lemma ChargeConserves(s: State, r: int)
    ensures Ledger(ChargeStep(s, r)) == Ledger(s)
  {
    hide Needs, Amended;
    PutRequest(s, ChargeStep(s, r), r);
  }

  lemma WriteConserves(s: State, r: int)
    requires Sound(s)
    ensures Ledger(WriteStep(s, r)) == Ledger(s)
  {
    hide Needs, Amended;
    var s' := WriteStep(s, r);
    PutRequest(s, s', r);
    if r in s.requests && s.requests[r].Charged? {
      var Charged(id, order, change, delta) := s.requests[r];
      assert RequestSound(s, s.requests[r]);
      SeqSumPut(s.orders, Held, id, s'.orders[id]);
    }
  }

  lemma UndoConserves(s: State, r: int)
    ensures Ledger(UndoStep(s, r)) == Ledger(s)
  {
    PutRequest(s, UndoStep(s, r), r);
  }

  lemma FaultConserves(s: State, r: int)
    ensures Ledger(FaultStep(s, r)) == Ledger(s)
  {
    PutRequest(s, FaultStep(s, r), r);
  }

  lemma WakeConserves(s: State, a: Action)
    requires a.Wake?
    ensures Ledger(Apply(s, a)) == Ledger(s)
  {
    hide Needs;
    var s' := Apply(s, a);
    if s' != s { SeqSumPut(s.orders, Held, a.id, s'.orders[a.id]); }
  }

  lemma CancelConserves(s: State, a: Action)
    requires a.Cancel?
    ensures Ledger(Apply(s, a)) == Ledger(s)
  {
    hide Needs;
    var s' := Apply(s, a);
    if s' != s {
      SeqSumPut(s.orders, Held, a.id, s'.orders[a.id]);
      MapSumPut(s.refunds, Owed, a.c, s'.refunds[a.c]);
    }
  }

  lemma RefundConserves(s: State, a: Action)
    requires a.Refund?
    ensures Ledger(Apply(s, a)) == Ledger(s)
  {
    if a.c in s.refunds { MapSumTake(s.refunds, Owed, a.c); }
  }

  lemma FillConserves(s: State, a: Action)
    requires a.Fill?
    ensures Ledger(Apply(s, a)) == Ledger(s)
  {
    hide Needs;
    var s' := Apply(s, a);
    if s' != s { SeqSumPut(s.orders, Held, a.id, s'.orders[a.id]); }
  }

  lemma PutRequest(s: State, s': State, r: int)
    requires s'.requests == s.requests || (r in s'.requests && s'.requests == s.requests[r := s'.requests[r]])
    ensures s'.requests != s.requests ==>
      MapSum(s'.requests, InFlight)
        == MapSum(s.requests, InFlight) - (if r in s.requests then InFlight(r, s.requests[r]) else 0.0)
          + InFlight(r, s'.requests[r])
  {
    if s'.requests != s.requests { MapSumPut(s.requests, InFlight, r, s'.requests[r]); }
  }

  // The undo of a lowered amend, refused because the credit is already spent.
  ghost predicate RefusedUndo(s: State, a: Action)
  {
    a.Undo? && a.r in s.requests && s.requests[a.r].Undoing? && s.requests[a.r].delta < 0.0 &&
      s.balance < -s.requests[a.r].delta
  }

  ghost function Refused(s: State, actions: seq<Action>): real
  {
    if |actions| == 0 then 0.0
    else
      var before, a := Run(s, actions[..|actions| - 1]), actions[|actions| - 1];
      Refused(s, actions[..|actions| - 1]) + if RefusedUndo(before, a) then -before.requests[a.r].delta else 0.0
  }

  // In every interleaving, wallet plus reservations plus wallet moves in flight
  // change only by what other requests bring in or spend, and by exactly the
  // downward moves whose undo the wallet refused.
  lemma {:induction false} MoneyIsConserved(s: State, actions: seq<Action>)
    requires Sound(s)
    ensures var s' := Run(s, actions);
            && Money(s') == Money(s) + (s'.outside - s.outside) + Refused(s, actions)
            && Refused(s, actions) >= 0.0
            && s'.unrecovered == s.unrecovered + Refused(s, actions)
  {
    hide Apply, Sound, Money, RefusedUndo;
    if |actions| > 0 {
      var init, a := actions[..|actions| - 1], actions[|actions| - 1];
      MoneyIsConserved(s, init);
      RunKeepsSound(s, init);
      ApplyConserves(Run(s, init), a);
      RefusedStep(Run(s, init), a);
    }
  }

  lemma RefusedStep(s: State, a: Action)
    ensures Apply(s, a).unrecovered == s.unrecovered + if RefusedUndo(s, a) then -s.requests[a.r].delta else 0.0
    ensures RefusedUndo(s, a) ==> s.requests[a.r].delta < 0.0
  {
    hide Needs;
  }

  // Money is conserved exactly when no undo is refused.
  lemma ConservedIffNoUndoRefused(s: State, actions: seq<Action>)
    requires Sound(s)
    ensures var s' := Run(s, actions);
            Money(s') == Money(s) + (s'.outside - s.outside) <==>
              forall k :: 0 <= k < |actions| ==> !RefusedUndo(Run(s, actions[..k]), actions[k])
  {
    hide Money, Run, Apply;
    MoneyIsConserved(s, actions);
    NoRefusals(s, actions);
  }

  lemma {:induction false} NoRefusals(s: State, actions: seq<Action>)
    requires Sound(s)
    ensures Refused(s, actions) == 0.0 <==>
      forall k :: 0 <= k < |actions| ==> !RefusedUndo(Run(s, actions[..k]), actions[k])
  {
    hide Apply, Sound, Money, RefusedUndo;
    if |actions| > 0 {
      var init, a := actions[..|actions| - 1], actions[|actions| - 1];
      NoRefusals(s, init);
      MoneyIsConserved(s, init);
      RefusedStep(Run(s, init), a);
      assert forall k :: 0 <= k < |init| ==> init[..k] == actions[..k] && init[k] == actions[k];
      assert actions[..|init|] == init;
    }
  }

  // When no request is in flight, what the user has is what is in the wallet
  // and in the open orders.
  ghost predicate Quiet(s: State)
  {
    s.refunds == map[] && forall r :: r in s.requests ==> s.requests[r].Answered?
  }

  lemma QuietMoney(s: State)
    requires Quiet(s)
    ensures Money(s) == s.balance + SeqSum(s.orders, Held)
  {
    MapSumZero(s.requests, InFlight);
  }

  // Such a run exists: the price of a paid BUY is lowered from 10 to 4, the
  // credited 6 is spent elsewhere, the order is cancelled (refunding the full
  // 10) before the amend writes, and the undo then finds an empty wallet.
  lemma RefusedUndoLosesMoney()
    ensures
      var s := State(0.0, [Order(Nature(true, false, false), Terms(Some(10.0), 1, None), true)],
        map[], map[], 0.0, 0.0);
      var s' := Run(s, [Read(1, 0, Change(Some(4.0), None, None)), Charge(1), Debit(6.0),
        Cancel(2, 0), Write(1), Undo(1), Refund(2)]);
      && Sound(s) && Quiet(s')
      && s'.outside == -6.0 && s'.balance == 10.0
      && Money(s') == Money(s) + s'.outside + 6.0
  {
    var o := Order(Nature(true, false, false), Terms(Some(10.0), 1, None), true);
    var c := Change(Some(4.0), None, None);
    var acts := [Read(1, 0, c), Charge(1), Debit(6.0), Cancel(2, 0), Write(1), Undo(1), Refund(2)];
    var s0 := State(0.0, [o], map[], map[], 0.0, 0.0);
    var s1 := s0.(requests := map[1 := Seen(0, o, c)]);
    var s2 := s1.(balance := 6.0, requests := map[1 := Charged(0, o, c, -6.0)]);
    var s3 := s2.(balance := 0.0, outside := -6.0);
    var s4 := s3.(orders := [o.(live := false)], refunds := map[2 := 10.0]);
    var s5 := s4.(requests := map[1 := Undoing(-6.0, Conflict)]);
    var s6 := s5.(requests := map[1 := Answered(Conflict)], unrecovered := 6.0);
    var s7 := s6.(balance := 10.0, refunds := map[]);
    assert Value(1, 10.0) == 10.0 && Value(1, 4.0) == 4.0;
    assert Apply(s0, acts[0]) == s1;
    assert Apply(s1, acts[1]) == s2;
    assert Apply(s2, acts[2]) == s3;
    assert Apply(s3, acts[3]) == s4;
    assert Apply(s4, acts[4]) == s5;
    assert Apply(s5, acts[5]) == s6;
    assert Apply(s6, acts[6]) == s7;
    RunSeven(s0, acts);
    MoneyIsConserved(s0, acts);
    QuietMoney(s7);
    RunKeepsSound(s0, []);
    assert Held(o.(live := false)) == 0.0;
    assert SeqSum(s7.orders, Held) == SeqSum(s7.orders[..0], Held) + Held(s7.orders[0]);
  }

  lemma {:induction false} RunSeven(s: State, a: seq<Action>)
    requires |a| == 7
    ensures Run(s, a) == Apply(Apply(Apply(Apply(Apply(Apply(Apply(s, a[0]), a[1]), a[2]), a[3]), a[4]), a[5]), a[6])
  {
    hide Apply;
    assert a[..6][..5] == a[..5] && a[..5][..4] == a[..4] && a[..4][..3] == a[..3] &&
      a[..3][..2] == a[..2] && a[..2][..1] == a[..1] && a[..1][..0] == a[..0];
    assert Run(s, a[..0]) == s;
    assert Run(s, a[..1]) == Apply(s, a[0]);
    assert Run(s, a[..2]) == Apply(Run(s, a[..1]), a[1]);
    assert Run(s, a[..3]) == Apply(Run(s, a[..2]), a[2]);
    assert Run(s, a[..4]) == Apply(Run(s, a[..3]), a[3]);
    assert Run(s, a[..5]) == Apply(Run(s, a[..4]), a[4]);
    assert Run(s, a[..6]) == Apply(Run(s, a[..5]), a[5]);
  }

  // ----- The request handler ------------------------------------------------------------

  lemma {:induction false} RunAppend(s: State, a: seq<Action>, b: seq<Action>)
    ensures Run(s, a + b) == Run(Run(s, a), b)
  {
    hide Apply;
    if |b| == 0 {
      assert a + b == a;
    } else {
      RunAppend(s, a, b[..|b| - 1]);
      assert (a + b)[..|a + b| - 1] == a + b[..|b| - 1];
    }
  }

  predicate Mine(r: int, a: Action)
  {
    (a.Read? || a.Charge? || a.Write? || a.Fault? || a.Undo?) && a.r == r
  }

  lemma {:induction false} OthersLeaveRequest(s: State, r: int, env: seq<Action>)
    requires forall a :: a in env ==> !Mine(r, a)
    ensures (r in Run(s, env).requests <==> r in s.requests) &&
      (r in s.requests ==> Run(s, env).requests[r] == s.requests[r])
  {
    hide Apply, Mine;
    if |env| > 0 {
      OthersLeaveRequest(s, r, env[..|env| - 1]);
      assert env[|env| - 1] in env;
      OtherLeavesRequest(Run(s, env[..|env| - 1]), r, env[|env| - 1]);
    }
  }

  lemma OtherLeavesRequest(s: State, r: int, a: Action)
    requires !Mine(r, a)
    ensures (r in Apply(s, a).requests <==> r in s.requests) &&
      (r in s.requests ==> Apply(s, a).requests[r] == s.requests[r])
  {
    hide Needs, Amended;
  }

  // The terms hold every value the change names, and `before`'s value for every
  // field it does not.
  ghost predicate Carries(t: Terms, before: Terms, c: Change)
  {
    && (if c.price.Some? then t.price == c.price else t.price == before.price)
    && (if c.quantity.Some? then Some(t.quantity) == c.quantity else t.quantity == before.quantity)
    && (if c.trigger.Some? then t.trigger == c.trigger else t.trigger == before.trigger)
  }

  // What is refused outright, with nothing moved: a change that names nothing or
  // a value that is not positive, and an order that does not exist, went to the
  // broker or is no longer pending.
  lemma ReadRefusesExactly(s: State, r: int, id: nat, c: Change)
    requires r !in s.requests
    ensures var s' := Apply(s, Read(r, id, c));
      && s' == s.(requests := s'.requests) && r in s'.requests
      && (s'.requests[r] == Answered(Rejected) <==>
            || (c.price.None? && c.quantity.None? && c.trigger.None?)
            || (c.price.Some? && c.price.value <= 0.0) || (c.quantity.Some? && c.quantity.value <= 0)
            || (c.trigger.Some? && c.trigger.value <= 0.0)
            || id >= |s.orders| || s.orders[id].nature.routed || !s.orders[id].live)
      && (s'.requests[r] != Answered(Rejected) ==> s'.requests[r] == Seen(id, s.orders[id], c))
  {}

  // And once read: an order the margin engine holds margin for, and a BUY paid in
  // cash whose new cost exceeds the old by more than the wallet has.  What is not
  // refused moves exactly that difference, and nothing for any other order.
  lemma ChargeRefusesExactly(s: State, r: int)
    requires Sound(s) && r in s.requests && s.requests[r].Seen?
    ensures var Seen(id, order, c) := s.requests[r];
            var s' := Apply(s, Charge(r));
            var was := order.terms;
            var price := if c.price.Some? then c.price else was.price;
            var quantity := if c.quantity.Some? then c.quantity.value else order.terms.quantity;
            var rise := if order.nature.cash && was.price.Some? && price.Some?
                        then Value(quantity, price.value) - Value(was.quantity, was.price.value) else 0.0;
      && r in s'.requests && s'.orders == s.orders
      && (s'.requests[r] == Answered(Rejected) <==> order.nature.margined || rise > s.balance)
      && s'.balance == s.balance - if s'.requests[r] == Answered(Rejected) then 0.0 else rise
  {
    hide Value;
  }

  // Whatever else has happened to the order since it was read, a write that
  // applies carries the whole change over the terms that were read, so no other
  // change is lost; one that does not apply leaves every order alone.
  lemma WritesCarryTheChange(s: State, r: int)
    requires r in s.requests && s.requests[r].Charged?
    ensures var Charged(id, order, change, _) := s.requests[r];
            var s' := Apply(s, Write(r));
            && (s'.requests[r] == Answered(Modified) ==>
                  && id < |s.orders| && s.orders[id].live && s.orders[id].terms == order.terms
                  && |s'.orders| == |s.orders| && Carries(s'.orders[id].terms, order.terms, change)
                  && s'.orders[id].nature == s.orders[id].nature && s'.orders[id].live
                  && forall x :: 0 <= x < |s.orders| && x != id ==> s'.orders[x] == s.orders[x])
            && (s'.requests[r] != Answered(Modified) ==> s'.orders == s.orders)
  {}

  // One user's account, with the handler of PUT /orders/{order_id} written
  // statement by statement; `env1`..`env3` are whatever other requests do
  // between its statements.
  class Desk {
    var st: State

    constructor (s: State)
      ensures st == s
    {
      st := s;
    }

    method Others(env: seq<Action>)
      modifies this
      ensures st == Run(old(st), env)
    {
      var k := 0;
      while k < |env|
        invariant 0 <= k <= |env|
        invariant st == Run(old(st), env[..k])
      {
        assert env[..k + 1][..k] == env[..k];
        st := Apply(st, env[k]);
        k := k + 1;
      }
      assert env[..k] == env;
    }

    method DebitWalletIfSufficient(amount: real) returns (ok: bool)
      modifies this
      ensures ok == (old(st).balance >= amount)
      ensures st == if ok then old(st).(balance := old(st).balance - amount) else old(st)
    {
      ok := st.balance >= amount;
      if ok { st := st.(balance := st.balance - amount); }
    }

    method CreditWalletStandalone(amount: real)
      modifies this
      ensures st == old(st).(balance := old(st).balance + amount)
    {
      st := st.(balance := st.balance + amount);
    }

    // How far request `r` has got.
    method Note(r: int, phase: Request)
      modifies this
      ensures st == old(st).(requests := old(st).requests[r := phase])
    {
      st := st.(requests := st.requests[r := phase]);
    }

    // get_order_by_id and the status check.
    method LoadOrder(r: int, id: nat, change: Change) returns (refused: bool)
      requires r !in st.requests
      modifies this
      ensures st == Apply(old(st), Read(r, id, change)) && r in st.requests
      ensures refused ==> st.requests[r] == Answered(Rejected)
      ensures !refused ==> id < |st.orders| && st.requests[r] == Seen(id, st.orders[id], change)
      ensures st.orders == old(st).orders
    {
      refused := !change.Valid() || id >= |st.orders| || st.orders[id].nature.routed || !st.orders[id].live;
      if refused { Note(r, Answered(Rejected)); } else { Note(r, Seen(id, st.orders[id], change)); }
    }

    // The wallet part of the handler: what the new terms cost beyond the old.
    method MoveWallet(r: int, id: nat, existing: Order, change: Change) returns (refused: bool)
      requires r in st.requests && st.requests[r] == Seen(id, existing, change)
      modifies this
      ensures st == Apply(old(st), Charge(r)) && r in st.requests
      ensures refused ==> st.requests[r] == Answered(Rejected)
      ensures !refused ==> st.requests[r].Charged? && st.requests[r].id == id && st.requests[r].order == existing
                           && st.requests[r].change == change
    {
      hide Value;
      var applied := 0.0;
      refused := existing.nature.margined;
      if !refused && existing.Cash() {
        var newPrice := if change.price.Some? then change.price else existing.terms.price;
        if newPrice.None? || newPrice.value <= 0.0 {
          refused := true;
        } else {
          var newQuantity := if change.quantity.Some? then change.quantity.value else existing.terms.quantity;
          var oldRequired :=
            if existing.terms.price.Some? then Value(existing.terms.quantity, existing.terms.price.value) else 0.0;
          var delta := Value(newQuantity, newPrice.value) - oldRequired;
          if delta > 0.0 {
            var ok := DebitWalletIfSufficient(delta);
            if ok { applied := delta; } else { refused := true; }
          } else if delta < 0.0 {
            CreditWalletStandalone(-delta);
            applied := delta;
          }
        }
      }
      Note(r, if refused then Answered(Rejected) else Charged(id, existing, change, applied));
    }

    // The guarded UPDATE.
    method ModifyOrderById(id: nat, change: Change, expected: Terms) returns (modified: bool)
      modifies this
      ensures modified == (id < |old(st).orders| && old(st).orders[id].live && old(st).orders[id].terms == expected)
      ensures st == if modified
                    then old(st).(orders := old(st).orders[id :=
                      old(st).orders[id].(terms := Amended(expected, change))])
                    else old(st)
      ensures modified ==> Carries(st.orders[id].terms, expected, change)
    {
      modified := false;
      if id < |st.orders| {
        var row := st.orders[id];
        if row.live && row.terms.price == expected.price && row.terms.quantity == expected.quantity &&
          row.terms.trigger == expected.trigger {
          st := st.(orders := st.orders[id := row.(terms := Amended(row.terms, change))]);
          modified := true;
        }
      }
    }

    method ReverseWalletDelta(delta: real)
      modifies this
      ensures st == (if delta >= 0.0 || old(st).balance >= -delta
                     then old(st).(balance := old(st).balance + delta)
                     else old(st).(unrecovered := old(st).unrecovered - delta))
    {
      if delta > 0.0 {
        CreditWalletStandalone(delta);
      } else if delta < 0.0 {
        var ok := DebitWalletIfSufficient(-delta);
        if !ok { st := st.(unrecovered := st.unrecovered - delta); }
      }
    }

    // The write, and what follows if it took effect or there is nothing to
    // undo.  `fault`: the write raises.
    method WriteOrder(r: int, fault: bool) returns (settled: bool)
      requires r in st.requests && st.requests[r].Charged?
      modifies this
      ensures st == Apply(old(st), if fault then Fault(r) else Write(r)) && r in st.requests
      ensures settled ==> st.requests[r].Answered?
      ensures settled ==> st.requests[r].reply != Rejected && (st.requests[r].reply == Error <==> fault)
      ensures settled && st.requests[r].reply == Modified ==>
        var Charged(id, existing, change, _) := old(st).requests[r];
        id < |st.orders| && Carries(st.orders[id].terms, existing.terms, change)
      ensures !settled ==> st.requests[r].Undoing? && st.requests[r].reply == if fault then Error else Conflict
    {
      hide Value, Needs, Amended;
      var Charged(id, existing, change, delta) := st.requests[r];
      var modified := false;
      if !fault { modified := ModifyOrderById(id, change, existing.terms); }
      var reply := if modified then Modified else if fault then Error else Conflict;
      settled := modified || delta == 0.0;
      Note(r, if settled then Answered(reply) else Undoing(delta, reply));
    }

    method UndoMove(r: int)
      requires r in st.requests && st.requests[r].Undoing?
      modifies this
      ensures st == Apply(old(st), Undo(r)) && r in st.requests && st.requests[r] == Answered(old(st).requests[r].reply)
    {
      var reply := st.requests[r].reply;
      ReverseWalletDelta(st.requests[r].delta);
      Note(r, Answered(reply));
    }

    // Whatever other requests do leaves this one where it was.
    method Meanwhile(r: int, env: seq<Action>)
      requires forall a :: a in env ==> !Mine(r, a)
      modifies this
      ensures st == Run(old(st), env)
      ensures (r in st.requests <==> r in old(st).requests) &&
        (r in st.requests ==> st.requests[r] == old(st).requests[r])
    {
      OthersLeaveRequest(st, r, env);
      Others(env);
    }

    // The handler's run is one interleaving of the protocol, and its answer
    // says which: rejected with nothing written, modified, or lost the race (or
    // raised) and undone.
    method ModifyOrder(r: int, id: nat, change: Change, env1: seq<Action>, env2: seq<Action>, env3: seq<Action>,
                       fault: bool)
      returns (reply: Reply, ghost trace: seq<Action>)
      requires r !in st.requests
      requires forall a :: a in env1 + env2 + env3 ==> !Mine(r, a)
      modifies this
      ensures st == Run(old(st), trace) && r in st.requests && st.requests[r] == Answered(reply)
      ensures reply == Rejected ==>
        trace == [Read(r, id, change)] || trace == [Read(r, id, change)] + env1 + [Charge(r)]
      ensures reply == Modified ==> trace == [Read(r, id, change)] + env1 + [Charge(r)] + env2 + [Write(r)]
      ensures reply == Modified ==>
        id < |old(st).orders| && id < |st.orders| && Carries(st.orders[id].terms, old(st).orders[id].terms, change)
      ensures reply == Conflict ==>
        || trace == [Read(r, id, change)] + env1 + [Charge(r)] + env2 + [Write(r)]
        || trace == [Read(r, id, change)] + env1 + [Charge(r)] + env2 + [Write(r)] + env3 + [Undo(r)]
      ensures reply == Error ==> fault
      ensures reply == Error ==>
        || trace == [Read(r, id, change)] + env1 + [Charge(r)] + env2 + [Fault(r)]
        || trace == [Read(r, id, change)] + env1 + [Charge(r)] + env2 + [Fault(r)] + env3 + [Undo(r)]
    {
      hide Apply, Run, Mine;
      ghost var s0 := st;
      RunOne(s0, [], Read(r, id, change));
      var refused := LoadOrder(r, id, change);
      trace := [Read(r, id, change)];
      if refused { return Rejected, trace; }
      var existing := st.orders[id];
      RunAppend(s0, trace, env1);
      Meanwhile(r, env1);
      trace := trace + env1;

      RunOne(s0, trace, Charge(r));
      refused := MoveWallet(r, id, existing, change);
      trace := trace + [Charge(r)];
      if refused { return Rejected, trace; }
      RunAppend(s0, trace, env2);
      Meanwhile(r, env2);
      trace := trace + env2;

      ghost var write := if fault then Fault(r) else Write(r);
      RunOne(s0, trace, write);
      var settled := WriteOrder(r, fault);
      trace := trace + [write];
      if settled { return st.requests[r].reply, trace; }
      RunAppend(s0, trace, env3);
      Meanwhile(r, env3);
      trace := trace + env3;

      RunOne(s0, trace, Undo(r));
      UndoMove(r);
      trace := trace + [Undo(r)];
      return st.requests[r].reply, trace;
    }
  }

  lemma RunOne(s: State, a: seq<Action>, next: Action)
    ensures Run(s, a + [next]) == Apply(Run(s, a), next)
    ensures Run(s, []) == s
    ensures [] + [next] == [next]
  {
    assert (a + [next])[..|a|] == a;
  }
}
