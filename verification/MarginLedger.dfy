// service/marginengine/postgres_margin_ledger_repository.py over its four
// tables: order_margin_blocks, wallets.blocked_margin, positions.blocked_margin
// and margin_block_audit.
module MarginLedger {
  import opened Positions
  import opened Wrappers
  import opened Sums

  datatype Block = Block(order: int, user: int, amount: real, active: bool)

  datatype Wallet = Wallet(balance: real, blocked: real)

  datatype Event = Blocking | Releasing | Reconciling

  datatype Audit = Audit(user: int, event: Event, delta: real)

  datatype Ledger = Ledger(blocks: seq<Block>, wallets: map<int, Wallet>,
                           positions: map<PositionKey, real>, audit: seq<Audit>)

  function AtLeastZero(x: real): real { if x < 0.0 then 0.0 else x }

  // The order's ACTIVE block; the partial unique index allows only one.
  function FindActive(blocks: seq<Block>, order: int): (i: Option<nat>)
    ensures i.Some? ==> i.value < |blocks| && blocks[i.value].active && blocks[i.value].order == order
    ensures i.None? ==> forall j :: 0 <= j < |blocks| ==> !(blocks[j].active && blocks[j].order == order)
  {
    if |blocks| == 0 then None
    else if blocks[|blocks| - 1].active && blocks[|blocks| - 1].order == order then Some(|blocks| - 1)
    else FindActive(blocks[..|blocks| - 1], order)
  }

  // None: MarginEngineError, and the caller rolls back.
  function BlockStep(l: Ledger, user: int, order: int, amount: real): Option<Ledger>
  {
    if amount < 0.0 || FindActive(l.blocks, order).Some? || user !in l.wallets then None
    else
      Some(Ledger(
        l.blocks + [Block(order, user, amount, true)],
        l.wallets[user := l.wallets[user].(blocked := l.wallets[user].blocked + amount)],
        l.positions,
        l.audit + [Audit(user, Blocking, amount)]))
  }

  function ReleaseStep(l: Ledger, order: int): Ledger
  {
    var found := FindActive(l.blocks, order);
    if found.None? then l
    else
      var block := l.blocks[found.value];
      Ledger(
        l.blocks[found.value := block.(active := false)],
        if block.user !in l.wallets then l.wallets
        else l.wallets[block.user := l.wallets[block.user].(blocked :=
          AtLeastZero(l.wallets[block.user].blocked - block.amount))],
        l.positions,
        l.audit + [Audit(block.user, Releasing, -block.amount)])
  }

  function PositionBlocked(l: Ledger, k: PositionKey): real { if k in l.positions then l.positions[k] else 0.0 }

  // The second component says whether the call raised; what it wrote before
  // raising stays, because the fill that called it commits regardless.
  function ReconcileStep(l: Ledger, user: int, tsym: string, required: real): (Ledger, bool)
  {
    var k := PositionKey(user, tsym);
    if required < 0.0 then (l, true)
    else
      var positions := if k in l.positions then l.positions[k := required] else l.positions;
      if user !in l.wallets then (l.(positions := positions), true)
      else
        var delta := required - PositionBlocked(l, k);
        (Ledger(
           l.blocks,
           l.wallets[user := l.wallets[user].(blocked := AtLeastZero(l.wallets[user].blocked + delta))],
           positions,
           l.audit + [Audit(user, Reconciling, delta)]), false)
  }

  // ----- Agreement of the four tables ------------------------------------------------------

  ghost function HeldBy(user: int): Block -> real { (b: Block) => if b.active && b.user == user then b.amount else 0.0 }

  ghost function ReservedBy(user: int): (PositionKey, real) -> real
  {
    (k: PositionKey, x: real) => if k.user == user then x else 0.0
  }

  ghost function DeltaOf(user: int): Audit -> real { (a: Audit) => if a.user == user then a.delta else 0.0 }

  ghost predicate Agrees(l: Ledger, user: int)
    requires user in l.wallets
  {
    l.wallets[user].blocked == SeqSum(l.blocks, HeldBy(user)) + MapSum(l.positions, ReservedBy(user))
  }

  ghost predicate WellFormed(l: Ledger)
  {
    && (forall i :: 0 <= i < |l.blocks| ==> l.blocks[i].amount >= 0.0 && l.blocks[i].user in l.wallets)
    && (forall i, j :: 0 <= i < j < |l.blocks| && l.blocks[i].active && l.blocks[j].active ==>
      l.blocks[i].order != l.blocks[j].order)
    && (forall k :: k in l.positions ==> l.positions[k] >= 0.0)
  }

  ghost predicate Sound(l: Ledger)
  {
    WellFormed(l) && forall u :: u in l.wallets ==> Agrees(l, u)
  }

  // The trail explains the wallet: `opening` is what was blocked before it began.
  ghost predicate Explained(l: Ledger, opening: map<int, real>)
  {
    forall u :: u in l.wallets && u in opening ==> l.wallets[u].blocked == opening[u] + SeqSum(l.audit, DeltaOf(u))
  }

  lemma {:induction false} HeldNonNegative(blocks: seq<Block>, user: int)
    requires forall i :: 0 <= i < |blocks| ==> blocks[i].amount >= 0.0
    ensures SeqSum(blocks, HeldBy(user)) >= 0.0
  {
    if |blocks| > 0 { HeldNonNegative(blocks[..|blocks| - 1], user); }
  }

  lemma {:induction false} ReservedNonNegative(positions: map<PositionKey, real>, user: int)
    requires forall k :: k in positions ==> positions[k] >= 0.0
    ensures MapSum(positions, ReservedBy(user)) >= 0.0
    decreases |positions|
  {
    if positions != map[] {
      var k :| k in positions;
      MapSumTake(positions, ReservedBy(user), k);
      ReservedNonNegative(positions - {k}, user);
    }
  }

  // Releasing what a block holds never takes the wallet below zero, so the
  // clamp in release_order_margin changes nothing.
  lemma ReleaseClampInert(l: Ledger, order: int)
    requires Sound(l) && FindActive(l.blocks, order).Some?
    ensures var b := l.blocks[FindActive(l.blocks, order).value];
      b.user in l.wallets && l.wallets[b.user].blocked - b.amount >= 0.0
  {
    var i := FindActive(l.blocks, order).value;
    var b := l.blocks[i];
    var rest := l.blocks[i := b.(active := false)];
    assert Agrees(l, b.user);
    SeqSumPut(l.blocks, HeldBy(b.user), i, rest[i]);
    HeldNonNegative(rest, b.user);
    ReservedNonNegative(l.positions, b.user);
  }

  // Nor does replacing a position's margin by a non-negative one.
  lemma ReconcileClampInert(l: Ledger, user: int, tsym: string, required: real)
    requires Sound(l) && user in l.wallets && required >= 0.0
    ensures l.wallets[user].blocked + (required - PositionBlocked(l, PositionKey(user, tsym))) >= 0.0
  {
    var k := PositionKey(user, tsym);
    assert Agrees(l, user);
    HeldNonNegative(l.blocks, user);
    if k in l.positions {
      MapSumTake(l.positions, ReservedBy(user), k);
      ReservedNonNegative(l.positions - {k}, user);
    } else {
      ReservedNonNegative(l.positions, user);
    }
  }

  lemma BlockKeepsSound(l: Ledger, user: int, order: int, amount: real)
    requires Sound(l) && BlockStep(l, user, order, amount).Some?
    ensures Sound(BlockStep(l, user, order, amount).value)
  {
    var l' := BlockStep(l, user, order, amount).value;
    forall u | u in l'.wallets ensures Agrees(l', u) {
      assert Agrees(l, u);
      SeqSumPush(l.blocks, HeldBy(u), Block(order, user, amount, true));
    }
  }

  lemma ReleaseKeepsSound(l: Ledger, order: int)
    requires Sound(l)
    ensures Sound(ReleaseStep(l, order))
  {
    var found := FindActive(l.blocks, order);
    if found.Some? {
      ReleaseClampInert(l, order);
      var l' := ReleaseStep(l, order);
      forall u | u in l'.wallets ensures Agrees(l', u) {
        assert Agrees(l, u);
        SeqSumPut(l.blocks, HeldBy(u), found.value, l'.blocks[found.value]);
      }
    }
  }

  // A fill's reconciliation keeps the tables in agreement exactly when the
  // position has a row to hold the margin, or no margin is needed.
  lemma ReconcileAgreesIff(l: Ledger, user: int, tsym: string, required: real)
    requires Sound(l) && user in l.wallets && required >= 0.0
    ensures Sound(ReconcileStep(l, user, tsym, required).0) <==>
      PositionKey(user, tsym) in l.positions || required == 0.0
  {
    var k := PositionKey(user, tsym);
    var l' := ReconcileStep(l, user, tsym, required).0;
    ReconcileClampInert(l, user, tsym, required);
    assert Agrees(l, user);
    forall u | u in l.wallets
      ensures Agrees(l', u) <==> (u != user || k in l.positions || required == 0.0)
    {
      assert Agrees(l, u);
      if k in l.positions { MapSumPut(l.positions, ReservedBy(u), k, required); }
    }
  }

  // Without a wallet, or with a negative margin, the call raises.  Only the
  // position row of a user who has no wallet can have changed.
  lemma ReconcileRaisesKeepsSound(l: Ledger, user: int, tsym: string, required: real)
    requires Sound(l) && ReconcileStep(l, user, tsym, required).1
    ensures Sound(ReconcileStep(l, user, tsym, required).0)
    ensures ReconcileStep(l, user, tsym, required).0.wallets == l.wallets
  {
    var k := PositionKey(user, tsym);
    var l' := ReconcileStep(l, user, tsym, required).0;
    forall u | u in l.wallets ensures Agrees(l', u) {
      assert Agrees(l, u);
      if l' != l && k in l.positions { MapSumPut(l.positions, ReservedBy(u), k, required); }
    }
  }

  // Every change of a wallet's blocked margin is in the audit trail, to the cent.
  lemma StepsAreExplained(l: Ledger, opening: map<int, real>, user: int, tsym: string, order: int, amount: real)
    requires Sound(l) && Explained(l, opening)
    ensures BlockStep(l, user, order, amount).Some? ==> Explained(BlockStep(l, user, order, amount).value, opening)
    ensures Explained(ReleaseStep(l, order), opening)
    ensures Explained(ReconcileStep(l, user, tsym, amount).0, opening)
  {
    BlockExplained(l, opening, user, order, amount);
    ReleaseExplained(l, opening, order);
    ReconcileExplained(l, opening, user, tsym, amount);
  }

  lemma BlockExplained(l: Ledger, opening: map<int, real>, user: int, order: int, amount: real)
    requires Explained(l, opening)
    ensures BlockStep(l, user, order, amount).Some? ==> Explained(BlockStep(l, user, order, amount).value, opening)
  {
    forall u { SeqSumPush(l.audit, DeltaOf(u), Audit(user, Blocking, amount)); }
  }

  lemma ReleaseExplained(l: Ledger, opening: map<int, real>, order: int)
    requires Sound(l) && Explained(l, opening)
    ensures Explained(ReleaseStep(l, order), opening)
  {
    var found := FindActive(l.blocks, order);
    if found.Some? {
      var b := l.blocks[found.value];
      ReleaseClampInert(l, order);
      forall u { SeqSumPush(l.audit, DeltaOf(u), Audit(b.user, Releasing, -b.amount)); }
    }
  }

  lemma ReconcileExplained(l: Ledger, opening: map<int, real>, user: int, tsym: string, required: real)
    requires Sound(l) && Explained(l, opening)
    ensures Explained(ReconcileStep(l, user, tsym, required).0, opening)
  {
    if user in l.wallets && required >= 0.0 {
      ReconcileClampInert(l, user, tsym, required);
      var delta := required - PositionBlocked(l, PositionKey(user, tsym));
      forall u { SeqSumPush(l.audit, DeltaOf(u), Audit(user, Reconciling, delta)); }
    }
  }

  // A block is released once: again changes nothing.
  lemma ReleaseIsIdempotent(l: Ledger, order: int)
    requires WellFormed(l)
    ensures FindActive(ReleaseStep(l, order).blocks, order).None?
    ensures ReleaseStep(ReleaseStep(l, order), order) == ReleaseStep(l, order)
  {
    var found := FindActive(l.blocks, order);
    if found.Some? {
      var after := ReleaseStep(l, order).blocks;
      assert forall j :: 0 <= j < |after| ==> !(after[j].active && after[j].order == order);
    }
  }

  // ----- The repository ---------------------------------------------------------------------

  class PostgresMarginLedgerRepository {
    var blocks: seq<Block>
    var wallets: map<int, Wallet>
    var positions: map<PositionKey, real>
    var audit: seq<Audit>

    constructor (l: Ledger)
      ensures Now() == l
    {
      blocks, wallets, positions, audit := l.blocks, l.wallets, l.positions, l.audit;
    }

    function Now(): Ledger
      reads this
    {
      Ledger(blocks, wallets, positions, audit)
    }

    method BlockOrderMargin(user: int, order: int, amount: real) returns (ok: bool)
      modifies this
      ensures ok == BlockStep(old(Now()), user, order, amount).Some?
      ensures Now() == if ok then BlockStep(old(Now()), user, order, amount).value else old(Now())
    {
      if amount < 0.0 || FindActive(blocks, order).Some? || user !in wallets { return false; }
      blocks := blocks + [Block(order, user, amount, true)];
      var wallet := wallets[user];
      wallets := wallets[user := wallet.(blocked := wallet.blocked + amount)];
      audit := audit + [Audit(user, Blocking, amount)];
      return true;
    }

    method ReleaseOrderMargin(order: int)
      modifies this
      ensures Now() == ReleaseStep(old(Now()), order)
    {
      var found := FindActive(blocks, order);
      if found.None? { return; }
      var block := blocks[found.value];
      blocks := blocks[found.value := block.(active := false)];
      if block.user in wallets {
        var wallet := wallets[block.user];
        wallets := wallets[block.user := wallet.(blocked := AtLeastZero(wallet.blocked - block.amount))];
      }
      audit := audit + [Audit(block.user, Releasing, -block.amount)];
    }

    method ReconcilePositionMargin(user: int, tsym: string, required: real) returns (raised: bool)
      modifies this
      ensures (Now(), raised) == ReconcileStep(old(Now()), user, tsym, required)
    {
      var k := PositionKey(user, tsym);
      var oldPositionBlocked := if k in positions then positions[k] else 0.0;
      if required < 0.0 { return true; }
      if k in positions { positions := positions[k := required]; }
      if user !in wallets { return true; }
      var delta := required - oldPositionBlocked;
      wallets := wallets[user := wallets[user].(blocked := AtLeastZero(wallets[user].blocked + delta))];
      audit := audit + [Audit(user, Reconciling, delta)];
      return false;
    }
  }
}
