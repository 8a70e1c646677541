// The live position book: database/positionCache.py (Redis hash of open
// positions plus one watch set per instrument) over the positions table,
// driven by PositionService.apply_fill and PositionCache.apply_tick.  Each
// operation runs under the lock of the position it touches, so it is one step.
module PositionBook {
  import opened Positions
  import opened Text
  import opened Wrappers

  type Key = (int, string)            // (user_id, canonical tsym)
  type Instrument = (string, string)  // (exchange, token), normalised

  // A cached open position.
  datatype Held = Held(fig: Figures, exchange: Option<string>, token: Option<string>,
                       lp: real, unrealized: real, total: real)

  // Its row in the positions table.
  datatype Row = Row(fig: Figures, open: bool)

  datatype Book = Book(cache: map<Key, Held>, rows: map<Key, Row>, watch: map<Instrument, set<Key>>)

  const EMPTY := Book(map[], map[], map[])

  function WatchKey(exchange: Option<string>, token: Option<string>): Option<Instrument>
  {
    if exchange == None || exchange.value == "" || token == None || token.value == "" then None
    else Some((Upper(Strip(exchange.value)), Strip(token.value)))
  }

  function Members(watch: map<Instrument, set<Key>>, i: Instrument): set<Key>
  {
    if i in watch then watch[i] else {}
  }

  // What a reader of the book sees: the cached position, else the row.
  function View(b: Book, k: Key): Figures
  {
    if k in b.cache then b.cache[k].fig else if k in b.rows then b.rows[k].fig else FLAT
  }

  function Marked(h: Held, ltp: real): Held
  {
    var u := Value(h.fig.netqty, ltp - h.fig.netavgprc);
    h.(lp := ltp, unrealized := u, total := h.fig.realized + u)
  }

  function NewHeld(p: Figures, f: Fill, exchange: Option<string>, token: Option<string>): Held
  {
    var u := if p.netqty != 0 then Value(p.netqty, f.price - p.netavgprc) else 0.0;
    Held(p, exchange, token, f.price, u, p.realized + u)
  }

  // ----- Steps --------------------------------------------------------------

  datatype Event =
    | FillEvent(key: Key, fill: Fill, exchange: Option<string>, token: Option<string>)
    | TickEvent(instrument: Instrument, ltp: real, busy: set<Key>)  // `busy`: positions locked by a fill right now
    | MemberEvent(instrument: Instrument, ltp: real, key: Key)      // one turn of a tick's loop, anything in between
  {
    predicate Valid() { FillEvent? ==> fill.Valid() }
  }

  function FillStep(b: Book, k: Key, f: Fill, exchange: Option<string>, token: Option<string>): Book
    requires f.Valid()
  {
    var p := Filled(View(b, k), f);
    var w := WatchKey(exchange, token);
    if p.netqty == 0 then
      Book(b.cache - {k}, b.rows[k := Row(p, false)],
           if w.Some? then b.watch[w.value := Members(b.watch, w.value) - {k}] else b.watch)
    else
      Book(b.cache[k := NewHeld(p, f, exchange, token)],
           if k in b.cache then b.rows else b.rows[k := Row(p, true)],
           if w.Some? then b.watch[w.value := Members(b.watch, w.value) + {k}] else b.watch)
  }

  // A tick as far as the watching positions in `done`: those open are marked,
  // those gone are dropped from the watch set, those locked are skipped.
  function TickPart(b: Book, i: Instrument, ltp: real, busy: set<Key>, done: set<Key>): Book
  {
    Book(map k | k in b.cache :: if k in done && k !in busy then Marked(b.cache[k], ltp) else b.cache[k],
         b.rows,
         map j | j in b.watch :: if j == i then b.watch[j] - (done - b.cache.Keys - busy) else b.watch[j])
  }

  function TickStep(b: Book, i: Instrument, ltp: real, busy: set<Key>): Book
  {
    TickPart(b, i, ltp, busy, Members(b.watch, i))
  }

  lemma TickPartStart(b: Book, i: Instrument, ltp: real, busy: set<Key>)
    ensures TickPart(b, i, ltp, busy, {}) == b
  {
    var p := TickPart(b, i, ltp, busy, {});
    assert p.cache == b.cache;
    forall j | j in b.watch ensures p.watch[j] == b.watch[j] {
      assert {} - b.cache.Keys - busy == {};
    }
    assert p.watch == b.watch;
  }

  // What a tick does to one watching position it is not locked out of.
  function TickOne(b: Book, i: Instrument, ltp: real, k: Key): Book
  {
    if k in b.cache then b.(cache := b.cache[k := Marked(b.cache[k], ltp)])
    else b.(watch := b.watch[i := Members(b.watch, i) - {k}])
  }

  lemma TickPartNext(b: Book, i: Instrument, ltp: real, busy: set<Key>, done: set<Key>, k: Key)
    requires k in Members(b.watch, i) && k !in done
    ensures var p := TickPart(b, i, ltp, busy, done);
            TickPart(b, i, ltp, busy, done + {k}) == if k in busy then p else TickOne(p, i, ltp, k)
    ensures k in TickPart(b, i, ltp, busy, done).cache <==> k in b.cache
  {
    hide Marked;
    var p, q := TickPart(b, i, ltp, busy, done), TickPart(b, i, ltp, busy, done + {k});
    if k in busy || k in b.cache {
      assert done + {k} - b.cache.Keys - busy == done - b.cache.Keys - busy;
      assert q.watch == p.watch;
      if k in busy {
        assert q.cache == p.cache;
      } else {
        assert q.cache == p.cache[k := Marked(p.cache[k], ltp)];
      }
    } else {
      assert done + {k} - b.cache.Keys - busy == (done - b.cache.Keys - busy) + {k};
      assert q.cache == p.cache;
      assert q.watch[i] == p.watch[i] - {k};
      assert q.watch == p.watch[i := Members(p.watch, i) - {k}];
    }
  }

  function Step(b: Book, e: Event): Book
    requires e.Valid()
  {
    match e
    case FillEvent(k, f, exchange, token) => FillStep(b, k, f, exchange, token)
    case TickEvent(i, ltp, busy) => TickStep(b, i, ltp, busy)
    case MemberEvent(i, ltp, k) => TickOne(b, i, ltp, k)
  }

  predicate AllEventsValid(events: seq<Event>) { forall i :: 0 <= i < |events| ==> events[i].Valid() }

  function Run(events: seq<Event>): Book
    requires AllEventsValid(events)
  {
    if |events| == 0 then EMPTY else Step(Run(events[..|events| - 1]), events[|events| - 1])
  }

  // ----- The services -------------------------------------------------------

  class PositionStore {
    var cache: map<Key, Held>
    var rows: map<Key, Row>
    var watch: map<Instrument, set<Key>>

    ghost function State(): Book
      reads this
    {
      Book(cache, rows, watch)
    }

    constructor ()
      ensures State() == EMPTY
    {
      cache, rows, watch := map[], map[], map[];
    }

    // PositionService.apply_fill.  `ok` is false where the service raises.
    method ApplyFill(userId: int, symbol: string, f: Fill, exchange: Option<string>, token: Option<string>)
      returns (ok: bool)
      modifies this
      ensures ok <==> userId > 0 && Strip(symbol) != "" && f.Valid()
      ensures !ok ==> State() == old(State())
      ensures ok ==> State() == FillStep(old(State()), (userId, Upper(Strip(symbol))), f, exchange, token)
    {
      if userId <= 0 || Strip(symbol) == "" || f.qty <= 0 || f.price <= 0.0 {
        return false;
      }
      var k := (userId, Upper(Strip(symbol)));
      var cached := k in cache;
      var existing := if k in cache then cache[k].fig else if k in rows then rows[k].fig else FLAT;
      var p := ServiceFigures(existing, f);
      var unrealized := if p.netqty != 0 then Value(p.netqty, f.price - p.netavgprc) else 0.0;
      var position := Held(p, exchange, token, f.price, unrealized, p.realized + unrealized);
      if p.netqty == 0 {
        rows := rows[k := Row(p, false)];
        RemovePosition(k, exchange, token);
      } else if !cached {
        rows := rows[k := Row(p, true)];
        SaveOpenPosition(k, position);
      } else {
        SaveOpenPosition(k, position);
      }
      return true;
    }

    // PositionCache.save_open_position.
    method SaveOpenPosition(k: Key, position: Held)
      modifies this`cache, this`watch
      ensures cache == old(cache)[k := position]
      ensures var w := WatchKey(position.exchange, position.token);
              watch == if w.Some? then old(watch)[w.value := Members(old(watch), w.value) + {k}] else old(watch)
    {
      var w := WatchKey(position.exchange, position.token);
      cache := cache[k := position];
      if w.Some? {
        watch := watch[w.value := Members(watch, w.value) + {k}];
      }
    }

    // PositionCache.remove_position.
    method RemovePosition(k: Key, exchange: Option<string>, token: Option<string>)
      modifies this`cache, this`watch
      ensures cache == old(cache) - {k}
      ensures var w := WatchKey(exchange, token);
              watch == if w.Some? then old(watch)[w.value := Members(old(watch), w.value) - {k}] else old(watch)
    {
      var w := WatchKey(exchange, token);
      cache := cache - {k};
      if w.Some? {
        watch := watch[w.value := Members(watch, w.value) - {k}];
      }
    }

    // PositionCache.apply_tick: one lock attempt per watching position.
    method ApplyTick(i: Instrument, ltp: real, busy: set<Key>) returns (updated: nat)
      modifies this
      ensures State() == TickStep(old(State()), i, ltp, busy)
      ensures updated == |Members(old(watch), i) * old(cache).Keys - busy|
    {
      hide TickPart, TickOne;
      ghost var b := State();
      TickPartStart(b, i, ltp, busy);
      updated := 0;
      var rest := Members(watch, i);
      ghost var done: set<Key>, hits: set<Key> := {}, {};
      while rest != {}
        invariant done == Members(b.watch, i) - rest && rest <= Members(b.watch, i)
        invariant State() == TickPart(b, i, ltp, busy, done)
        invariant updated == |hits|
        invariant forall x :: x in hits <==> x in done && x in b.cache && x !in busy
        decreases rest
      {
        var k :| k in rest;
        TickPartNext(b, i, ltp, busy, done, k);
        rest := rest - {k};
        done := done + {k};
        if k !in busy {
          var hit := TickMember(i, ltp, k);
          if hit {
            updated := updated + 1;
            hits := hits + {k};
          }
        }
      }
      assert done == Members(b.watch, i);
      assert hits == Members(b.watch, i) * b.cache.Keys - busy;
    }

    // The body of apply_tick's loop, under the member's lock.
    method TickMember(i: Instrument, ltp: real, k: Key) returns (hit: bool)
      modifies this
      ensures hit <==> k in old(cache)
      ensures State() == TickOne(old(State()), i, ltp, k)
    {
      hit := k in cache;
      if hit {
        cache := cache[k := Marked(cache[k], ltp)];
      } else {
        watch := watch[i := Members(watch, i) - {k}];
      }
    }
  }

  // ----- The book refines the plain fold of its fills ------------------------

  function FillsOf(events: seq<Event>, k: Key): seq<Fill>
  {
    if |events| == 0 then [] else
      var last := events[|events| - 1];
      FillsOf(events[..|events| - 1], k) + (if last.FillEvent? && last.key == k then [last.fill] else [])
  }

  lemma {:induction false} FillsOfValid(events: seq<Event>, k: Key)
    requires AllEventsValid(events)
    ensures AllValid(FillsOf(events, k))
  {
    if |events| > 0 { FillsOfValid(events[..|events| - 1], k); }
  }

  // Number of fills up to and including the one that opened the current cycle.
  ghost function Opening(fills: seq<Fill>): (n: nat)
    requires AllValid(fills) && |fills| > 0
    ensures 0 < n <= |fills|
    ensures Fold(FLAT, fills[..n - 1]).netqty == 0
    ensures forall j :: n <= j < |fills| ==> Fold(FLAT, fills[..j]).netqty != 0
  {
    var init := fills[..|fills| - 1];
    if |init| == 0 || Fold(FLAT, init).netqty == 0 then |fills|
    else
      var n := Opening(init);
      assert init[..n - 1] == fills[..n - 1];
      assert forall j :: n <= j < |init| ==> init[..j] == fills[..j];
      n
  }

  // One position's part of the book, given all fills it has had.
  ghost predicate Tracks(b: Book, k: Key, fills: seq<Fill>)
    requires AllValid(fills)
  {
    && View(b, k) == Fold(FLAT, fills)
    && (k in b.cache ==>
          && |fills| > 0
          && b.cache[k].fig.netqty != 0
          && b.cache[k].total == TotalPnl(b.cache[k].fig, b.cache[k].lp)
          && (var w := WatchKey(b.cache[k].exchange, b.cache[k].token);
              w.Some? ==> k in Members(b.watch, w.value))
          && k in b.rows && b.rows[k] == Row(Fold(FLAT, fills[..Opening(fills)]), true))
    && (k !in b.cache && k in b.rows ==> !b.rows[k].open && b.rows[k].fig.netqty == 0)
  }

  lemma {:induction false} BookRefinesFold(events: seq<Event>, k: Key)
    requires AllEventsValid(events)
    ensures AllValid(FillsOf(events, k))
    ensures Tracks(Run(events), k, FillsOf(events, k))
  {
    hide Filled, Value;
    FillsOfValid(events, k);
    if |events| > 0 {
      var init, last := events[..|events| - 1], events[|events| - 1];
      BookRefinesFold(init, k);
      if last.FillEvent? && last.key == k {
        TracksFill(Run(init), last, FillsOf(init, k));
      } else {
        TracksOther(Run(init), last, k, FillsOf(init, k));
        assert FillsOf(events, k) == FillsOf(init, k);
      }
    }
  }

  lemma TracksFill(b: Book, e: Event, fills: seq<Fill>)
    requires e.FillEvent? && e.Valid() && AllValid(fills) && Tracks(b, e.key, fills)
    ensures Tracks(Step(b, e), e.key, fills + [e.fill])
  {
    hide Filled, Value, WatchKey;
    var all := fills + [e.fill];
    assert all[..|fills|] == fills;
    assert Fold(FLAT, all) == Filled(View(b, e.key), e.fill);
    if e.key in b.cache {
      var n := Opening(fills);
      assert all[..n] == fills[..n];
    } else {
      assert Fold(FLAT, fills).netqty == 0;
      assert all[..Opening(all)] == all;
    }
  }

  lemma TracksOther(b: Book, e: Event, k: Key, fills: seq<Fill>)
    requires e.Valid() && AllValid(fills) && Tracks(b, k, fills)
    requires e.FillEvent? ==> e.key != k
    ensures Tracks(Step(b, e), k, fills)
  {
    hide Filled, Value, WatchKey;
  }

  lemma TickMarks(b: Book, i: Instrument, ltp: real, busy: set<Key>, k: Key)
    requires k in b.cache && k !in busy && k in Members(b.watch, i)
    ensures k in TickStep(b, i, ltp, busy).cache && TickStep(b, i, ltp, busy).cache[k] == Marked(b.cache[k], ltp)
  {
    hide Marked;
  }

  // Hence the total P&L shown after a tick is the user's net cash in that
  // contract plus the holding at the tick price.
  lemma TickShowsCashPlusHoldings(events: seq<Event>, k: Key, ltp: real, busy: set<Key>)
    requires AllEventsValid(events)
    ensures AllValid(FillsOf(events, k))
    ensures
      var b := Run(events);
      var fills := FillsOf(events, k);
      k in b.cache && k !in busy ==>
        forall i :: WatchKey(b.cache[k].exchange, b.cache[k].token) == Some(i) ==>
          var shown := TickStep(b, i, ltp, busy).cache[k];
          && shown.lp == ltp && shown.total == Cash(fills) + Value(Bought(fills) - Sold(fills), ltp)
          && shown.fig == Fold(FLAT, fills)
  {
    hide Value, Fold, WatchKey, Opening, TickStep, Run;
    BookRefinesFold(events, k);
    TotalPnlIsCashPlusHoldings(FillsOf(events, k), ltp);
    var b := Run(events);
    if k in b.cache && k !in busy && WatchKey(b.cache[k].exchange, b.cache[k].token).Some? {
      TickMarks(b, WatchKey(b.cache[k].exchange, b.cache[k].token).value, ltp, busy, k);
    }
  }

  // What an open position shows is marked at the price it shows: whatever fills
  // and ticks there were, its unrealised P&L is what closing at that price would
  // bring beyond the average, and its total adds what is realised.
  ghost predicate MarkedAtItsPrice(h: Held)
  {
    h.unrealized == Value(h.fig.netqty, h.lp) - Value(h.fig.netqty, h.fig.netavgprc)
    && h.total == h.fig.realized + h.unrealized
  }

  lemma {:induction false} OpenPositionsAreMarked(events: seq<Event>, k: Key)
    requires AllEventsValid(events) && k in Run(events).cache
    ensures MarkedAtItsPrice(Run(events).cache[k])
  {
    hide Value, Filled, WatchKey;
    if |events| > 0 {
      var init, e := events[..|events| - 1], events[|events| - 1];
      var before := Run(init);
      if k in before.cache {
        OpenPositionsAreMarked(init, k);
        MarkingMarks(before.cache[k], if e.FillEvent? then 0.0 else e.ltp);
      }
      if e.FillEvent? { OpeningMarks(Filled(View(before, e.key), e.fill), e.fill, e.exchange, e.token); }
    }
  }

  lemma MarkingMarks(h: Held, ltp: real)
    ensures MarkedAtItsPrice(Marked(h, ltp)) && Marked(h, ltp).lp == ltp
  {
    hide Value;
    ValueDiff(h.fig.netqty, ltp, h.fig.netavgprc);
  }

  lemma OpeningMarks(p: Figures, f: Fill, exchange: Option<string>, token: Option<string>)
    ensures MarkedAtItsPrice(NewHeld(p, f, exchange, token)) && NewHeld(p, f, exchange, token).lp == f.price
  {
    hide Value;
    ValueDiff(p.netqty, f.price, p.netavgprc);
    ValueSum(0, 0, f.price);
    ValueSum(0, 0, p.netavgprc);
  }

  // ----- The watch index ----------------------------------------------------

  function HeldOn(b: Book, k: Key): Option<Instrument>
    requires k in b.cache
  {
    WatchKey(b.cache[k].exchange, b.cache[k].token)
  }

  // Ticks reach exactly the open positions on their instrument: the index
  // misses none and holds no stale entry.
  ghost predicate Exact(b: Book)
  {
    forall i :: Members(b.watch, i) == set k | k in b.cache && HeldOn(b, k) == Some(i)
  }

  // A fill that leaves a position open has it watched under the exchange, in
  // capitals, and the token it names, if it names both; one that closes it takes
  // it out of that watch set; no other watch set changes.
  lemma FillWatches(b: Book, k: Key, f: Fill, exchange: string, token: string, i: Instrument)
    requires f.Valid()
    ensures var b' := FillStep(b, k, f, Some(exchange), Some(token));
            var named := exchange != "" && token != "" && i == (Upper(Strip(exchange)), Strip(token));
            Members(b'.watch, i) == if !named then Members(b.watch, i)
                                    else if k in b'.cache then Members(b.watch, i) + {k} else Members(b.watch, i) - {k}
  {
    hide Value, Filled;
  }

  // The fill names the instrument its cached position is already watched under.
  predicate NamesSame(b: Book, e: Event)
    requires e.FillEvent?
  {
    e.key in b.cache ==> HeldOn(b, e.key) == None || HeldOn(b, e.key) == WatchKey(e.exchange, e.token)
  }

  // A fill keeps the index exact exactly when it names the same instrument.
  lemma FillKeepsExactIff(b: Book, e: Event)
    requires e.FillEvent? && e.Valid() && Exact(b)
    ensures Exact(Step(b, e)) <==> NamesSame(b, e)
  {
    hide Filled, Value, WatchKey;
    var after := Step(b, e);
    if NamesSame(b, e) {
      forall i ensures Members(after.watch, i) == set k | k in after.cache && HeldOn(after, k) == Some(i) {
        assert Members(b.watch, i) == set k | k in b.cache && HeldOn(b, k) == Some(i);
      }
    } else {
      var i := HeldOn(b, e.key).value;
      assert e.key in Members(b.watch, i);
      assert e.key in Members(after.watch, i);
    }
  }

  // Ticks always keep it exact.
  lemma TickKeepsExact(b: Book, e: Event)
    requires !e.FillEvent? && Exact(b)
    ensures Exact(Step(b, e))
  {
    hide Value, WatchKey;
    var after := Step(b, e);
    forall i ensures Members(after.watch, i) == set k | k in after.cache && HeldOn(after, k) == Some(i) {
      assert Members(b.watch, i) == set k | k in b.cache && HeldOn(b, k) == Some(i);
    }
  }

  // The index is exact at every point of a run exactly when every fill of a
  // cached position names the instrument the position is watched under.
  lemma {:induction false} WatchIsExactIff(events: seq<Event>)
    requires AllEventsValid(events)
    ensures (forall n :: 0 <= n <= |events| ==> Exact(Run(events[..n])))
      <==> forall j :: 0 <= j < |events| && events[j].FillEvent? ==> NamesSame(Run(events[..j]), events[j])
  {
    hide Step, Exact, NamesSame;
    if |events| == 0 {
      assert events[..0] == [];
      assert Exact(Run([])) by { NothingWatched(); }
    } else {
      var init, last := events[..|events| - 1], events[|events| - 1];
      WatchIsExactIff(init);
      assert forall n :: 0 <= n <= |init| ==> init[..n] == events[..n];
      assert forall j :: 0 <= j < |init| ==> init[j] == events[j];
      assert events[..|events|] == events && init[..|init|] == init;
      if Exact(Run(init)) {
        if last.FillEvent? { FillKeepsExactIff(Run(init), last); } else { TickKeepsExact(Run(init), last); }
      }
    }
  }

  lemma NothingWatched()
    ensures Run([]) == EMPTY && Exact(EMPTY)
  {}

  // Every fill of a contract names the same instrument.
  ghost predicate Steady(events: seq<Event>, inst: Key -> Option<Instrument>)
  {
    forall j :: 0 <= j < |events| && events[j].FillEvent? ==>
      WatchKey(events[j].exchange, events[j].token) == inst(events[j].key)
  }

  // In particular when each contract's fills always name one instrument.
  lemma {:induction false} WatchIsExact(events: seq<Event>, inst: Key -> Option<Instrument>, i: Instrument)
    requires AllEventsValid(events) && Steady(events, inst)
    ensures var b := Run(events);
            Members(b.watch, i) == set k | k in b.cache && inst(k) == Some(i)
  {
    hide Filled, Value, WatchKey;
    if |events| > 0 {
      WatchIsExact(events[..|events| - 1], inst, i);
    }
  }

  // Without that, a position whose later fill names another token stays in the
  // old token's watch set, and the old token's ticks keep repricing it.
  lemma StaleTokenStillReprices()
    ensures var nfo := Some("NFO");
            var k := (1, "T");
            var b := Run([FillEvent(k, Fill(Buy, 1, 10.0), nfo, Some("A")),
                          FillEvent(k, Fill(Buy, 1, 10.0), nfo, Some("B"))]);
            && k in b.cache && WatchKey(b.cache[k].exchange, b.cache[k].token) == Some((Upper("NFO"), "B"))
            && k in Members(b.watch, (Upper("NFO"), "A"))
            && TickStep(b, (Upper("NFO"), "A"), 99.0, {}).cache[k].lp == 99.0
  {
    hide Value, Blend;
    var nfo := Some("NFO");
    var k := (1, "T");
    var e1, e2 := FillEvent(k, Fill(Buy, 1, 10.0), nfo, Some("A")), FillEvent(k, Fill(Buy, 1, 10.0), nfo, Some("B"));
    assert Strip("NFO") == "NFO" && Strip("A") == "A" && Strip("B") == "B";
    assert [e1, e2][..1] == [e1] && [e1][..0] == [];
    assert Run([]) == EMPTY;
    assert Run([e1]) == Step(EMPTY, e1);
    assert Run([e1, e2]) == Step(Step(EMPTY, e1), e2);
  }
}
