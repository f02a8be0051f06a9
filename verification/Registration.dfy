/** Registering views: one request at a time, and many at once with lookup and insert as separate steps. */
module Registration {
  import opened Payloads
  import opened Sums
  import P = Protocol
  import Periods

  type Key = P.Key
  type EventId = nat
  type RequestId = nat

  datatype Command = Command(key: Key, asset: Id, occurredAt: int)

  datatype Row = Row(id: EventId, key: Key, asset: Id, occurredAt: int, period: Period)

  datatype Reply =
    | Registered(eventId: EventId, periodId: Period, duplicate: bool)
    | AssetNotFound
    | UniqueViolation // the insert hits the unique index on the key

  /** Where a request is. */
  datatype Phase = LookingUp | CheckingAsset | Inserting | Replied(reply: Reply)

  datatype Request = Request(cmd: Command, phase: Phase)

  datatype System = System(periodSeconds: nat, rows: seq<Row>, assets: set<Id>, requests: map<RequestId, Request>)

  type Live = s: System | s.periodSeconds > 0 witness System(1, [], {}, map[])

  /** `findByIdempotencyKey`: the position of the key's row, or the number of rows. */
  function Find(rows: seq<Row>, key: Key): (i: nat)
    ensures i <= |rows|
    ensures i < |rows| ==> rows[i].key == key
    ensures forall j :: 0 <= j < i ==> rows[j].key != key
  {
    if rows == [] then 0 else if rows[0].key == key then 0 else 1 + Find(rows[1..], key)
  }

  predicate Has(rows: seq<Row>, key: Key) { exists i :: 0 <= i < |rows| && rows[i].key == key }

  function NewRow(s: Live, cmd: Command, id: EventId): Row {
    Row(id, cmd.key, cmd.asset, cmd.occurredAt, Periods.PeriodIdOf(cmd.occurredAt, s.periodSeconds))
  }

  // ---- Interleaved steps ----

  datatype Step =
    | Arrive(r: RequestId, cmd: Command)
    | Lookup(r: RequestId)
    | RequireExists(r: RequestId)
    | Create(r: RequestId, id: EventId)
    | AddAsset(asset: Id)

  predicate Can(s: Live, e: Step) {
    match e
    case Arrive(r, _) => r !in s.requests
    case Lookup(r) => r in s.requests && s.requests[r].phase.LookingUp?
    case RequireExists(r) => r in s.requests && s.requests[r].phase.CheckingAsset?
    case Create(r, id) =>
      && r in s.requests && s.requests[r].phase.Inserting?
      && forall i :: 0 <= i < |s.rows| ==> s.rows[i].id != id // `randomUUID` never repeats
    case AddAsset(_) => true
  }

  function Move(s: Live, r: RequestId, phase: Phase): Live
    requires r in s.requests
  {
    s.(requests := s.requests[r := Request(s.requests[r].cmd, phase)])
  }

  function After(s: Live, e: Step): Live
    requires Can(s, e)
  {
    match e
    case Arrive(r, cmd) => s.(requests := s.requests[r := Request(cmd, LookingUp)])
    case Lookup(r) =>
      var i := Find(s.rows, s.requests[r].cmd.key);
      if i < |s.rows| then Move(s, r, Replied(Registered(s.rows[i].id, s.rows[i].period, true)))
      else Move(s, r, CheckingAsset)
    case RequireExists(r) =>
      if s.requests[r].cmd.asset in s.assets then Move(s, r, Inserting) else Move(s, r, Replied(AssetNotFound))
    case Create(r, id) =>
      var cmd := s.requests[r].cmd;
      if Has(s.rows, cmd.key) then Move(s, r, Replied(UniqueViolation))
      else
        var row := NewRow(s, cmd, id);
        Move(s, r, Replied(Registered(row.id, row.period, false))).(rows := s.rows + [row])
    case AddAsset(a) => s.(assets := s.assets + {a})
  }

  ghost predicate Run(s: Live, es: seq<Step>, t: Live)
    decreases es
  {
    if es == [] then s == t else Can(s, es[0]) && Run(After(s, es[0]), es[1..], t)
  }

  // ---- What every interleaving keeps ----

  predicate KeysUnique(rows: seq<Row>) {
    forall i, j :: 0 <= i < j < |rows| ==> rows[i].key != rows[j].key && rows[i].id != rows[j].id
  }

  /** The row stands behind a successful reply: its own key, event and period. */
  predicate Backed(rows: seq<Row>, q: Request) {
    q.phase.Replied? && q.phase.reply.Registered? ==>
      exists i :: 0 <= i < |rows| && rows[i].key == q.cmd.key && rows[i].id == q.phase.reply.eventId && rows[i].period == q.phase.reply.periodId
  }

  /** The request whose insert made row i. */
  predicate Author(s: Live, i: nat, r: RequestId)
    requires i < |s.rows|
  {
    && r in s.requests
    && s.requests[r].cmd == Command(s.rows[i].key, s.rows[i].asset, s.rows[i].occurredAt)
    && s.requests[r].phase == Replied(Registered(s.rows[i].id, s.rows[i].period, false))
  }

  /** Row i has a registered asset, the period of its instant, and a request that was told so. */
  ghost predicate RowOk(s: Live, i: nat)
    requires i < |s.rows|
  {
    && s.rows[i].asset in s.assets
    && s.rows[i].period == Periods.PeriodIdOf(s.rows[i].occurredAt, s.periodSeconds)
    && exists r :: Author(s, i, r)
  }

  ghost predicate Inv(s: Live) {
    && KeysUnique(s.rows)
    && (forall r :: r in s.requests ==> Backed(s.rows, s.requests[r]))
    && (forall r :: r in s.requests && s.requests[r].phase.Inserting? ==> s.requests[r].cmd.asset in s.assets)
    && (forall i: nat :: i < |s.rows| ==> RowOk(s, i))
  }

  /** Rows stay as they are while requests that have replied do. */
  lemma RowsStayOk(s: Live, t: Live)
    requires t.periodSeconds == s.periodSeconds && t.rows == s.rows && s.assets <= t.assets
    requires forall r :: r in s.requests && s.requests[r].phase.Replied? ==> r in t.requests && t.requests[r] == s.requests[r]
    requires forall i: nat :: i < |s.rows| ==> RowOk(s, i)
    ensures forall i: nat :: i < |t.rows| ==> RowOk(t, i)
  {
    forall i: nat | i < |t.rows| ensures RowOk(t, i) {
      assert RowOk(s, i);
      var q :| Author(s, i, q);
      assert Author(t, i, q);
    }
  }

  lemma RequestMoves(s: Live, r: RequestId, phase: Phase)
    requires Inv(s) && r in s.requests && !s.requests[r].phase.Replied?
    requires Backed(s.rows, Request(s.requests[r].cmd, phase))
    requires phase.Inserting? ==> s.requests[r].cmd.asset in s.assets
    ensures Inv(Move(s, r, phase))
  {
    hide RowOk;
    RowsStayOk(s, Move(s, r, phase));
  }

  lemma RepliesStayBacked(s: Live, r: RequestId, row: Row)
    requires r in s.requests && row.key == s.requests[r].cmd.key
    requires forall q :: q in s.requests ==> Backed(s.rows, s.requests[q])
    ensures var t := Move(s, r, Replied(Registered(row.id, row.period, false)));
            forall q :: q in t.requests ==> Backed(s.rows + [row], t.requests[q])
  {
    var t := Move(s, r, Replied(Registered(row.id, row.period, false)));
    var rows := s.rows + [row];
    forall q | q in t.requests ensures Backed(rows, t.requests[q]) {
      if q == r {
        assert rows[|s.rows|] == row;
      } else if t.requests[q].phase.Replied? && t.requests[q].phase.reply.Registered? {
        assert Backed(s.rows, s.requests[q]);
        var i :| 0 <= i < |s.rows| && s.rows[i].key == s.requests[q].cmd.key
                 && s.rows[i].id == s.requests[q].phase.reply.eventId && s.rows[i].period == s.requests[q].phase.reply.periodId;
        assert rows[i] == s.rows[i];
      }
    }
  }

  lemma RowAppears(s: Live, r: RequestId, id: EventId)
    requires Inv(s) && Can(s, Create(r, id)) && !Has(s.rows, s.requests[r].cmd.key)
    ensures Inv(After(s, Create(r, id)))
  {
    var row := NewRow(s, s.requests[r].cmd, id);
    var m := Move(s, r, Replied(Registered(row.id, row.period, false)));
    var t := After(s, Create(r, id));
    assert t == m.(rows := s.rows + [row]);
    RepliesStayBacked(s, r, row);
    RowsStayOk(s, m);
    forall i: nat | i < |t.rows| ensures RowOk(t, i) {
      if i < |s.rows| {
        assert RowOk(m, i);
        var q :| Author(m, i, q);
        assert Author(t, i, q);
      } else {
        assert Author(t, i, r);
      }
    }
  }

  lemma StepKeepsInv(s: Live, e: Step)
    requires Inv(s) && Can(s, e)
    ensures Inv(After(s, e))
  {
    if e.Arrive? || e.AddAsset? {
      hide RowOk;
      RowsStayOk(s, After(s, e));
    } else if e.Lookup? {
      hide Inv;
      var i := Find(s.rows, s.requests[e.r].cmd.key);
      RequestMoves(s, e.r, if i < |s.rows| then Replied(Registered(s.rows[i].id, s.rows[i].period, true)) else CheckingAsset);
    } else if e.RequireExists? {
      hide Inv;
      RequestMoves(s, e.r, if s.requests[e.r].cmd.asset in s.assets then Inserting else Replied(AssetNotFound));
    } else {
      hide Inv;
      if Has(s.rows, s.requests[e.r].cmd.key) {
        RequestMoves(s, e.r, Replied(UniqueViolation));
      } else {
        RowAppears(s, e.r, e.id);
      }
    }
  }

  lemma {:induction false} RunKeepsInv(s: Live, es: seq<Step>, t: Live)
    requires Inv(s) && Run(s, es, t)
    ensures Inv(t)
    decreases es
  {
    hide Inv, Can, After;
    if es != [] {
      StepKeepsInv(s, es[0]);
      RunKeepsInv(After(s, es[0]), es[1..], t);
    }
  }

  ghost predicate Reachable(s: Live) {
    exists es :: Run(System(s.periodSeconds, [], {}, map[]), es, s)
  }

  lemma ReachableInv(s: Live)
    requires Reachable(s)
    ensures Inv(s)
  {
    var s0: Live := System(s.periodSeconds, [], {}, map[]);
    var es :| Run(s0, es, s);
    RunKeepsInv(s0, es, s);
  }

  // ---- Results ----

  predicate Succeeded(s: Live, r: RequestId) {
    r in s.requests && s.requests[r].phase.Replied? && s.requests[r].phase.reply.Registered?
  }

  /** Whatever the interleaving, all successful replies for a key carry the same event and period. */
  lemma SameReply(s: Live, r1: RequestId, r2: RequestId)
    requires Reachable(s) && Succeeded(s, r1) && Succeeded(s, r2)
    requires s.requests[r1].cmd.key == s.requests[r2].cmd.key
    ensures s.requests[r1].phase.reply.eventId == s.requests[r2].phase.reply.eventId
    ensures s.requests[r1].phase.reply.periodId == s.requests[r2].phase.reply.periodId
  {
    ReachableInv(s);
    assert Backed(s.rows, s.requests[r1]) && Backed(s.rows, s.requests[r2]);
  }

  // ---- Which reply is the first ----

  /** The request was told that its view is new. */
  predicate ToldNew(s: Live, r: RequestId) {
    Succeeded(s, r) && !s.requests[r].phase.reply.duplicate
  }

  /** Whoever was told so has inserted the row it was told of, and no two of the same row. */
  ghost predicate NewInv(s: Live) {
    && (forall r :: ToldNew(s, r) ==> exists i: nat :: i < |s.rows| && Author(s, i, r))
    && forall r, q :: ToldNew(s, r) && ToldNew(s, q) && r != q ==>
         s.requests[r].phase.reply.eventId != s.requests[q].phase.reply.eventId
  }

  lemma NewFrame(s: Live, t: Live)
    requires NewInv(s) && t.rows == s.rows
    requires forall r :: ToldNew(t, r) ==> ToldNew(s, r) && t.requests[r] == s.requests[r]
    ensures NewInv(t)
  {
    forall r | ToldNew(t, r) ensures exists i: nat :: i < |t.rows| && Author(t, i, r) {
      var i: nat :| i < |s.rows| && Author(s, i, r);
      assert Author(t, i, r);
    }
  }

  lemma InsertIsNew(s: Live, r: RequestId, id: EventId)
    requires NewInv(s) && Can(s, Create(r, id)) && !Has(s.rows, s.requests[r].cmd.key)
    ensures NewInv(After(s, Create(r, id)))
  {
    var t := After(s, Create(r, id));
    forall q | ToldNew(t, q)
      ensures exists i: nat :: i < |t.rows| && Author(t, i, q)
      ensures q != r ==> ToldNew(s, q) && t.requests[q] == s.requests[q] && t.requests[q].phase.reply.eventId != id
    {
      if q == r {
        assert Author(t, |s.rows|, q);
      } else {
        assert ToldNew(s, q);
        var i: nat :| i < |s.rows| && Author(s, i, q);
        assert Author(t, i, q);
      }
    }
  }

  lemma StepKeepsNew(s: Live, e: Step)
    requires NewInv(s) && Can(s, e)
    ensures NewInv(After(s, e))
  {
    if e.Create? && !Has(s.rows, s.requests[e.r].cmd.key) {
      InsertIsNew(s, e.r, e.id);
    } else {
      NewFrame(s, After(s, e));
    }
  }

  lemma {:induction false} RunKeepsNew(s: Live, es: seq<Step>, t: Live)
    requires NewInv(s) && Run(s, es, t)
    ensures NewInv(t)
    decreases es
  {
    hide NewInv, Can, After;
    if es != [] {
      StepKeepsNew(s, es[0]);
      RunKeepsNew(After(s, es[0]), es[1..], t);
    }
  }

  /** In every interleaving, when any request for a key has succeeded, exactly one of them was told
      `duplicate == false`, and it is the one whose insert wrote the row of the key. */
  lemma OneNewReply(s: Live, q: RequestId) returns (first: RequestId, i: nat)
    requires Reachable(s) && Succeeded(s, q)
    ensures i < |s.rows| && s.rows[i].key == s.requests[q].cmd.key && Author(s, i, first)
    ensures forall r :: Succeeded(s, r) && s.requests[r].cmd.key == s.requests[q].cmd.key ==>
              (!s.requests[r].phase.reply.duplicate <==> r == first)
  {
    ReachableInv(s);
    var s0: Live := System(s.periodSeconds, [], {}, map[]);
    var es :| Run(s0, es, s);
    RunKeepsNew(s0, es, s);
    var key := s.requests[q].cmd.key;
    assert Backed(s.rows, s.requests[q]);
    i :| 0 <= i < |s.rows| && s.rows[i].key == key;
    assert RowOk(s, i);
    first :| Author(s, i, first);
    forall r | Succeeded(s, r) && s.requests[r].cmd.key == key
      ensures !s.requests[r].phase.reply.duplicate <==> r == first
    {
      if ToldNew(s, r) {
        var k: nat :| k < |s.rows| && Author(s, k, r);
        assert k == i;
      }
    }
  }

  /** The steps that wrote rows: a request was told that its view is new exactly when one of its own inserts in
      the run succeeded, and then under the id of that insert; every other success is a replay. */
  lemma {:induction false} NewRepliesInserted(s: Live, es: seq<Step>, t: Live, r: RequestId)
    requires Run(s, es, t) && r !in s.requests && Succeeded(t, r)
    ensures !t.requests[r].phase.reply.duplicate <==> exists id :: Create(r, id) in es
    ensures !t.requests[r].phase.reply.duplicate ==> Create(r, t.requests[r].phase.reply.eventId) in es
  {
    InsertedFrom(s, es, t, r);
  }

  /** The same from any point of the request's life. */
  lemma {:induction false} InsertedFrom(s: Live, es: seq<Step>, t: Live, r: RequestId)
    requires Run(s, es, t) && Succeeded(t, r)
    ensures Succeeded(s, r) ==> t.requests[r] == s.requests[r] && forall id :: Create(r, id) !in es
    ensures !Succeeded(s, r) ==> (!t.requests[r].phase.reply.duplicate <==> exists id :: Create(r, id) in es)
    ensures !Succeeded(s, r) && !t.requests[r].phase.reply.duplicate ==> Create(r, t.requests[r].phase.reply.eventId) in es
    ensures r in s.requests && s.requests[r].phase.Replied? ==> Succeeded(s, r)
    decreases es
  {
    if es != [] {
      var m := After(s, es[0]);
      InsertedFrom(m, es[1..], t, r);
      StepOfRequest(s, es[0], r);
      hide Can, After, Succeeded;
      assert forall id :: Create(r, id) in es <==> Create(r, id) == es[0] || Create(r, id) in es[1..];
    }
  }

  /** What one step does to one request's outcome. */
  lemma StepOfRequest(s: Live, e: Step, r: RequestId)
    requires Can(s, e)
    ensures var t := After(s, e);
            && (r in s.requests && s.requests[r].phase.Replied? ==>
                  r in t.requests && t.requests[r] == s.requests[r] && !(e.Create? && e.r == r))
            && (!Succeeded(s, r) && Succeeded(t, r) ==>
                  if t.requests[r].phase.reply.duplicate then e == Lookup(r)
                  else e == Create(r, t.requests[r].phase.reply.eventId))
            && (e.Create? && e.r == r ==> r in t.requests && t.requests[r].phase.Replied?)
  {
  }

  /** A request that arrives after its asset exists is never told that the asset is missing. */
  lemma {:induction false} ExistingAssetFound(s: Live, es: seq<Step>, t: Live, r: RequestId)
    requires Run(s, es, t) && r in t.requests && t.requests[r].cmd.asset in s.assets
    requires r in s.requests ==> s.requests[r].phase != Replied(AssetNotFound)
    ensures t.requests[r].phase != Replied(AssetNotFound)
    decreases es
  {
    if es != [] {
      var m := After(s, es[0]);
      if r in m.requests { CommandStays(m, es[1..], t, r); }
      ExistingAssetFound(m, es[1..], t, r);
    }
  }

  lemma {:induction false} CommandStays(s: Live, es: seq<Step>, t: Live, r: RequestId)
    requires Run(s, es, t) && r in s.requests
    ensures r in t.requests && t.requests[r].cmd == s.requests[r].cmd
    decreases es
  {
    if es != [] { CommandStays(After(s, es[0]), es[1..], t, r); }
  }

  /** A request at its insert is refused exactly when some other request for its key has succeeded since it
      looked the key up; otherwise it gets the one row of the key. */
  lemma RefusedIff(s: Live, r: RequestId, id: EventId)
    requires Reachable(s) && Can(s, Create(r, id))
    ensures After(s, Create(r, id)).requests[r].phase == Replied(UniqueViolation)
       <==> exists q :: Succeeded(s, q) && s.requests[q].cmd.key == s.requests[r].cmd.key
  {
    ReachableInv(s);
    var key := s.requests[r].cmd.key;
    if Has(s.rows, key) {
      var i: nat :| i < |s.rows| && s.rows[i].key == key;
      assert RowOk(s, i);
      var q :| Author(s, i, q);
      assert Succeeded(s, q);
    }
    if q :| Succeeded(s, q) && s.requests[q].cmd.key == key {
      assert Backed(s.rows, s.requests[q]);
    }
  }

  /** Two requests for a new key, both past their lookup: the second insert is refused with an error, where
      the documentation promises that retries are replayed and not rejected. */
  lemma ConcurrentDuplicateFails(s: Live, r1: RequestId, r2: RequestId, id1: EventId, id2: EventId)
    requires r1 != r2 && Can(s, Create(r1, id1)) && Can(s, Create(r2, id2)) && id1 != id2
    requires s.requests[r1].cmd.key == s.requests[r2].cmd.key && !Has(s.rows, s.requests[r1].cmd.key)
    ensures Can(After(s, Create(r1, id1)), Create(r2, id2))
    ensures After(After(s, Create(r1, id1)), Create(r2, id2)).requests[r2].phase == Replied(UniqueViolation)
  {
    var t := After(s, Create(r1, id1));
    assert t.rows[|s.rows|].key == s.requests[r1].cmd.key;
    assert Has(t.rows, s.requests[r1].cmd.key);
  }

  const CMD := Command(7, 1, 0)

  /** Asset 1 exists, and two requests for the new key 7 are at these phases. */
  function Pair(x: Phase, y: Phase): Live {
    System(1, [], {1}, map[1 := Request(CMD, x), 2 := Request(CMD, y)])
  }

  const ONE: Live := System(1, [], {1}, map[])
  const WAITING: Live := System(1, [], {1}, map[1 := Request(CMD, LookingUp)])

  lemma RaceArrives()
    ensures Can(System(1, [], {}, map[]), AddAsset(1)) && After(System(1, [], {}, map[]), AddAsset(1)) == ONE
    ensures Can(ONE, Arrive(1, CMD)) && After(ONE, Arrive(1, CMD)) == WAITING
    ensures Can(WAITING, Arrive(2, CMD)) && After(WAITING, Arrive(2, CMD)) == Pair(LookingUp, LookingUp)
  {
  }

  lemma RaceLooksUp()
    ensures Can(Pair(LookingUp, LookingUp), Lookup(1)) && After(Pair(LookingUp, LookingUp), Lookup(1)) == Pair(CheckingAsset, LookingUp)
    ensures Can(Pair(CheckingAsset, LookingUp), Lookup(2))
    ensures After(Pair(CheckingAsset, LookingUp), Lookup(2)) == Pair(CheckingAsset, CheckingAsset)
  {
  }

  lemma RaceChecks()
    ensures Can(Pair(CheckingAsset, CheckingAsset), RequireExists(1))
    ensures After(Pair(CheckingAsset, CheckingAsset), RequireExists(1)) == Pair(Inserting, CheckingAsset)
    ensures Can(Pair(Inserting, CheckingAsset), RequireExists(2))
    ensures After(Pair(Inserting, CheckingAsset), RequireExists(2)) == Pair(Inserting, Inserting)
  {
  }

  lemma RaceCanInsert()
    ensures Can(Pair(Inserting, Inserting), Create(1, 10)) && Can(Pair(Inserting, Inserting), Create(2, 20))
    ensures !Has(Pair(Inserting, Inserting).rows, 7)
  {
  }

  /** The race happens: a run brings two requests for a new key past their lookups, and then one of them is
      refused. */
  lemma RaceHappens()
    ensures Reachable(Pair(Inserting, Inserting))
    ensures Can(Pair(Inserting, Inserting), Create(1, 10))
    ensures Can(After(Pair(Inserting, Inserting), Create(1, 10)), Create(2, 20))
    ensures After(After(Pair(Inserting, Inserting), Create(1, 10)), Create(2, 20)).requests[2].phase == Replied(UniqueViolation)
  {
    var t4 := Pair(Inserting, Inserting);
    RaceCanInsert();
    ConcurrentDuplicateFails(t4, 1, 2, 10, 20);
    hide Can, After;
    RaceArrives();
    RaceLooksUp();
    RaceChecks();
    Steps(Pair(Inserting, CheckingAsset), RequireExists(2), t4, [], t4);
    Steps(Pair(CheckingAsset, CheckingAsset), RequireExists(1), Pair(Inserting, CheckingAsset), [RequireExists(2)], t4);
    var es := [RequireExists(1)] + [RequireExists(2)];
    Steps(Pair(CheckingAsset, LookingUp), Lookup(2), Pair(CheckingAsset, CheckingAsset), es, t4);
    Steps(Pair(LookingUp, LookingUp), Lookup(1), Pair(CheckingAsset, LookingUp), [Lookup(2)] + es, t4);
    var fs := [Lookup(1)] + ([Lookup(2)] + es);
    Steps(WAITING, Arrive(2, CMD), Pair(LookingUp, LookingUp), fs, t4);
    Steps(ONE, Arrive(1, CMD), WAITING, [Arrive(2, CMD)] + fs, t4);
    Steps(System(1, [], {}, map[]), AddAsset(1), ONE, [Arrive(1, CMD)] + ([Arrive(2, CMD)] + fs), t4);
  }

  lemma Steps(s: Live, e: Step, m: Live, es: seq<Step>, t: Live)
    requires Can(s, e) && After(s, e) == m && Run(m, es, t)
    ensures Run(s, [e] + es, t)
  {
    hide Can, After;
    assert ([e] + es)[1..] == es;
  }

  // ---- Aggregates ----

  function ViewsOf(rows: seq<Row>): seq<P.View> {
    if rows == [] then []
    else
      var x := rows[|rows| - 1];
      ViewsOf(rows[..|rows| - 1]) + [P.View(x.key, x.asset, x.period, false)]
  }

  /** `aggregatesForPeriod` as a map: the count of each registered asset. */
  function Aggregates(s: Live, p: Period): map<Id, nat> {
    map a | a in s.assets :: P.ViewCount(ViewsOf(s.rows), p, a)
  }

  /** The keys some request was told are registered in p. */
  function AcceptedKeys(s: Live, p: Period): set<Key> {
    set r | r in s.requests && Succeeded(s, r) && s.requests[r].phase.reply.periodId == p :: s.requests[r].cmd.key
  }

  function KeysIn(rows: seq<Row>, p: Period): set<Key> {
    set i: nat | i < |rows| && rows[i].period == p :: rows[i].key
  }

  function AggregatesOf(rows: seq<Row>, assets: set<Id>, p: Period): map<Id, nat> {
    map a | a in assets :: P.ViewCount(ViewsOf(rows), p, a)
  }

  lemma {:induction false} AggregatesCountKeys(rows: seq<Row>, assets: set<Id>, p: Period)
    requires KeysUnique(rows) && forall i :: 0 <= i < |rows| ==> rows[i].asset in assets
    ensures MapSum(AggregatesOf(rows, assets, p)) == |KeysIn(rows, p)|
  {
    var m := AggregatesOf(rows, assets, p);
    if rows == [] {
      MapSumAllZero(m);
      assert KeysIn(rows, p) == {};
    } else {
      var n := |rows| - 1;
      var front, x := rows[..n], rows[n];
      AggregatesCountKeys(front, assets, p);
      var m0 := AggregatesOf(front, assets, p);
      assert ViewsOf(rows)[..|ViewsOf(rows)| - 1] == ViewsOf(front);
      if x.period == p {
        MapSumChange(m0, m, x.asset);
        assert KeysIn(rows, p) == KeysIn(front, p) + {x.key} by { KeysSnoc(rows, p); }
        assert x.key !in KeysIn(front, p);
      } else {
        MapSumSame(m0, m);
        KeysSnoc(rows, p);
      }
    }
  }

  lemma KeysSnoc(rows: seq<Row>, p: Period)
    requires rows != []
    ensures KeysIn(rows, p)
         == KeysIn(rows[..|rows| - 1], p) + if rows[|rows| - 1].period == p then {rows[|rows| - 1].key} else {}
  {
    var n := |rows| - 1;
    forall k | k in KeysIn(rows, p)
      ensures k in KeysIn(rows[..n], p) + if rows[n].period == p then {rows[n].key} else {}
    {
      var i: nat :| i < |rows| && rows[i].period == p && rows[i].key == k;
      if i < n { assert rows[..n][i].key == k; }
    }
    forall k | k in KeysIn(rows[..n], p) ensures k in KeysIn(rows, p) {
      var i: nat :| i < n && rows[..n][i].period == p && rows[..n][i].key == k;
      assert rows[i].key == k;
    }
  }

  /** Idempotent registration, counted: the views that will be published for p are as many as the distinct
      keys that requests were told are registered in p - none is lost and no retry counts again. */
  lemma AcceptedOnce(s: Live, p: Period)
    requires Reachable(s)
    ensures MapSum(Aggregates(s, p)) == |AcceptedKeys(s, p)|
  {
    ReachableInv(s);
    forall i | 0 <= i < |s.rows| ensures s.rows[i].asset in s.assets {
      assert RowOk(s, i);
    }
    AggregatesCountKeys(s.rows, s.assets, p);
    assert Aggregates(s, p) == AggregatesOf(s.rows, s.assets, p);
    forall k | k in AcceptedKeys(s, p) ensures k in KeysIn(s.rows, p) {
      var r :| r in s.requests && Succeeded(s, r) && s.requests[r].phase.reply.periodId == p && s.requests[r].cmd.key == k;
      assert Backed(s.rows, s.requests[r]);
    }
    forall k | k in KeysIn(s.rows, p) ensures k in AcceptedKeys(s, p) {
      var i: nat :| i < |s.rows| && s.rows[i].period == p && s.rows[i].key == k;
      assert RowOk(s, i);
      var r :| Author(s, i, r);
      assert Succeeded(s, r);
    }
    assert AcceptedKeys(s, p) == KeysIn(s.rows, p);
  }

  // ---- The service ----

  /** One whole request with nothing in between: the rows afterwards and the reply. */
  function Serve(rows: seq<Row>, assets: set<Id>, periodSeconds: nat, cmd: Command, id: EventId): (seq<Row>, Reply)
    requires periodSeconds > 0
  {
    var i := Find(rows, cmd.key);
    if i < |rows| then (rows, Registered(rows[i].id, rows[i].period, true))
    else if cmd.asset !in assets then (rows, AssetNotFound)
    else
      var period := Periods.PeriodIdOf(cmd.occurredAt, periodSeconds);
      (rows + [Row(id, cmd.key, cmd.asset, cmd.occurredAt, period)], Registered(id, period, false))
  }

  /** What a request gets: a known key its stored row and nothing written, an unknown asset a refusal, and
      everything else one new row whose period is the stretch of time that holds its instant. */
  lemma ServeMeaning(rows: seq<Row>, assets: set<Id>, periodSeconds: nat, cmd: Command, id: EventId)
    requires periodSeconds > 0
    ensures var (after, reply) := Serve(rows, assets, periodSeconds, cmd, id);
            && (reply.Registered? <==> Has(rows, cmd.key) || cmd.asset in assets)
            && (!reply.Registered? ==> reply == AssetNotFound && after == rows)
            && (reply.Registered? ==> (reply.duplicate <==> Has(rows, cmd.key)))
            && (reply.Registered? && reply.duplicate ==>
                  after == rows && exists i :: 0 <= i < |rows| && IsRowOf(rows[i], cmd.key, reply.eventId, reply.periodId))
            && (reply.Registered? && !reply.duplicate ==>
                  && after == rows + [Row(id, cmd.key, cmd.asset, cmd.occurredAt, reply.periodId)] && reply.eventId == id
                  && Periods.IsPeriod(reply.periodId, periodSeconds)
                  && 1000 * reply.periodId <= cmd.occurredAt < 1000 * (reply.periodId + periodSeconds))
  {
    var i := Find(rows, cmd.key);
    if i < |rows| {
      assert IsRowOf(rows[i], cmd.key, rows[i].id, rows[i].period);
    }
    var p := Periods.PeriodIdOf(cmd.occurredAt, periodSeconds);
    Periods.Buckets(cmd.occurredAt, periodSeconds, p);
    hide Periods.PeriodIdOf, Periods.IsPeriod;
  }

  predicate IsRowOf(row: Row, key: Key, id: EventId, period: Period) {
    row.key == key && row.id == id && row.period == period
  }

  /** Served without interference a request is never refused: its steps in a row do what `Serve` says. */
  lemma ServedAlone(s: Live, r: RequestId, id: EventId) returns (es: seq<Step>, t: Live)
    requires Can(s, Lookup(r)) && forall i :: 0 <= i < |s.rows| ==> s.rows[i].id != id
    ensures Run(s, es, t)
    ensures r in t.requests
    ensures (t.rows, t.requests[r].phase)
         == (Serve(s.rows, s.assets, s.periodSeconds, s.requests[r].cmd, id).0,
             Replied(Serve(s.rows, s.assets, s.periodSeconds, s.requests[r].cmd, id).1))
  {
    var cmd := s.requests[r].cmd;
    var s1 := After(s, Lookup(r));
    if Find(s.rows, cmd.key) < |s.rows| {
      es, t := [Lookup(r)], s1;
    } else {
      var s2 := After(s1, RequireExists(r));
      if cmd.asset !in s.assets {
        es, t := [Lookup(r), RequireExists(r)], s2;
        assert es[1..] == [RequireExists(r)] && es[1..][1..] == [];
        assert Run(s1, es[1..], t);
      } else {
        t := After(s2, Create(r, id));
        assert !Has(s.rows, cmd.key);
        es := [Lookup(r), RequireExists(r), Create(r, id)];
        assert es[1..] == [RequireExists(r), Create(r, id)] && es[1..][1..] == [Create(r, id)] && [Create(r, id)][1..] == [];
        assert Run(s2, [Create(r, id)], t);
        assert Run(s1, es[1..], t);
      }
    }
  }

  lemma {:induction false} FoundAt(rows: seq<Row>, key: Key, i: nat)
    requires i <= |rows| && forall j :: 0 <= j < i ==> rows[j].key != key
    requires i < |rows| ==> rows[i].key == key
    ensures Find(rows, key) == i
  {
    if rows != [] && i > 0 { FoundAt(rows[1..], key, i - 1); }
  }

  class ViewService {
    const periodSeconds: nat
    var rows: seq<Row>
    var assets: set<Id>

    predicate Valid()
      reads this
    {
      periodSeconds > 0 && KeysUnique(rows)
    }

    /** `register`, one call at a time; `id` is the fresh random id. */
    method Register(cmd: Command, id: EventId) returns (reply: Reply)
      requires Valid() && forall i :: 0 <= i < |rows| ==> rows[i].id != id
      modifies this`rows
      ensures Valid()
      ensures (rows, reply) == Serve(old(rows), assets, periodSeconds, cmd, id)
      ensures reply.Registered? <==> Has(old(rows), cmd.key) || cmd.asset in assets
      ensures reply.Registered? ==> (reply.duplicate <==> Has(old(rows), cmd.key))
    {
      var i := 0;
      while i < |rows| && rows[i].key != cmd.key
        invariant 0 <= i <= |rows|
        invariant forall j :: 0 <= j < i ==> rows[j].key != cmd.key
      {
        i := i + 1;
      }
      FoundAt(rows, cmd.key, i);
      ServeMeaning(rows, assets, periodSeconds, cmd, id);
      if i < |rows| {
        return Registered(rows[i].id, rows[i].period, true);
      }
      if cmd.asset !in assets {
        return AssetNotFound;
      }
      var period := Periods.PeriodIdOf(cmd.occurredAt, periodSeconds);
      rows := rows + [Row(id, cmd.key, cmd.asset, cmd.occurredAt, period)];
      return Registered(id, period, false);
    }
  }
}
