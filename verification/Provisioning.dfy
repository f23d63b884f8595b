/** Self-service provisioning: credentials, machines and the endpoints that move a credential through set-up and
    tear-down. Every endpoint is one committed step on the two tables. */
module Provisioning {
  import opened Market

  datatype Status =
    NotRequested | Pending | InProgress | Active | Failed | Decommissioning | Removing | Removed | DecommissionFailed

  datatype Row = Row(user: nat, isActive: bool, status: Status, machine: Option<nat>, accountLabel: Option<nat>,
                     url: Option<string>, error: Option<string>, step: Option<string>)

  datatype Machine = Machine(maxAccounts: int, isActive: bool)

  datatype Db = Db(rows: map<nat, Row>, machines: map<nat, Machine>)

  datatype Request =
    | Register(machine: nat, maxAccounts: int)
    | SwitchMachine(machine: nat, on: bool)
    | Create(user: nat, id: nat)
    | Patch(user: nat, id: nat, flag: Option<bool>)
    | Retry(user: nat, id: nat)
    | Remove(user: nat, id: nat)
    | Claim(machine: nat)
    | Step(machine: nat, id: nat, name: string)
    | Complete(machine: nat, id: nat, url: string)
    | Fail(machine: nat, id: nat, error: string)
    | ClaimRemoval(machine: nat)
    | RemovalStep(machine: nat, id: nat, name: string)
    | CompleteRemoval(machine: nat, id: nat)
    | FailRemoval(machine: nat, id: nat, error: string)

  datatype Reply =
    | Done
    | Job(id: nat, accountLabel: Option<nat>)
    | AtCapacity
    | NonePending
    | BadRequest
    | Unauthorized
    | NotFound
    | Conflict
    | DuplicateKey

  /** A label is the first eight hexadecimal digits of the 128-bit credential id. */
  function LabelOf(id: nat): nat {
    id / 0x1_00000000_00000000_00000000
  }

  const STEPS: set<string> :=
    {"cleaning_up", "copying_terminal", "launching_and_logging_in", "verifying_login", "configuring_worker",
     "installing_service", "opening_firewall", "waiting_for_health", "tearing_down"}

  // ---------- queries ----------

  function Occupied(db: Db, m: nat): set<nat> {
    set c | c in db.rows && db.rows[c].machine == Some(m)
      && (db.rows[c].status.InProgress? || db.rows[c].status.Active?)
  }

  function WithStatus(db: Db, st: Status): set<nat> {
    set c | c in db.rows && db.rows[c].status == st
  }

  /** The least id, which is what ordering by credential id puts first. */
  ghost function Least(s: set<nat>): (x: nat)
    requires s != {}
    ensures x in s && forall y :: y in s ==> x <= y
  {
    var x :| x in s;
    if s == {x} then x
    else
      var rest := s - {x};
      assert s == rest + {x};
      var y := Least(rest);
      if x < y then x else y
  }

  predicate AnyMachineOn(db: Db) {
    exists m :: m in db.machines && db.machines[m].isActive
  }

  predicate MachineOn(db: Db, m: nat) {
    m in db.machines && db.machines[m].isActive
  }

  predicate Owns(db: Db, user: nat, id: nat) {
    id in db.rows && db.rows[id].user == user
  }

  predicate HeldBy(db: Db, m: nat, id: nat, st: Status) {
    id in db.rows && db.rows[id].machine == Some(m) && db.rows[id].status == st
  }

  // ---------- what a request does ----------

  function Put(db: Db, id: nat, row: Row): Db {
    db.(rows := db.rows[id := row])
  }

  /** The user's other active credentials are switched off. */
  function SwitchOthersOff(db: Db, user: nat, id: nat): Db {
    db.(rows := map c | c in db.rows ::
          if db.rows[c].user == user && c != id && db.rows[c].isActive then db.rows[c].(isActive := false)
            else db.rows[c])
  }

  /** The first pending job, handed to the machine. */
  ghost function Take(db: Db, m: nat): (Db, Reply) {
    var pending := WithStatus(db, Pending);
    if pending == {} then (db, NonePending)
    else
      var c := Least(pending);
      var row := db.rows[c];
      var named := if row.accountLabel.None? then Some(LabelOf(c)) else row.accountLabel;
      (Put(db, c, row.(status := InProgress, machine := Some(m), accountLabel := named)), Job(c, named))
  }

  ghost function TakeRemoval(db: Db, m: nat): (Db, Reply) {
    var queued := WithStatus(db, Decommissioning);
    if queued == {} then (db, NonePending)
    else
      var c := Least(queued);
      (Put(db, c, db.rows[c].(status := Removing, machine := Some(m))), Job(c, db.rows[c].accountLabel))
  }

  /** A report on a job, accepted only from the machine that holds it in state `st`. */
  function Report(db: Db, m: nat, id: nat, st: Status, change: Row -> Row): (Db, Reply) {
    if !MachineOn(db, m) then (db, Unauthorized)
    else if id !in db.rows then (db, NotFound)
    else if !HeldBy(db, m, id, st) then (db, Conflict)
    else (Put(db, id, change(db.rows[id])), Done)
  }

  function Removal(db: Db, id: nat): (Db, Reply)
    requires id in db.rows
  {
    var row := db.rows[id];
    if row.status in {InProgress, Decommissioning, Removing} then (db, Conflict)
    else if row.accountLabel.None? then (Put(db, id, row.(isActive := false, status := Removed)), Done)
    else if !AnyMachineOn(db) then (db, Conflict)
    else (Put(db, id, row.(isActive := false, status := Decommissioning)), Done)
  }

  ghost function Apply(db: Db, req: Request): (Db, Reply) {
    match req
    case Register(m, max) =>
      if m in db.machines then (db, DuplicateKey) else (db.(machines := db.machines[m := Machine(max, true)]), Done)
    case SwitchMachine(m, on) =>
      if m !in db.machines then (db, NotFound)
      else (db.(machines := db.machines[m := db.machines[m].(isActive := on)]), Done)
    case Create(u, c) =>
      if c in db.rows then (db, DuplicateKey)
      else
        var st := if AnyMachineOn(db) then Pending else NotRequested;
        (Put(SwitchOthersOff(db, u, c), c, Row(u, true, st, None, None, None, None, None)), Done)
    case Patch(u, c, flag) =>
      if !Owns(db, u, c) then (db, NotFound)
      else if flag.None? then (db, BadRequest)
      else
        var db1 := if flag.value then SwitchOthersOff(db, u, c) else db;
        (Put(db1, c, db.rows[c].(isActive := flag.value)), Done)
    case Retry(u, c) =>
      if !Owns(db, u, c) then (db, NotFound)
      else if db.rows[c].status != Failed then (db, Conflict)
      else (Put(db, c, db.rows[c].(status := Pending, error := None, step := None, machine := None)), Done)
    case Remove(u, c) => if !Owns(db, u, c) then (db, NotFound) else Removal(db, c)
    case Claim(m) =>
      if !MachineOn(db, m) then (db, Unauthorized)
      else if |Occupied(db, m)| >= db.machines[m].maxAccounts then (db, AtCapacity)
      else Take(db, m)
    case Step(m, c, name) =>
      if MachineOn(db, m) && name !in STEPS then (db, BadRequest)
      else Report(db, m, c, InProgress, (r: Row) => r.(step := Some(name)))
    case Complete(m, c, url) =>
      Report(db, m, c, InProgress, (r: Row) => r.(status := Active, url := Some(url), error := None))
    case Fail(m, c, e) =>
      Report(db, m, c, InProgress, (r: Row) => r.(status := Failed, error := Some(e)))
    case ClaimRemoval(m) => if !MachineOn(db, m) then (db, Unauthorized) else TakeRemoval(db, m)
    case RemovalStep(m, c, name) =>
      if MachineOn(db, m) && name !in STEPS then (db, BadRequest)
      else Report(db, m, c, Removing, (r: Row) => r.(step := Some(name)))
    case CompleteRemoval(m, c) =>
      Report(db, m, c, Removing,
        (r: Row) => r.(status := Removed, step := None, machine := None, error := None, url := None))
    case FailRemoval(m, c, e) =>
      Report(db, m, c, Removing, (r: Row) => r.(status := DecommissionFailed, error := Some(e)))
  }

  // ---------- how one request moves one row ----------

  /** The edges of the state machine, each with the only requests that take it. */
  predicate Edge(db: Db, req: Request, c: nat, old': Row, new': Row) {
    if old'.status == new'.status then old'.machine == new'.machine
    else match (old'.status, new'.status)
      case (Pending, InProgress) => req.Claim? && new'.machine == Some(req.machine)
      case (InProgress, Active) => req.Complete? && req.id == c && old'.machine == new'.machine == Some(req.machine)
      case (InProgress, Failed) => req.Fail? && req.id == c && old'.machine == new'.machine == Some(req.machine)
      case (Failed, Pending) => req == Retry(old'.user, c)
      case (Decommissioning, Removing) => req.ClaimRemoval? && new'.machine == Some(req.machine)
      case (Removing, Removed) => req.CompleteRemoval? && req.id == c && old'.machine == Some(req.machine)
      case (Removing, DecommissionFailed) => req.FailRemoval? && req.id == c && old'.machine == Some(req.machine)
      case (_, Removed) => req == Remove(old'.user, c) && old'.accountLabel.None? && !old'.status.InProgress?
        && !old'.status.Decommissioning?
      case (_, Decommissioning) => req == Remove(old'.user, c) && old'.accountLabel.Some? && !old'.status.InProgress?
        && !old'.status.Removing?
      case _ => false
  }

  ghost predicate Moves(db: Db, req: Request, c: nat)
    requires c in db.rows
  {
    var db' := Apply(db, req).0;
    && c in db'.rows && db'.rows[c].user == db.rows[c].user
    && (db.rows[c].accountLabel.Some? ==> db'.rows[c].accountLabel == db.rows[c].accountLabel)
    && Edge(db, req, c, db.rows[c], db'.rows[c])
  }

  predicate FromOwner(req: Request) {
    req.Register? || req.SwitchMachine? || req.Create? || req.Patch? || req.Retry? || req.Remove?
  }

  lemma OwnerMoves(db: Db, req: Request, c: nat)
    requires c in db.rows && FromOwner(req)
    ensures Moves(db, req, c)
  {
  }

  predicate IsClaim(req: Request) {
    req.Claim? || req.ClaimRemoval?
  }

  lemma ClaimMoves(db: Db, req: Request, c: nat)
    requires c in db.rows && IsClaim(req)
    ensures Moves(db, req, c)
  {
    hide LabelOf;
  }

  lemma ReportMoves(db: Db, req: Request, c: nat)
    requires c in db.rows && !FromOwner(req) && !IsClaim(req)
    ensures Moves(db, req, c)
  {
    hide LabelOf;
  }

  /** Rows never disappear or change hands, labels never change once set, and every change of state is one of the edges:
      in particular a claimed job leaves its claimed state only through a report from the machine that claimed it. */
  lemma RowMoves(db: Db, req: Request, c: nat)
    requires c in db.rows
    ensures Moves(db, req, c)
  {
    if FromOwner(req) { OwnerMoves(db, req, c); }
    else if IsClaim(req) { ClaimMoves(db, req, c); }
    else { ReportMoves(db, req, c); }
  }

  /** A new row starts unclaimed. */
  lemma NewRow(db: Db, req: Request, c: nat)
    requires c !in db.rows && c in Apply(db, req).0.rows
    ensures req.Create? && req.id == c
    ensures var row := Apply(db, req).0.rows[c];
            row.user == req.user && row.status in {Pending, NotRequested} && row.machine.None?
              && row.accountLabel.None? && row.url.None?
  {
  }

  // ---------- invariants of every run ----------

  ghost predicate WithinCapacity(db: Db) {
    forall m :: m in db.machines ==> |Occupied(db, m)| <= Max(0, db.machines[m].maxAccounts)
  }

  predicate IsActiveFor(db: Db, c: nat, user: nat) {
    c in db.rows && db.rows[c].isActive && db.rows[c].user == user
  }

  ghost predicate OneActive(db: Db) {
    forall u, c, c' :: IsActiveFor(db, c, u) && IsActiveFor(db, c', u) ==> c == c'
  }

  /** A row that a machine has ever touched carries its label and, unless the machine has let go, the machine; a row
      without a label has never been handed out; only a set-up account has a bridge address. */
  predicate RowFits(machines: set<nat>, c: nat, row: Row) {
    && (row.accountLabel.Some? ==> row.accountLabel.value == LabelOf(c))
    && (row.status !in {NotRequested, Pending, Removed} ==> row.accountLabel.Some?)
    && (row.accountLabel.None? ==> row.machine.None?)
    && (row.status in {InProgress, Active, Failed, Removing, DecommissionFailed} ==> row.machine.Some?)
    && (row.machine.Some? ==> row.machine.value in machines)
    && (row.url.Some? ==> row.status in {Active, Decommissioning, Removing, DecommissionFailed})
    && (row.status.Active? ==> row.url.Some?)
  }

  ghost predicate RowsFit(db: Db) {
    forall c :: c in db.rows ==> RowFits(db.machines.Keys, c, db.rows[c])
  }

  ghost predicate Inv(db: Db) {
    WithinCapacity(db) && OneActive(db) && RowsFit(db)
  }

  lemma SmallerSet(a: set<nat>, b: set<nat>)
    requires a <= b
    ensures |a| <= |b|
  {
    assert b == a + (b - a);
  }

  lemma MachinesStay(db: Db, req: Request, m: nat)
    requires m in Apply(db, req).0.machines
    ensures m in db.machines ==> Apply(db, req).0.machines[m].maxAccounts == db.machines[m].maxAccounts
    ensures m !in db.machines ==> req.Register? && req.machine == m
  {
  }

  /** A request other than an accepted claim by m adds nothing to what m holds. */
  lemma OccupiedShrinks(db: Db, req: Request, m: nat)
    requires !(req == Claim(m) && Apply(db, req).1.Job?)
    ensures Occupied(Apply(db, req).0, m) <= Occupied(db, m)
  {
    hide Apply, Occupied;
    var db' := Apply(db, req).0;
    forall c | c in Occupied(db', m) ensures c in Occupied(db, m) {
      InOccupied(db', m, c);
      InOccupied(db, m, c);
      if c in db.rows {
        RowMoves(db, req, c);
        if db.rows[c].status.Pending? && db'.rows[c].status.InProgress? { ClaimedIsJob(db, req, c); }
      } else {
        NewRow(db, req, c);
      }
    }
  }

  lemma InOccupied(db: Db, m: nat, c: nat)
    ensures c in Occupied(db, m) <==>
            c in db.rows && db.rows[c].machine == Some(m) && db.rows[c].status in {InProgress, Active}
  {
  }

  lemma ClaimedIsJob(db: Db, req: Request, c: nat)
    requires req.Claim? && c in db.rows && db.rows[c].status.Pending?
    requires c in Apply(db, req).0.rows && Apply(db, req).0.rows[c].status.InProgress?
    ensures Apply(db, req).1.Job? && Apply(db, req).1.id == c
  {
    hide LabelOf;
  }

  lemma ClaimAddsOne(db: Db, m: nat)
    requires Apply(db, Claim(m)).1.Job?
    ensures MachineOn(db, m) && |Occupied(db, m)| < db.machines[m].maxAccounts
    ensures exists c :: Occupied(Apply(db, Claim(m)).0, m) == Occupied(db, m) + {c}
  {
    hide LabelOf;
    var c := Least(WithStatus(db, Pending));
    assert Occupied(Apply(db, Claim(m)).0, m) == Occupied(db, m) + {c};
  }

  lemma CapacityKept(db: Db, req: Request)
    requires WithinCapacity(db) && RowsFit(db)
    ensures WithinCapacity(Apply(db, req).0)
  {
    hide Apply, Occupied, RowFits;
    var db' := Apply(db, req).0;
    forall m | m in db'.machines ensures |Occupied(db', m)| <= Max(0, db'.machines[m].maxAccounts) {
      MachinesStay(db, req, m);
      if req == Claim(m) && Apply(db, req).1.Job? {
        ClaimAddsOne(db, m);
        var c :| Occupied(db', m) == Occupied(db, m) + {c};
        if c in Occupied(db, m) { assert Occupied(db', m) == Occupied(db, m); }
      } else {
        OccupiedShrinks(db, req, m);
        SmallerSet(Occupied(db', m), Occupied(db, m));
        if m !in db.machines { UnknownHoldsNothing(db, m); }
      }
    }
  }

  lemma UnknownHoldsNothing(db: Db, m: nat)
    requires RowsFit(db) && m !in db.machines
    ensures Occupied(db, m) == {}
  {
    forall c | c in db.rows ensures c !in Occupied(db, m) {
      assert RowFits(db.machines.Keys, c, db.rows[c]);
    }
  }

  /** A credential becomes active only through a request of its owner that switches the owner's others off. */
  lemma ActiveRises(db: Db, req: Request, c: nat, u: nat)
    requires IsActiveFor(Apply(db, req).0, c, u)
    ensures IsActiveFor(db, c, u) || SwitchesTo(db, req, c, u)
  {
    hide LabelOf;
  }

  ghost predicate SwitchesTo(db: Db, req: Request, c: nat, u: nat) {
    (req.Create? || req.Patch?) && req.id == c && req.user == u
      && forall c' :: IsActiveFor(Apply(db, req).0, c', u) ==> c' == c
  }

  lemma OneActiveKept(db: Db, req: Request)
    requires OneActive(db)
    ensures OneActive(Apply(db, req).0)
  {
    hide Apply, IsActiveFor;
    var db' := Apply(db, req).0;
    forall u, c, c' | IsActiveFor(db', c, u) && IsActiveFor(db', c', u) ensures c == c' {
      ActiveRises(db, req, c, u);
      ActiveRises(db, req, c', u);
    }
  }

  lemma OwnerRowsFit(db: Db, req: Request, c: nat)
    requires RowsFit(db) && FromOwner(req) && c in Apply(db, req).0.rows
    ensures RowFits(Apply(db, req).0.machines.Keys, c, Apply(db, req).0.rows[c])
  {
    hide LabelOf;
    if c in db.rows { assert RowFits(db.machines.Keys, c, db.rows[c]); }
  }

  lemma MachineRowsFit(db: Db, req: Request, c: nat)
    requires RowsFit(db) && !FromOwner(req) && c in Apply(db, req).0.rows
    ensures RowFits(Apply(db, req).0.machines.Keys, c, Apply(db, req).0.rows[c])
  {
    hide LabelOf;
    assert RowFits(db.machines.Keys, c, db.rows[c]);
  }

  lemma RowsFitKept(db: Db, req: Request)
    requires RowsFit(db)
    ensures RowsFit(Apply(db, req).0)
  {
    hide Apply, RowFits;
    forall c | c in Apply(db, req).0.rows ensures RowFits(Apply(db, req).0.machines.Keys, c, Apply(db, req).0.rows[c]) {
      if FromOwner(req) { OwnerRowsFit(db, req, c); } else { MachineRowsFit(db, req, c); }
    }
  }

  lemma InvKept(db: Db, req: Request)
    requires Inv(db)
    ensures Inv(Apply(db, req).0)
  {
    hide Apply, WithinCapacity, OneActive, RowsFit;
    CapacityKept(db, req);
    OneActiveKept(db, req);
    RowsFitKept(db, req);
  }

  // ---------- runs ----------

  const EMPTY: Db := Db(map[], map[])

  /** The tables after a run that starts from empty ones. */
  ghost function After(reqs: seq<Request>): Db {
    if reqs == [] then EMPTY else Apply(After(reqs[..|reqs| - 1]), reqs[|reqs| - 1]).0
  }

  ghost function ReplyTo(reqs: seq<Request>, k: nat): Reply
    requires k < |reqs|
  {
    Apply(After(reqs[..k]), reqs[k]).1
  }

  /** Every run keeps every machine within its capacity, every user at one active credential and every row in order. */
  lemma {:induction false} RunKeeps(reqs: seq<Request>)
    ensures Inv(After(reqs))
  {
    hide Apply, Inv;
    if reqs == [] {
      EmptyFits();
    } else {
      RunKeeps(reqs[..|reqs| - 1]);
      InvKept(After(reqs[..|reqs| - 1]), reqs[|reqs| - 1]);
    }
  }

  lemma EmptyFits()
    ensures Inv(EMPTY)
  {
  }

  /** Request k of the run hands credential c to machine m for set-up. */
  ghost predicate Granted(reqs: seq<Request>, k: nat, m: nat, c: nat) {
    k < |reqs| && reqs[k] == Claim(m) && ReplyTo(reqs, k).Job? && ReplyTo(reqs, k).id == c
  }

  ghost predicate Reported(reqs: seq<Request>, k: nat, m: nat, c: nat) {
    k < |reqs| && reqs[k].Fail? && reqs[k].machine == m && reqs[k].id == c && ReplyTo(reqs, k).Done?
  }

  ghost predicate Retried(reqs: seq<Request>, k: nat, c: nat) {
    k < |reqs| && reqs[k].Retry? && reqs[k].id == c && ReplyTo(reqs, k).Done?
  }

  ghost predicate FailedSince(reqs: seq<Request>, i: nat, n: nat, m: nat, c: nat) {
    exists k :: i < k < n && Reported(reqs, k, m, c)
  }

  ghost predicate RetriedSince(reqs: seq<Request>, i: nat, n: nat, m: nat, c: nat) {
    exists k, l :: i < k < l < n && Reported(reqs, k, m, c) && Retried(reqs, l, c)
  }

  /** Where the row of a credential granted at step i can be at step n. */
  ghost predicate Since(reqs: seq<Request>, i: nat, n: nat, m: nat, c: nat)
    requires n <= |reqs|
  {
    var db := After(reqs[..n]);
    && c in db.rows && db.rows[c].accountLabel.Some?
    && (|| RetriedSince(reqs, i, n, m, c)
        || HeldBy(db, m, c, InProgress)
        || (db.rows[c].status.Failed? && FailedSince(reqs, i, n, m, c))
        || db.rows[c].status in {Active, Decommissioning, Removing, Removed, DecommissionFailed})
  }

  lemma StepAfter(reqs: seq<Request>, n: nat)
    requires n < |reqs|
    ensures After(reqs[..n + 1]) == Apply(After(reqs[..n]), reqs[n]).0
  {
    assert reqs[..n + 1][..n] == reqs[..n];
  }

  lemma GrantTakes(db: Db, m: nat)
    requires Apply(db, Claim(m)).1.Job?
    ensures var (db', r) := Apply(db, Claim(m));
            && r.id in db.rows && db.rows[r.id].status.Pending?
            && HeldBy(db', m, r.id, InProgress) && db'.rows[r.id].accountLabel.Some?
  {
    hide LabelOf;
  }

  /** Only an accepted report or retry takes the edges out of InProgress and Failed. */
  lemma EdgeAccepted(db: Db, req: Request, c: nat)
    requires c in db.rows && c in Apply(db, req).0.rows && db.rows[c].status != Apply(db, req).0.rows[c].status
    ensures req.Fail? || req.Retry? ==> Apply(db, req).1.Done?
  {
  }

  lemma {:induction false} SinceGrant(reqs: seq<Request>, i: nat, n: nat, m: nat, c: nat)
    requires Granted(reqs, i, m, c) && i < n <= |reqs|
    ensures Since(reqs, i, n, m, c)
  {
    hide Apply, After, LabelOf;
    StepAfter(reqs, n - 1);
    if n == i + 1 {
      GrantTakes(After(reqs[..i]), m);
    } else {
      SinceGrant(reqs, i, n - 1, m, c);
      SinceStep(reqs, i, n - 1, m, c);
    }
  }

  lemma SinceStep(reqs: seq<Request>, i: nat, n: nat, m: nat, c: nat)
    requires i < n < |reqs| && Since(reqs, i, n, m, c)
    ensures Since(reqs, i, n + 1, m, c)
  {
    hide Apply, After, LabelOf;
    var db, req := After(reqs[..n]), reqs[n];
    var db' := Apply(db, req).0;
    StepAfter(reqs, n);
    RowMoves(db, req, c);
    if db.rows[c].status != db'.rows[c].status { EdgeAccepted(db, req, c); }
    if RetriedSince(reqs, i, n, m, c) {
      var k, l :| i < k < l < n && Reported(reqs, k, m, c) && Retried(reqs, l, c);
      assert RetriedSince(reqs, i, n + 1, m, c);
    } else if HeldBy(db, m, c, InProgress) && db'.rows[c].status.Failed? {
      assert Reported(reqs, n, m, c);
    } else if db.rows[c].status.Failed? && FailedSince(reqs, i, n, m, c) {
      var k :| i < k < n && Reported(reqs, k, m, c);
      assert FailedSince(reqs, i, n + 1, m, c);
      if db'.rows[c].status.Pending? {
        assert Retried(reqs, n, c);
        assert RetriedSince(reqs, i, n + 1, m, c);
      }
    }
  }

  /** In no run is a credential handed out twice for set-up unless, in between, the machine that held it reported
      failure and its owner then asked for a retry. */
  lemma ClaimsAreExclusive(reqs: seq<Request>, i: nat, j: nat, m: nat, m': nat, c: nat)
    requires i < j && Granted(reqs, i, m, c) && Granted(reqs, j, m', c)
    ensures RetriedSince(reqs, i, j, m, c)
  {
    hide Apply, After, LabelOf;
    SinceGrant(reqs, i, j, m, c);
    GrantTakes(After(reqs[..j]), m');
  }

  // ---------- where atomicity is needed ----------

  /** Taking a job moves one pending credential to the machine and changes nothing else that counts. */
  lemma TakeEffect(db: Db, m: nat)
    ensures var db', pending := Take(db, m).0, WithStatus(db, Pending);
            && db'.machines == db.machines
            && (pending == {} ==> db' == db)
            && (pending != {} ==>
                  && WithStatus(db', Pending) == pending - {Least(pending)}
                  && Least(pending) !in Occupied(db, m) && Occupied(db', m) == Occupied(db, m) + {Least(pending)}
                  && forall u :: u != m ==> Occupied(db', u) == Occupied(db, u))
  {
    hide LabelOf;
  }

  /** The capacity that m's own claims can break, given that every other machine is within its own. */
  lemma OnlyMine(db: Db, db': Db, m: nat)
    requires WithinCapacity(db) && db'.machines == db.machines && m in db.machines
    requires forall u :: u != m ==> Occupied(db', u) == Occupied(db, u)
    ensures WithinCapacity(db') <==> |Occupied(db', m)| <= Max(0, db.machines[m].maxAccounts)
  {
    hide Occupied;
  }

  /** Two claims by one machine that both pass the capacity check before either takes a job break the capacity exactly
      when one slot is free and at least two credentials are pending. */
  lemma UnlockedClaims(db: Db, m: nat)
    requires WithinCapacity(db) && MachineOn(db, m) && |Occupied(db, m)| < db.machines[m].maxAccounts
    ensures !WithinCapacity(Take(Take(db, m).0, m).0) <==>
            |Occupied(db, m)| + 1 == db.machines[m].maxAccounts && |WithStatus(db, Pending)| >= 2
  {
    hide Take, Occupied, WithStatus, WithinCapacity, Least;
    var db1 := Take(db, m).0;
    var db2 := Take(db1, m).0;
    TakeEffect(db, m);
    TakeEffect(db1, m);
    OnlyMine(db, db2, m);
    var pending := WithStatus(db, Pending);
    if pending != {} {
      var first := Least(pending);
      assert |pending| == |pending - {first}| + 1;
      assert |Occupied(db1, m)| == |Occupied(db, m)| + 1;
      if pending - {first} != {} { assert |Occupied(db2, m)| == |Occupied(db1, m)| + 1; }
    }
  }

  /** Such an overrun: one slot, two pending credentials, two jobs held. */
  lemma UnlockedCheckOverruns()
    ensures exists db: Db, m: nat ::
              && Inv(db) && MachineOn(db, m) && |Occupied(db, m)| < db.machines[m].maxAccounts
              && !WithinCapacity(Take(Take(db, m).0, m).0)
  {
    hide LabelOf, Take;
    var row := Row(0, false, Pending, None, None, None, None, None);
    var db := Db(map[0 := row, 1 := row.(user := 1)], map[7 := Machine(1, true)]);
    assert Occupied(db, 7) == {};
    assert WithStatus(db, Pending) == {0, 1};
    UnlockedClaims(db, 7);
  }

  /** Removal is not final: exactly the owner of a labelled credential can queue it again while a machine is on. */
  lemma RemovedReturns(db: Db, req: Request, c: nat)
    requires c in db.rows && db.rows[c].status.Removed?
    ensures Apply(db, req).0.rows[c].status != Removed <==>
            req == Remove(db.rows[c].user, c) && db.rows[c].accountLabel.Some? && AnyMachineOn(db)
  {
    hide LabelOf;
  }

  // ---------- the endpoints ----------

  class Service {
    var rows: map<nat, Row>
    var machines: map<nat, Machine>

    ghost function View(): Db
      reads this
    {
      Db(rows, machines)
    }

    constructor ()
      ensures View() == EMPTY
    {
      rows, machines := map[], map[];
    }

    method FirstWith(st: Status) returns (first: Option<nat>)
      ensures var s := WithStatus(View(), st);
              first == if s == {} then None else Some(Least(s))
    {
      ghost var wanted := WithStatus(View(), st);
      var left := rows.Keys;
      first := None;
      while left != {}
        invariant left <= rows.Keys
        invariant first.None? ==> wanted <= left
        invariant first.Some? ==> first.value in wanted && forall x :: x in wanted ==> x in left || first.value <= x
        decreases |left|
      {
        var c :| c in left;
        if rows[c].status == st && (first.None? || c < first.value) {
          first := Some(c);
        }
        left := left - {c};
      }
      assert first.None? ==> wanted == {};
    }

    method DeactivateOthers(user: nat, id: nat)
      modifies this`rows
      ensures View() == SwitchOthersOff(old(View()), user, id)
    {
      rows := map c | c in rows ::
        if rows[c].user == user && c != id && rows[c].isActive then rows[c].(isActive := false) else rows[c];
    }

    method CreateCredential(user: nat, id: nat) returns (reply: Reply)
      modifies this`rows
      ensures (View(), reply) == Apply(old(View()), Create(user, id))
    {
      if id in rows {
        return DuplicateKey;
      }
      DeactivateOthers(user, id);
      var hasActiveMachine := exists m :: m in machines && machines[m].isActive;
      var row := Row(user, true, if hasActiveMachine then Pending else NotRequested, None, None, None, None, None);
      rows := rows[id := row];
      return Done;
    }

    method UpdateCredential(user: nat, id: nat, flag: Option<bool>) returns (reply: Reply)
      modifies this`rows
      ensures (View(), reply) == Apply(old(View()), Patch(user, id, flag))
    {
      if !(id in rows && rows[id].user == user) {
        return NotFound;
      }
      if flag.None? {
        return BadRequest;
      }
      if flag.value {
        DeactivateOthers(user, id);
      }
      rows := rows[id := rows[id].(isActive := flag.value)];
      return Done;
    }

    method RetryProvisioning(user: nat, id: nat) returns (reply: Reply)
      modifies this`rows
      ensures (View(), reply) == Apply(old(View()), Retry(user, id))
    {
      if !(id in rows && rows[id].user == user) {
        return NotFound;
      }
      if rows[id].status != Failed {
        return Conflict;
      }
      rows := rows[id := rows[id].(status := Pending, error := None, step := None, machine := None)];
      return Done;
    }

    /** `row` is changed before the machine check; raising there leaves the table uncommitted. */
    method RemoveCredential(user: nat, id: nat) returns (reply: Reply)
      modifies this`rows
      ensures (View(), reply) == Apply(old(View()), Remove(user, id))
    {
      if !(id in rows && rows[id].user == user) {
        return NotFound;
      }
      var row := rows[id];
      if row.status in {InProgress, Decommissioning, Removing} {
        return Conflict;
      }
      row := row.(isActive := false);
      if row.accountLabel.None? {
        row := row.(status := Removed);
      } else {
        var hasActiveMachine := exists m :: m in machines && machines[m].isActive;
        if !hasActiveMachine {
          return Conflict;
        }
        row := row.(status := Decommissioning);
      }
      rows := rows[id := row];
      return Done;
    }

    method ClaimJob(m: nat) returns (reply: Reply)
      modifies this`rows
      ensures (View(), reply) == Apply(old(View()), Claim(m))
    {
      if !(m in machines && machines[m].isActive) {
        return Unauthorized;
      }
      var inFlight := set c | c in rows && rows[c].machine == Some(m)
        && (rows[c].status.InProgress? || rows[c].status.Active?);
      assert inFlight == Occupied(View(), m);
      if |inFlight| >= machines[m].maxAccounts {
        return AtCapacity;
      }
      var first := FirstWith(Pending);
      if first.None? {
        return NonePending;
      }
      var row := rows[first.value].(status := InProgress, machine := Some(m));
      if row.accountLabel.None? {
        row := row.(accountLabel := Some(LabelOf(first.value)));
      }
      rows := rows[first.value := row];
      return Job(first.value, row.accountLabel);
    }

    /** The row of a job that machine m holds in state `st`, or the error to answer with. */
    method ClaimedRow(m: nat, id: nat, st: Status) returns (reply: Reply)
      ensures reply == if !MachineOn(View(), m) then Unauthorized
                       else if id !in rows then NotFound
                       else if !HeldBy(View(), m, id, st) then Conflict
                       else Done
    {
      if !(m in machines && machines[m].isActive) {
        return Unauthorized;
      }
      if id !in rows {
        return NotFound;
      }
      if rows[id].machine != Some(m) || rows[id].status != st {
        return Conflict;
      }
      return Done;
    }

    method ReportStep(m: nat, id: nat, name: string) returns (reply: Reply)
      modifies this`rows
      ensures (View(), reply) == Apply(old(View()), Step(m, id, name))
    {
      if m in machines && machines[m].isActive && name !in STEPS {
        return BadRequest;
      }
      reply := ClaimedRow(m, id, InProgress);
      if reply.Done? {
        rows := rows[id := rows[id].(step := Some(name))];
      }
    }

    method CompleteJob(m: nat, id: nat, url: string) returns (reply: Reply)
      modifies this`rows
      ensures (View(), reply) == Apply(old(View()), Complete(m, id, url))
    {
      reply := ClaimedRow(m, id, InProgress);
      if reply.Done? {
        rows := rows[id := rows[id].(status := Active, url := Some(url), error := None)];
      }
    }

    method FailJob(m: nat, id: nat, error: string) returns (reply: Reply)
      modifies this`rows
      ensures (View(), reply) == Apply(old(View()), Fail(m, id, error))
    {
      reply := ClaimedRow(m, id, InProgress);
      if reply.Done? {
        rows := rows[id := rows[id].(status := Failed, error := Some(error))];
      }
    }

    method ClaimRemovalJob(m: nat) returns (reply: Reply)
      modifies this`rows
      ensures (View(), reply) == Apply(old(View()), ClaimRemoval(m))
    {
      if !(m in machines && machines[m].isActive) {
        return Unauthorized;
      }
      var first := FirstWith(Decommissioning);
      if first.None? {
        return NonePending;
      }
      rows := rows[first.value := rows[first.value].(status := Removing, machine := Some(m))];
      return Job(first.value, rows[first.value].accountLabel);
    }

    method ReportRemovalStep(m: nat, id: nat, name: string) returns (reply: Reply)
      modifies this`rows
      ensures (View(), reply) == Apply(old(View()), RemovalStep(m, id, name))
    {
      if m in machines && machines[m].isActive && name !in STEPS {
        return BadRequest;
      }
      reply := ClaimedRow(m, id, Removing);
      if reply.Done? {
        rows := rows[id := rows[id].(step := Some(name))];
      }
    }

    method CompleteRemovalJob(m: nat, id: nat) returns (reply: Reply)
      modifies this`rows
      ensures (View(), reply) == Apply(old(View()), CompleteRemoval(m, id))
    {
      reply := ClaimedRow(m, id, Removing);
      if reply.Done? {
        rows := rows[id := rows[id].(status := Removed, step := None, machine := None, error := None, url := None)];
      }
    }

    method FailRemovalJob(m: nat, id: nat, error: string) returns (reply: Reply)
      modifies this`rows
      ensures (View(), reply) == Apply(old(View()), FailRemoval(m, id, error))
    {
      reply := ClaimedRow(m, id, Removing);
      if reply.Done? {
        rows := rows[id := rows[id].(status := DecommissionFailed, error := Some(error))];
      }
    }
  }
}
