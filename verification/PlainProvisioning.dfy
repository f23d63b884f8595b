/** What a provisioning request may touch, whose it is, and when it is granted, in terms of the two tables alone. */
module PlainProvisioning {
  import opened Market
  import opened Provisioning

  // ---------- whose rows a request touches ----------

  /** The request of a user about credentials; machines and their registration have none. */
  function UserOf(req: Request): Option<nat> {
    match req
    case Create(u, _) => Some(u)
    case Patch(u, _, _) => Some(u)
    case Retry(u, _) => Some(u)
    case Remove(u, _) => Some(u)
    case _ => None
  }

  /** A request that makes one credential its user's active one. */
  predicate SwitchesOn(db: Db, req: Request) {
    || (req.Create? && req.id !in db.rows)
    || (req.Patch? && req.flag == Some(true) && req.id in db.rows && db.rows[req.id].user == req.user)
  }

  /** A user's request leaves every other user's row alone.  Of the user's own other rows it changes at most the active
      flag, from on to off, and exactly when it switches another one on. */
  lemma UserFrame(db: Db, req: Request, c: nat)
    requires c in db.rows && UserOf(req).Some?
    ensures c in Apply(db, req).0.rows
    ensures db.rows[c].user != UserOf(req).value ==> Apply(db, req).0.rows[c] == db.rows[c]
    ensures db.rows[c].user == UserOf(req).value && c != req.id ==>
              Apply(db, req).0.rows[c] ==
              if SwitchesOn(db, req) && db.rows[c].isActive then db.rows[c].(isActive := false) else db.rows[c]
  {
  }

  /** Of the row it names, a user's request never changes owner or label; the active flag follows the request. */
  lemma OwnRow(db: Db, req: Request)
    requires UserOf(req).Some? && req.id in db.rows && db.rows[req.id].user == UserOf(req).value
    ensures req.id in Apply(db, req).0.rows
    ensures var row, row' := db.rows[req.id], Apply(db, req).0.rows[req.id];
            && row'.user == row.user && row'.accountLabel == row.accountLabel
            && (req.Create? || req.Retry? ==> row'.isActive == row.isActive)
            && (req.Patch? ==> row' == if req.flag.Some? then row.(isActive := req.flag.value) else row)
            && (req.Remove? ==> row' == row || (!row'.isActive && row'.status in {Removed, Decommissioning}))
  {
  }

  /** A machine's request changes no row but the one it names or is handed, and of that neither the owner nor the active
      flag; registering and switching machines change no row. */
  lemma MachineFrame(db: Db, req: Request, c: nat)
    requires c in db.rows && UserOf(req).None?
    ensures c in Apply(db, req).0.rows
    ensures Apply(db, req).0.rows[c].user == db.rows[c].user
    ensures Apply(db, req).0.rows[c].isActive == db.rows[c].isActive
    ensures Apply(db, req).0.rows[c] != db.rows[c] ==>
              if req.Claim? || req.ClaimRemoval? then Apply(db, req).1.Job? && Apply(db, req).1.id == c
              else Expected(req).Some? && req.id == c && Apply(db, req).1.Done?
  {
    hide LabelOf;
    if IsClaim(req) { ClaimFrame(db, req, c); } else { ReportFrame(db, req, c); }
  }

  lemma ClaimFrame(db: Db, req: Request, c: nat)
    requires c in db.rows && IsClaim(req)
    ensures var (db', reply) := Apply(db, req);
            && c in db'.rows && db'.rows[c].user == db.rows[c].user && db'.rows[c].isActive == db.rows[c].isActive
            && (db'.rows[c] != db.rows[c] ==> reply.Job? && reply.id == c)
  {
    hide LabelOf;
  }

  lemma ReportFrame(db: Db, req: Request, c: nat)
    requires c in db.rows && UserOf(req).None? && !IsClaim(req)
    ensures var (db', reply) := Apply(db, req);
            && c in db'.rows && db'.rows[c].user == db.rows[c].user && db'.rows[c].isActive == db.rows[c].isActive
            && (db'.rows[c] != db.rows[c] ==> Expected(req).Some? && req.id == c && reply.Done?)
  {
  }

  /** Over runs: a credential's active flag changes only by a request of its owner. */
  lemma {:induction false} FlagByOwner(reqs: seq<Request>, i: nat, j: nat, c: nat)
    requires i <= j <= |reqs| && c in After(reqs[..i]).rows
    requires forall k :: i <= k < j ==> UserOf(reqs[k]) != Some(After(reqs[..i]).rows[c].user)
    ensures c in After(reqs[..j]).rows && After(reqs[..j]).rows[c].user == After(reqs[..i]).rows[c].user
    ensures After(reqs[..j]).rows[c].isActive == After(reqs[..i]).rows[c].isActive
  {
    hide Apply, After;
    if i < j {
      FlagByOwner(reqs, i, j - 1, c);
      StepAfter(reqs, j - 1);
      var db, req := After(reqs[..j - 1]), reqs[j - 1];
      if UserOf(req).Some? { UserFrame(db, req, c); } else { MachineFrame(db, req, c); }
    }
  }

  // ---------- when a request is granted ----------

  predicate On(db: Db, m: nat) {
    m in db.machines && db.machines[m].isActive
  }

  /** The credentials a machine is working on or has set up. */
  function Load(db: Db, m: nat): set<nat> {
    set c | c in db.rows && db.rows[c].machine == Some(m) && db.rows[c].status in {InProgress, Active}
  }

  /** The first credential in a state, by id. */
  ghost predicate FirstIn(db: Db, st: Status, c: nat) {
    c in db.rows && db.rows[c].status == st && forall d :: d in db.rows && db.rows[d].status == st ==> c <= d
  }

  /** A claim is granted exactly to a machine that is on and below its limit while a credential is pending; it gets the
      first of these, under the label it has or the first eight digits of its id, and nothing else of it changes. */
  lemma ClaimMeans(db: Db, m: nat, c: nat)
    ensures (exists l :: Apply(db, Claim(m)).1 == Job(c, l)) <==>
            On(db, m) && |Load(db, m)| < db.machines[m].maxAccounts && FirstIn(db, Pending, c)
    ensures On(db, m) && |Load(db, m)| < db.machines[m].maxAccounts && FirstIn(db, Pending, c) ==>
              var row := db.rows[c];
              var l := if row.accountLabel.Some? then row.accountLabel.value else c / 0x1_00000000_00000000_00000000;
              && Apply(db, Claim(m)).1 == Job(c, Some(l)) && c in Apply(db, Claim(m)).0.rows
              && Apply(db, Claim(m)).0.rows[c] ==
                 row.(status := InProgress, machine := Some(m), accountLabel := Some(l))
    ensures Apply(db, Claim(m)).1 == Unauthorized <==> !On(db, m)
    ensures Apply(db, Claim(m)).1 == AtCapacity <==> On(db, m) && |Load(db, m)| >= db.machines[m].maxAccounts
  {
    assert Load(db, m) == Occupied(db, m);
    LeastIs(db, Pending, c);
  }

  lemma LeastIs(db: Db, st: Status, c: nat)
    ensures FirstIn(db, st, c) <==> WithStatus(db, st) != {} && c == Least(WithStatus(db, st))
  {
    hide Least;
    var these := WithStatus(db, st);
    if FirstIn(db, st, c) {
      assert c in these;
      assert Least(these) in these;
    }
    if these != {} && c == Least(these) {
      forall d | d in db.rows && db.rows[d].status == st ensures c <= d {
        assert d in these;
      }
    }
  }

  lemma ClaimRemovalMeans(db: Db, m: nat, c: nat)
    ensures (exists l :: Apply(db, ClaimRemoval(m)).1 == Job(c, l)) <==> On(db, m) && FirstIn(db, Decommissioning, c)
    ensures On(db, m) && FirstIn(db, Decommissioning, c) ==>
              && Apply(db, ClaimRemoval(m)).1 == Job(c, db.rows[c].accountLabel)
              && c in Apply(db, ClaimRemoval(m)).0.rows
              && Apply(db, ClaimRemoval(m)).0.rows[c] == db.rows[c].(status := Removing, machine := Some(m))
    ensures Apply(db, ClaimRemoval(m)).1 == Unauthorized <==> !On(db, m)
  {
    LeastIs(db, Decommissioning, c);
  }

  /** The state in which a report is expected. */
  function Expected(req: Request): Option<Status> {
    match req
    case Step(_, _, _) => Some(InProgress)
    case Complete(_, _, _) => Some(InProgress)
    case Fail(_, _, _) => Some(InProgress)
    case RemovalStep(_, _, _) => Some(Removing)
    case CompleteRemoval(_, _) => Some(Removing)
    case FailRemoval(_, _, _) => Some(Removing)
    case _ => None
  }

  /** A report is accepted exactly from the machine that holds the credential in the expected state, is on, and names a
      known step if it names one; then it leaves its mark on that row. */
  lemma ReportMeans(db: Db, req: Request)
    requires Expected(req).Some?
    ensures var (m, c) := (req.machine, req.id);
            && (Apply(db, req).1 == Done <==>
                && On(db, m) && c in db.rows && db.rows[c].machine == Some(m)
                && db.rows[c].status == Expected(req).value
                && (req.Step? || req.RemovalStep? ==> req.name in STEPS))
            && (Apply(db, req).1 == Unauthorized <==> !On(db, m))
            && (Apply(db, req).1 != Done ==> Apply(db, req).0 == db)
            && (Apply(db, req).1 == Done ==>
                  && c in Apply(db, req).0.rows
                  && Apply(db, req).0.rows[c] ==
                     var row := db.rows[c];
                     match req
                     case Step(_, _, name) => row.(step := Some(name))
                     case Complete(_, _, url) => row.(status := Active, url := Some(url), error := None)
                     case Fail(_, _, e) => row.(status := Failed, error := Some(e))
                     case RemovalStep(_, _, name) => row.(step := Some(name))
                     case CompleteRemoval(_, _) =>
                       row.(status := Removed, step := None, machine := None, error := None, url := None)
                     case FailRemoval(_, _, e) => row.(status := DecommissionFailed, error := Some(e))
                     case _ => row)
  {
  }

  /** What a user is told, and when a tear-down needs a machine. */
  lemma UserRepliesMean(db: Db, u: nat, c: nat)
    ensures Apply(db, Create(u, c)).1 == Done <==> c !in db.rows
    ensures c !in db.rows ==>
              && c in Apply(db, Create(u, c)).0.rows
              && Apply(db, Create(u, c)).0.rows[c] ==
                 Row(u, true, if exists m :: On(db, m) then Pending else NotRequested, None, None, None, None, None)
    ensures Apply(db, Retry(u, c)).1 == Done <==> c in db.rows && db.rows[c].user == u && db.rows[c].status == Failed
    ensures Apply(db, Remove(u, c)).1 == Done <==>
            && c in db.rows && db.rows[c].user == u
            && db.rows[c].status !in {InProgress, Decommissioning, Removing}
            && (db.rows[c].accountLabel.Some? ==> exists m :: On(db, m))
    ensures forall req :: req in {Create(u, c), Retry(u, c), Remove(u, c)} ==>
              (Apply(db, req).1 == NotFound ==> c !in db.rows || db.rows[c].user != u)
  {
    if AnyMachineOn(db) {
      var m :| m in db.machines && db.machines[m].isActive;
      assert On(db, m);
    }
  }
}
