/**
 Group membership rows and the cached member set: addMember in
 internal/service/gorm/group_member_service.go, the transitions of group_info_service.go, the
 group branches of ApplyContact and PassContactApply in user_contact_service.go, and
 getActiveGroupMemberIDs in internal/service/chat/group_member_query.go.

 `deleted` stands for deleted_at <> 0; GORM's default scope sees only rows that are not
 deleted. The database part of a service call is one step. Deleting the cached set afterwards
 is another step, and so are the read and the write of a cache rebuild.
*/
module GroupMembership {
  import opened Wrappers

  datatype Role = Owner | Member
  datatype Status = Normal | Kicked | Quit

  datatype Row = Row(groupId: string, userId: string, role: Role, status: Status, deleted: bool) {
    predicate Is(g: string, u: string) {
      groupId == g && userId == u
    }
  }

  datatype Group = Group(owner: string, addMode: int, live: bool)

  // ---------------------------------------------------------------- statements on the table

  /** UPDATE .. SET status, deleted_at WHERE group, user and not deleted. */
  function Retire(rows: seq<Row>, g: string, u: string, status: Status): seq<Row> {
    seq(|rows|, i requires 0 <= i < |rows| =>
      if rows[i].Is(g, u) && !rows[i].deleted then rows[i].(status := status, deleted := true) else rows[i])
  }

  function RetireAll(rows: seq<Row>, g: string, us: seq<string>, status: Status): seq<Row> {
    if us == [] then rows else Retire(RetireAll(rows, g, us[..|us| - 1], status), g, us[|us| - 1], status)
  }

  /** UPDATE .. SET deleted_at WHERE group and not deleted: the status stays. */
  function Dissolve(rows: seq<Row>, g: string): seq<Row> {
    seq(|rows|, i requires 0 <= i < |rows| =>
      if rows[i].groupId == g && !rows[i].deleted then rows[i].(deleted := true) else rows[i])
  }

  /** UPDATE .. SET status, role WHERE group, user and not deleted. */
  function Refresh(rows: seq<Row>, g: string, u: string, role: Role): seq<Row> {
    seq(|rows|, i requires 0 <= i < |rows| =>
      if rows[i].Is(g, u) && !rows[i].deleted then rows[i].(status := Normal, role := role) else rows[i])
  }

  /** ORDER BY id DESC, first match. */
  function Latest(rows: seq<Row>, g: string, u: string, deleted: bool): (r: Option<nat>)
    ensures r.Some? ==> r.value < |rows| && rows[r.value].Is(g, u) && rows[r.value].deleted == deleted
    ensures r == None ==> forall i :: 0 <= i < |rows| ==> !(rows[i].Is(g, u) && rows[i].deleted == deleted)
  {
    if rows == [] then None
    else
      var n := |rows| - 1;
      if rows[n].Is(g, u) && rows[n].deleted == deleted then Some(n) else Latest(rows[..n], g, u, deleted)
  }

  /** addMember: refresh, restore, insert, or refuse; None is ErrMemberKicked. */
  function WithMember(rows: seq<Row>, g: string, u: string, role: Role): Option<seq<Row>> {
    if Latest(rows, g, u, false).Some? then Some(Refresh(rows, g, u, role))
    else
      match Latest(rows, g, u, true)
      case Some(i) =>
        if rows[i].status == Kicked then None
        else Some(rows[i := rows[i].(status := Normal, role := role, deleted := false)])
      case None => Some(rows + [Row(g, u, role, Normal, false)])
  }

  /** WHERE group and status normal, in the default scope. */
  function Active(rows: seq<Row>, g: string): set<string> {
    set r | r in rows && r.groupId == g && r.status == Normal && !r.deleted :: r.userId
  }

  /** Those the owner has removed. */
  function Banned(rows: seq<Row>, g: string): set<string> {
    set r | r in rows && r.groupId == g && r.status == Kicked :: r.userId
  }

  // ---------------------------------------------------------------- changes to the database

  datatype Db = Db(
    groups: map<string, Group>, rows: seq<Row>, applications: set<(string, string)>,
    joined: set<(string, string)>)     // history: who entered as an ordinary member

  function NewDb(): Db {
    Db(map[], [], {}, {})
  }

  predicate Live(db: Db, g: string) {
    g in db.groups && db.groups[g].live
  }

  datatype Change =
    | CreateGroup(g: string, owner: string, addMode: int)
    | SetAddMode(g: string, actor: string, addMode: int)
    | EnterDirectly(g: string, u: string)
    | ApplyTo(g: string, u: string)
    | PassApply(g: string, u: string)
    | DropApplication(g: string, u: string)
    | Leave(g: string, u: string)
    | Remove(g: string, actor: string, us: seq<string>)
    | Dismiss(g: string, actor: string)
    | Delete(gs: seq<string>)

  function Join(db: Db, g: string, u: string): Db {
    match WithMember(db.rows, g, u, Member)
    case Some(rows) => db.(rows := rows, joined := db.joined + {(g, u)})
    case None => db
  }

  function Bury(db: Db, g: string): Db {
    db.(groups := if g in db.groups then db.groups[g := db.groups[g].(live := false)] else db.groups,
        rows := Dissolve(db.rows, g),
        applications := set a | a in db.applications && a.0 != g)
  }

  function BuryAll(db: Db, gs: seq<string>): Db {
    if gs == [] then db else Bury(BuryAll(db, gs[..|gs| - 1]), gs[|gs| - 1])
  }

  /** Whether the call passes its checks and its transaction commits. */
  predicate Accepted(db: Db, c: Change) {
    match c
    case CreateGroup(g, owner, _) => g !in db.groups && WithMember(db.rows, g, owner, Owner).Some?
    case SetAddMode(g, actor, _) => Live(db, g) && db.groups[g].owner == actor
    case EnterDirectly(g, u) =>
      Live(db, g) && db.groups[g].addMode == 0 && WithMember(db.rows, g, u, Member).Some?
    case ApplyTo(g, _) => Live(db, g)
    case PassApply(g, u) => (g, u) in db.applications && WithMember(db.rows, g, u, Member).Some?
    case DropApplication(_, _) => true
    case Leave(g, u) => Live(db, g) && db.groups[g].owner != u
    case Remove(g, actor, us) => Live(db, g) && db.groups[g].owner == actor && actor !in us
    case Dismiss(g, actor) => Live(db, g) && db.groups[g].owner == actor
    case Delete(_) => true
  }

  function Effect(db: Db, c: Change): Db
    requires Accepted(db, c)
  {
    match c
    case CreateGroup(g, owner, addMode) =>
      db.(groups := db.groups[g := Group(owner, addMode, true)], rows := WithMember(db.rows, g, owner, Owner).value)
    case SetAddMode(g, _, addMode) =>
      if addMode == -1 then db else db.(groups := db.groups[g := db.groups[g].(addMode := addMode)])
    case EnterDirectly(g, u) => Join(db, g, u)
    case ApplyTo(g, u) => db.(applications := db.applications + {(g, u)})
    case PassApply(g, u) => Join(db, g, u)
    case DropApplication(g, u) => db.(applications := db.applications - {(g, u)})
    case Leave(g, u) => db.(rows := Retire(db.rows, g, u, Quit), applications := db.applications - {(g, u)})
    case Remove(g, _, us) =>
      db.(rows := RetireAll(db.rows, g, us, Kicked),
          applications := set a | a in db.applications && !(a.0 == g && a.1 in us))
    case Dismiss(g, _) => Bury(db, g)
    case Delete(gs) => BuryAll(db, gs)
  }

  /** A refused call and a rolled-back transaction change nothing. */
  function Commit(db: Db, c: Change): Db {
    if Accepted(db, c) then Effect(db, c) else db
  }

  /** The groups whose cached set the call deletes once it has committed. */
  function Invalidates(db: Db, c: Change): multiset<string> {
    if !Accepted(db, c) then multiset{}
    else
      match c
      case SetAddMode(_, _, _) => multiset{}
      case ApplyTo(_, _) => multiset{}
      case DropApplication(_, _) => multiset{}
      case Delete(gs) => multiset(gs)
      case _ => multiset{c.g}
  }

  function History(changes: seq<Change>): Db {
    if changes == [] then NewDb() else Commit(History(changes[..|changes| - 1]), changes[|changes| - 1])
  }

  // ---------------------------------------------------------------- what every change keeps

  ghost predicate Unique(rows: seq<Row>) {
    forall i, j :: 0 <= i < |rows| && 0 <= j < |rows| && i != j ==> !rows[j].Is(rows[i].groupId, rows[i].userId)
  }

  ghost predicate HasActive(rows: seq<Row>, g: string, u: string) {
    exists i :: 0 <= i < |rows| && rows[i].Is(g, u) && !rows[i].deleted
  }

  /** An active row is normal, in a live group, and has the owner's role in exactly one case. */
  ghost predicate RowOk(db: Db, r: Row) {
    && r.groupId in db.groups
    && (!r.deleted ==>
         && r.status == Normal
         && db.groups[r.groupId].live
         && (r.role == Owner <==> r.userId == db.groups[r.groupId].owner && (r.groupId, r.userId) !in db.joined))
  }

  ghost predicate Inv(db: Db) {
    && Unique(db.rows)
    && (forall i :: 0 <= i < |db.rows| ==> RowOk(db, db.rows[i]))
    && (forall g :: Live(db, g) ==> HasActive(db.rows, g, db.groups[g].owner))
    && (forall a :: a in db.applications ==> Live(db, a.0))
    && (forall a :: a in db.joined ==> a.0 in db.groups)
  }

  /** What one accepted addMember does to the table: exactly one row, at index k, is written. */
  lemma AddMemberWrites(rows: seq<Row>, g: string, u: string, role: Role) returns (k: nat)
    requires Unique(rows)
    requires WithMember(rows, g, u, role).Some?
    ensures var after := WithMember(rows, g, u, role).value;
      && k < |after| && after[k] == Row(g, u, role, Normal, false)
      && |rows| <= |after| && (forall i :: 0 <= i < |rows| && i != k ==> after[i] == rows[i])
      && (if k < |rows| then |after| == |rows| && rows[k].Is(g, u) && (rows[k].deleted ==> rows[k].status != Kicked)
          else k == |rows| && |after| == k + 1 && forall i :: 0 <= i < k ==> !rows[i].Is(g, u))
  {
    match Latest(rows, g, u, false)
    case Some(i) =>
      k := i;
      assert forall j :: 0 <= j < |rows| && j != k ==> !rows[j].Is(rows[k].groupId, rows[k].userId);
    case None =>
      match Latest(rows, g, u, true)
      case Some(i) => k := i;
      case None => k := |rows|;
  }

  /** addMember refuses exactly the people who were removed by the owner. */
  lemma RefusesExactlyTheKicked(db: Db, g: string, u: string, role: Role)
    requires Inv(db)
    ensures WithMember(db.rows, g, u, role) == None <==> u in Banned(db.rows, g)
  {
    if u in Banned(db.rows, g) {
      var r :| r in db.rows && r.Is(g, u) && r.status == Kicked;
      var i :| 0 <= i < |db.rows| && db.rows[i] == r;
      assert RowOk(db, db.rows[i]);
      assert forall j :: 0 <= j < |db.rows| && j != i ==> !db.rows[j].Is(db.rows[i].groupId, db.rows[i].userId);
    }
  }

  lemma AddKeepsUnique(rows: seq<Row>, g: string, u: string, role: Role)
    requires Unique(rows)
    requires WithMember(rows, g, u, role).Some?
    ensures Unique(WithMember(rows, g, u, role).value)
  {
  }

  /** An addMember leaves every active row active. */
  lemma AddKeepsActive(rows: seq<Row>, g: string, u: string, role: Role)
    requires Unique(rows)
    requires WithMember(rows, g, u, role).Some?
    ensures HasActive(WithMember(rows, g, u, role).value, g, u)
    ensures forall h, v :: HasActive(rows, h, v) ==> HasActive(WithMember(rows, g, u, role).value, h, v)
  {
    var k := AddMemberWrites(rows, g, u, role);
    var after := WithMember(rows, g, u, role).value;
    assert after[k].Is(g, u) && !after[k].deleted;
    forall h, v | HasActive(rows, h, v) ensures HasActive(after, h, v) {
      var i :| 0 <= i < |rows| && rows[i].Is(h, v) && !rows[i].deleted;
      assert after[i].Is(h, v) && !after[i].deleted;
    }
  }

  lemma JoinKeepsInv(db: Db, g: string, u: string)
    requires Inv(db) && Live(db, g)
    requires WithMember(db.rows, g, u, Member).Some?
    ensures Inv(Join(db, g, u))
  {
    var k := AddMemberWrites(db.rows, g, u, Member);
    var after := Join(db, g, u);
    AddKeepsUnique(db.rows, g, u, Member);
    AddKeepsActive(db.rows, g, u, Member);
    forall i | 0 <= i < |after.rows| ensures RowOk(after, after.rows[i]) {
      if i != k {
        assert RowOk(db, db.rows[i]);
        assert k < |db.rows| ==> !db.rows[i].Is(db.rows[k].groupId, db.rows[k].userId);
      }
    }
  }

  lemma CreateKeepsInv(db: Db, g: string, owner: string, addMode: int)
    requires Inv(db) && Accepted(db, CreateGroup(g, owner, addMode))
    ensures Inv(Commit(db, CreateGroup(g, owner, addMode)))
  {
    var after := Commit(db, CreateGroup(g, owner, addMode));
    var k := AddMemberWrites(db.rows, g, owner, Owner);
    AddKeepsUnique(db.rows, g, owner, Owner);
    AddKeepsActive(db.rows, g, owner, Owner);
    forall i | 0 <= i < |after.rows| ensures RowOk(after, after.rows[i]) {
      if i != k { assert RowOk(db, db.rows[i]); } else { assert (g, owner) !in db.joined; }
    }
  }

  /** The rows after a deletion: the same people in the same places, some of them now deleted. */
  ghost predicate OnlyRetires(was: seq<Row>, now: seq<Row>) {
    && |now| == |was|
    && forall i :: 0 <= i < |was| ==>
         && now[i].Is(was[i].groupId, was[i].userId)
         && (was[i].deleted || !now[i].deleted ==> now[i] == was[i])
  }

  lemma {:induction false} RetireAllRetires(rows: seq<Row>, g: string, us: seq<string>, status: Status)
    ensures OnlyRetires(rows, RetireAll(rows, g, us, status))
    ensures forall i :: 0 <= i < |rows| && !(rows[i].groupId == g && rows[i].userId in us) ==>
      RetireAll(rows, g, us, status)[i] == rows[i]
    ensures forall i :: 0 <= i < |rows| && rows[i].groupId == g && rows[i].userId in us && !rows[i].deleted ==>
      RetireAll(rows, g, us, status)[i] == rows[i].(status := status, deleted := true)
  {
    if us != [] { RetireAllRetires(rows, g, us[..|us| - 1], status); }
  }

  /** Deleting rows keeps the invariant as long as no live group loses its owner's row. */
  lemma RetiringKeepsInv(db: Db, after: Db)
    requires Inv(db)
    requires OnlyRetires(db.rows, after.rows) && after.joined == db.joined
    requires after.groups.Keys == db.groups.Keys
    requires forall g :: g in db.groups ==> after.groups[g].owner == db.groups[g].owner
    requires forall g :: Live(after, g) ==> Live(db, g)
    requires forall a :: a in after.applications ==> a in db.applications && Live(after, a.0)
    requires forall i :: 0 <= i < |db.rows| && !after.rows[i].deleted ==> Live(after, db.rows[i].groupId)
    requires forall i :: 0 <= i < |db.rows| && Live(after, db.rows[i].groupId) && !db.rows[i].deleted ==>
      (db.rows[i].userId == after.groups[db.rows[i].groupId].owner ==> !after.rows[i].deleted)
    ensures Inv(after)
  {
  }

  lemma BuryKeepsInv(db: Db, g: string)
    requires Inv(db)
    ensures Inv(Bury(db, g))
  {
    forall i | 0 <= i < |db.rows| && !Bury(db, g).rows[i].deleted ensures Live(Bury(db, g), db.rows[i].groupId) {
      assert RowOk(db, db.rows[i]);
    }
    RetiringKeepsInv(db, Bury(db, g));
  }

  lemma {:induction false} BuryAllKeepsInv(db: Db, gs: seq<string>)
    requires Inv(db)
    ensures Inv(BuryAll(db, gs))
  {
    if gs != [] {
      BuryAllKeepsInv(db, gs[..|gs| - 1]);
      BuryKeepsInv(BuryAll(db, gs[..|gs| - 1]), gs[|gs| - 1]);
    }
  }

  lemma RemovalKeepsInv(db: Db, c: Change)
    requires Inv(db) && Accepted(db, c) && (c.Leave? || c.Remove?)
    ensures Inv(Commit(db, c))
  {
    var after := Commit(db, c);
    if c.Remove? { RetireAllRetires(db.rows, c.g, c.us, Kicked); }
    forall i | 0 <= i < |db.rows| && !after.rows[i].deleted ensures Live(after, db.rows[i].groupId) {
      assert RowOk(db, db.rows[i]);
    }
    RetiringKeepsInv(db, after);
  }

  lemma PlainKeepsInv(db: Db, c: Change)
    requires Inv(db) && Accepted(db, c) && (c.SetAddMode? || c.ApplyTo? || c.DropApplication?)
    ensures Inv(Commit(db, c))
  {
  }

  lemma CommitKeepsInv(db: Db, c: Change)
    requires Inv(db)
    ensures Inv(Commit(db, c))
  {
    if Accepted(db, c) {
      match c
      case CreateGroup(g, owner, addMode) => CreateKeepsInv(db, g, owner, addMode);
      case EnterDirectly(g, u) => JoinKeepsInv(db, g, u);
      case PassApply(g, u) =>
        assert Live(db, (g, u).0);
        JoinKeepsInv(db, g, u);
      case Leave(_, _) => RemovalKeepsInv(db, c);
      case Remove(_, _, _) => RemovalKeepsInv(db, c);
      case Dismiss(g, _) => BuryKeepsInv(db, g);
      case Delete(gs) => BuryAllKeepsInv(db, gs);
      case _ => PlainKeepsInv(db, c);
    }
  }

  /** Over every history: one row per pair, active rows normal and in live groups, owners in place. */
  lemma {:induction false} EveryHistory(changes: seq<Change>)
    ensures Inv(History(changes))
  {
    if changes != [] {
      EveryHistory(changes[..|changes| - 1]);
      CommitKeepsInv(History(changes[..|changes| - 1]), changes[|changes| - 1]);
    }
  }

  // ---------------------------------------------------------------- what holds for good

  lemma BuryAllRetires(db: Db, gs: seq<string>)
    ensures OnlyRetires(db.rows, BuryAll(db, gs).rows)
    ensures forall i :: 0 <= i < |db.rows| ==>
      BuryAll(db, gs).rows[i] == db.rows[i].(deleted := db.rows[i].deleted || db.rows[i].groupId in gs)
    ensures BuryAll(db, gs).groups.Keys == db.groups.Keys && BuryAll(db, gs).joined == db.joined
    ensures forall g :: g in db.groups ==>
      BuryAll(db, gs).groups[g] == if g in gs then db.groups[g].(live := false) else db.groups[g]
  {
  }

  ghost predicate RowStays(was: Row, now: Row) {
    now.Is(was.groupId, was.userId) && (was.status == Kicked ==> now == was)
  }

  lemma AddedRowsStay(db: Db, g: string, u: string, role: Role, i: nat)
    requires Inv(db) && i < |db.rows| && WithMember(db.rows, g, u, role).Some?
    ensures var after := WithMember(db.rows, g, u, role).value; i < |after| && RowStays(db.rows[i], after[i])
  {
    assert RowOk(db, db.rows[i]);
    var k := AddMemberWrites(db.rows, g, u, role);
  }

  /** Rows are never removed or moved; a removed member's row never changes again. */
  lemma RowsStay(db: Db, c: Change, i: nat)
    requires Inv(db) && i < |db.rows|
    ensures i < |Commit(db, c).rows| && RowStays(db.rows[i], Commit(db, c).rows[i])
  {
    if Accepted(db, c) {
      match c
      case CreateGroup(g, owner, _) => AddedRowsStay(db, g, owner, Owner, i);
      case EnterDirectly(g, u) => AddedRowsStay(db, g, u, Member, i);
      case PassApply(g, u) => AddedRowsStay(db, g, u, Member, i);
      case Leave(_, _) => assert RowOk(db, db.rows[i]);
      case Remove(g, _, us) =>
        assert RowOk(db, db.rows[i]);
        RetireAllRetires(db.rows, g, us, Kicked);
      case Dismiss(_, _) => assert RowOk(db, db.rows[i]);
      case Delete(gs) =>
        assert RowOk(db, db.rows[i]);
        BuryAllRetires(db, gs);
      case _ =>
    }
  }

  lemma {:induction false} KickedForGood(changes: seq<Change>, n: nat, i: nat)
    requires n <= |changes|
    requires i < |History(changes[..n]).rows| && History(changes[..n]).rows[i].status == Kicked
    ensures i < |History(changes).rows| && History(changes).rows[i] == History(changes[..n]).rows[i]
    ensures History(changes).rows[i].userId !in Active(History(changes).rows, History(changes).rows[i].groupId)
  {
    var now := History(changes);
    EveryHistory(changes);
    if n == |changes| {
      assert changes[..n] == changes;
    } else {
      var m := |changes| - 1;
      assert changes[..m][..n] == changes[..n];
      KickedForGood(changes[..m], n, i);
      EveryHistory(changes[..m]);
      RowsStay(History(changes[..m]), changes[m], i);
    }
    assert RowOk(now, now.rows[i]);
    forall r | r in now.rows && r.groupId == now.rows[i].groupId && r.status == Normal && !r.deleted
      ensures r.userId != now.rows[i].userId
    {
      var j :| 0 <= j < |now.rows| && now.rows[j] == r;
      assert j == i || !now.rows[j].Is(now.rows[i].groupId, now.rows[i].userId);
    }
  }

  /** A group keeps its owner; it dies only at the owner's hand or the administrator's, and stays dead. */
  lemma GroupsStay(db: Db, c: Change, g: string)
    requires g in db.groups
    ensures g in Commit(db, c).groups && Commit(db, c).groups[g].owner == db.groups[g].owner
    ensures Live(Commit(db, c), g) <==>
      Live(db, g) && c != Dismiss(g, db.groups[g].owner) && !(c.Delete? && g in c.gs)
  {
    if c.Delete? { BuryAllRetires(db, c.gs); }
  }

  /** In every history the owner of a live group is among its active members. */
  lemma OwnerStaysActive(changes: seq<Change>, g: string)
    requires Live(History(changes), g)
    ensures History(changes).groups[g].owner in Active(History(changes).rows, g)
  {
    var now := History(changes);
    EveryHistory(changes);
    var i :| 0 <= i < |now.rows| && now.rows[i].Is(g, now.groups[g].owner) && !now.rows[i].deleted;
    assert RowOk(now, now.rows[i]);
    assert now.rows[i] in now.rows;
  }

  /** A dissolved group has no active members: nothing re-enters it. */
  lemma DeadGroupsAreEmpty(changes: seq<Change>, g: string)
    requires !Live(History(changes), g)
    ensures Active(History(changes).rows, g) == {}
  {
    var now := History(changes);
    EveryHistory(changes);
    forall r | r in now.rows ensures !(r.groupId == g && r.status == Normal && !r.deleted) {
      var i :| 0 <= i < |now.rows| && now.rows[i] == r;
      assert RowOk(now, now.rows[i]);
    }
  }

  lemma JoinedBy(db: Db, c: Change, g: string, u: string)
    ensures (g, u) in Commit(db, c).joined <==>
      (g, u) in db.joined || ((c == EnterDirectly(g, u) || c == PassApply(g, u)) && Accepted(db, c))
  {
    if c.Delete? { BuryAllRetires(db, c.gs); }
  }

  /** The n-th change was an accepted call that entered u as an ordinary member of g. */
  ghost predicate EnteredAt(changes: seq<Change>, n: nat, g: string, u: string) {
    && n < |changes| && (changes[n] == EnterDirectly(g, u) || changes[n] == PassApply(g, u))
    && Accepted(History(changes[..n]), changes[n])
  }

  lemma EnteredBefore(changes: seq<Change>, n: nat, g: string, u: string)
    requires n + 1 < |changes|
    ensures EnteredAt(changes, n, g, u) <==> EnteredAt(changes[..|changes| - 1], n, g, u)
  {
    assert changes[..|changes| - 1][..n] == changes[..n];
  }

  /** The history variable says what its name says. */
  lemma {:induction false} JoinedMeansEntered(changes: seq<Change>, g: string, u: string)
    ensures (g, u) in History(changes).joined <==> exists n :: EnteredAt(changes, n, g, u)
  {
    if changes != [] {
      var m := |changes| - 1;
      JoinedMeansEntered(changes[..m], g, u);
      JoinedBy(History(changes[..m]), changes[m], g, u);
      if (g, u) in History(changes[..m]).joined {
        var n :| EnteredAt(changes[..m], n, g, u);
        EnteredBefore(changes, n, g, u);
      }
      forall n: nat | EnteredAt(changes, n, g, u) && n != m ensures EnteredAt(changes[..m], n, g, u) {
        EnteredBefore(changes, n, g, u);
      }
      assert (g, u) in History(changes).joined && (g, u) !in History(changes[..m]).joined ==> EnteredAt(changes, m, g, u);
    }
  }

  /**
   The owner's row carries the owner's role exactly until the owner enters their own group as a
   member: addMember then overwrites the role of the active row.
   */
  lemma OwnerRoleIffNeverEntered(changes: seq<Change>, g: string) returns (i: nat)
    requires Live(History(changes), g)
    ensures i < |History(changes).rows| && History(changes).rows[i].Is(g, History(changes).groups[g].owner)
    ensures !History(changes).rows[i].deleted
    ensures History(changes).rows[i].role == Owner <==>
      !exists n :: EnteredAt(changes, n, g, History(changes).groups[g].owner)
  {
    var now := History(changes);
    EveryHistory(changes);
    JoinedMeansEntered(changes, g, now.groups[g].owner);
    i :| 0 <= i < |now.rows| && now.rows[i].Is(g, now.groups[g].owner) && !now.rows[i].deleted;
    assert RowOk(now, now.rows[i]);
  }

  lemma OwnerCanLoseTheRole()
    ensures var db := History([CreateGroup("G", "U", 0), EnterDirectly("G", "U")]);
      Live(db, "G") && db.groups["G"].owner == "U" && db.rows == [Row("G", "U", Member, Normal, false)]
  {
  }

  // ---------------------------------------------------------------- the table as two sets

  /** What an accepted change means for the members of group g, with no rows in sight. */
  function MembersAfter(c: Change, g: string, members: set<string>): set<string> {
    match c
    case CreateGroup(h, owner, _) => if h == g then members + {owner} else members
    case EnterDirectly(h, u) => if h == g then members + {u} else members
    case PassApply(h, u) => if h == g then members + {u} else members
    case Leave(h, u) => if h == g then members - {u} else members
    case Remove(h, _, us) => if h == g then members - (set u | u in us) else members
    case Dismiss(h, _) => if h == g then {} else members
    case Delete(gs) => if g in gs then {} else members
    case _ => members
  }

  function BannedAfter(c: Change, g: string, members: set<string>, banned: set<string>): set<string> {
    if c.Remove? && c.g == g then banned + members * (set u | u in c.us) else banned
  }

  /** Active rows are normal: a removed member has no active row. */
  ghost predicate Clean(rows: seq<Row>) {
    Unique(rows) && forall i :: 0 <= i < |rows| && !rows[i].deleted ==> rows[i].status == Normal
  }

  lemma AdditionMoves(rows: seq<Row>, h: string, v: string, role: Role, g: string)
    requires Clean(rows) && WithMember(rows, h, v, role).Some?
    ensures var after := WithMember(rows, h, v, role).value;
      && Active(after, g) == (if g == h then Active(rows, g) + {v} else Active(rows, g))
      && Banned(after, g) == Banned(rows, g)
  {
    var k := AddMemberWrites(rows, h, v, role);
    var after := WithMember(rows, h, v, role).value;
    assert after[k] in after;
    forall r | r in rows ensures r in after || (r.Is(h, v) && r.status != Kicked) {
      var i :| 0 <= i < |rows| && rows[i] == r;
      assert i != k ==> after[i] == r;
    }
    forall r | r in after ensures r in rows || r == after[k] {
      var i :| 0 <= i < |after| && after[i] == r;
      assert i != k ==> rows[i] == r;
    }
  }

  lemma RemovalMoves(rows: seq<Row>, h: string, us: seq<string>, status: Status, g: string)
    requires Clean(rows) && status != Normal
    ensures var after := RetireAll(rows, h, us, status);
      && Active(after, g) == (if g == h then Active(rows, g) - (set u | u in us) else Active(rows, g))
      && Banned(after, g) ==
         (if g == h && status == Kicked then Banned(rows, g) + Active(rows, g) * (set u | u in us) else Banned(rows, g))
  {
    var after := RetireAll(rows, h, us, status);
    RetireAllRetires(rows, h, us, status);
    forall r | r in rows
      ensures r in after || (r.groupId == h && r.userId in us && !r.deleted && r.(status := status, deleted := true) in after)
    {
      var i :| 0 <= i < |rows| && rows[i] == r;
      assert after[i] in after;
    }
    forall r | r in after
      ensures r in rows || (r.groupId == h && r.userId in us && r.deleted && r.status == status
                            && r.userId in Active(rows, h))
    {
      var i :| 0 <= i < |after| && after[i] == r;
      assert rows[i] in rows;
    }
  }

  lemma BurialMoves(db: Db, gs: seq<string>, g: string)
    ensures Active(BuryAll(db, gs).rows, g) == (if g in gs then {} else Active(db.rows, g))
    ensures Banned(BuryAll(db, gs).rows, g) == Banned(db.rows, g)
  {
    var after := BuryAll(db, gs).rows;
    BuryAllRetires(db, gs);
    forall r | r in db.rows ensures r.(deleted := r.deleted || r.groupId in gs) in after {
      var i :| 0 <= i < |db.rows| && db.rows[i] == r;
      assert after[i] in after;
    }
    forall r | r in after ensures r in db.rows || (r.deleted && r.groupId in gs && r.(deleted := false) in db.rows) {
      var i :| 0 <= i < |after| && after[i] == r;
      assert db.rows[i] in db.rows;
    }
  }

  /**
   The table with its soft deletes behaves as two plain sets per group: an accepted change makes
   of the active members and of the removed ones what it means, and nothing else; a refused one
   leaves them.
   */
  lemma ChangeMovesMembers(db: Db, c: Change, g: string)
    requires Inv(db)
    ensures Active(Commit(db, c).rows, g) ==
      (if Accepted(db, c) then MembersAfter(c, g, Active(db.rows, g)) else Active(db.rows, g))
    ensures Banned(Commit(db, c).rows, g) ==
      (if Accepted(db, c) then BannedAfter(c, g, Active(db.rows, g), Banned(db.rows, g)) else Banned(db.rows, g))
  {
    if Accepted(db, c) {
      forall i | 0 <= i < |db.rows| && !db.rows[i].deleted ensures db.rows[i].status == Normal {
        assert RowOk(db, db.rows[i]);
      }
      match c
      case CreateGroup(h, owner, _) => AdditionMoves(db.rows, h, owner, Owner, g);
      case EnterDirectly(h, u) => AdditionMoves(db.rows, h, u, Member, g);
      case PassApply(h, u) => AdditionMoves(db.rows, h, u, Member, g);
      case Leave(h, u) => RemovalMoves(db.rows, h, [u], Quit, g);
      case Remove(h, _, us) => RemovalMoves(db.rows, h, us, Kicked, g);
      case Dismiss(h, _) => BurialMoves(db, [h], g);
      case Delete(gs) => BurialMoves(db, gs, g);
      case _ =>
    }
  }

  // ---------------------------------------------------------------- who may

  lemma ActiveMeansLive(db: Db, g: string, u: string)
    requires Inv(db) && u in Active(db.rows, g)
    ensures Live(db, g)
  {
    var r :| r in db.rows && r.groupId == g && r.userId == u && r.status == Normal && !r.deleted;
    var i :| 0 <= i < |db.rows| && db.rows[i] == r;
    assert RowOk(db, db.rows[i]);
  }

  /** A member stops being one at their own leaving, unless they own the group; at a removal by the
      owner that names them and spares the owner; at the owner's dismissal or an administrator's
      deletion of the group: then, and in no other case. */
  lemma WhoGoes(db: Db, c: Change, g: string, u: string)
    requires Inv(db) && u in Active(db.rows, g)
    ensures Live(db, g)
    ensures var owner := db.groups[g].owner;
      u !in Active(Commit(db, c).rows, g) <==>
        || (c == Leave(g, u) && u != owner)
        || (c.Remove? && c.g == g && c.actor == owner && u in c.us && owner !in c.us)
        || c == Dismiss(g, owner)
        || (c.Delete? && g in c.gs)
  {
    ActiveMeansLive(db, g, u);
    ChangeMovesMembers(db, c, g);
  }

  /** Someone becomes a member by creating the group, by entering a live group that lets everybody
      in, or by an application that was passed; the last two unless the owner had removed them. */
  lemma WhoComesIn(db: Db, c: Change, g: string, u: string)
    requires Inv(db) && u !in Active(db.rows, g)
    ensures u in Active(Commit(db, c).rows, g) <==>
      || (c.CreateGroup? && c.g == g && c.owner == u && g !in db.groups)
      || (c == EnterDirectly(g, u) && Live(db, g) && db.groups[g].addMode == 0 && u !in Banned(db.rows, g))
      || (c == PassApply(g, u) && (g, u) in db.applications && u !in Banned(db.rows, g))
  {
    ChangeMovesMembers(db, c, g);
    RefusesExactlyTheKicked(db, g, u, Member);
    RefusesExactlyTheKicked(db, g, u, Owner);
    if u in Banned(db.rows, g) { BannedHasGroup(db, g, u); }
  }

  lemma BannedHasGroup(db: Db, g: string, u: string)
    requires Inv(db) && u in Banned(db.rows, g)
    ensures g in db.groups
  {
    var r :| r in db.rows && r.groupId == g && r.userId == u && r.status == Kicked;
    var i :| 0 <= i < |db.rows| && db.rows[i] == r;
    assert RowOk(db, db.rows[i]);
  }

  /** Only the owner's removal of a member shuts someone out, and nothing lets them in again. */
  lemma WhoIsShutOut(db: Db, c: Change, g: string, u: string)
    requires Inv(db)
    ensures u in Banned(Commit(db, c).rows, g) <==>
      || u in Banned(db.rows, g)
      || (u in Active(db.rows, g) && Live(db, g) && c.Remove? && c.g == g && c.actor == db.groups[g].owner
          && u in c.us && c.actor !in c.us)
  {
    ChangeMovesMembers(db, c, g);
  }

  /** An application stands from the moment it is made to a live group until it is dropped, the
      applicant leaves or is removed by the owner, or the group ends. */
  lemma WhoseApplicationStands(db: Db, c: Change, g: string, u: string)
    requires Inv(db)
    ensures (g, u) in Commit(db, c).applications <==>
      if (g, u) !in db.applications then c == ApplyTo(g, u) && Live(db, g)
      else
        && c != DropApplication(g, u)
        && !(c == Leave(g, u) && u != db.groups[g].owner)
        && !(c.Remove? && c.g == g && c.actor == db.groups[g].owner && u in c.us && c.actor !in c.us)
        && c != Dismiss(g, db.groups[g].owner) && !(c.Delete? && g in c.gs)
  {
    assert (g, u) in db.applications ==> Live(db, (g, u).0);
    if c.Delete? { BuryAllDrops(db, c.gs, g, u); }
  }

  lemma {:induction false} BuryAllDrops(db: Db, gs: seq<string>, g: string, u: string)
    ensures (g, u) in BuryAll(db, gs).applications <==> (g, u) in db.applications && g !in gs
  {
    if gs != [] {
      var n := |gs| - 1;
      BuryAllDrops(db, gs[..n], g, u);
      assert gs == gs[..n] + [gs[n]];
    }
  }

  /** How people enter is decided at the creation of the group, and then by its owner alone; -1 in
      an update leaves it. */
  lemma WhoSetsTheAddMode(db: Db, c: Change, g: string)
    requires g in db.groups
    ensures g in Commit(db, c).groups
    ensures Commit(db, c).groups[g].addMode ==
      if c.SetAddMode? && c.g == g && c.actor == db.groups[g].owner && Live(db, g) && c.addMode != -1 then c.addMode
      else db.groups[g].addMode
  {
    if c.Delete? { BuryAllKeepsModes(db, c.gs, g); }
  }

  lemma {:induction false} BuryAllKeepsModes(db: Db, gs: seq<string>, g: string)
    requires g in db.groups
    ensures g in BuryAll(db, gs).groups && BuryAll(db, gs).groups[g].addMode == db.groups[g].addMode
  {
    if gs != [] { BuryAllKeepsModes(db, gs[..|gs| - 1], g); }
  }

  /** A new group is its creator's, live, with the chosen mode; no other call makes one. */
  lemma WhoMakesGroups(db: Db, c: Change, g: string)
    requires Inv(db) && g !in db.groups
    ensures if c.CreateGroup? && c.g == g then g in Commit(db, c).groups && Commit(db, c).groups[g] == Group(c.owner, c.addMode, true)
            else g !in Commit(db, c).groups
  {
    if c.CreateGroup? && c.g == g {
      RefusesExactlyTheKicked(db, g, c.owner, Owner);
      if c.owner in Banned(db.rows, g) { BannedHasGroup(db, g, c.owner); }
    }
    if c.Delete? { BuryAllMakesNone(db, c.gs, g); }
  }

  lemma {:induction false} BuryAllMakesNone(db: Db, gs: seq<string>, g: string)
    requires g !in db.groups
    ensures g !in BuryAll(db, gs).groups
  {
    if gs != [] { BuryAllMakesNone(db, gs[..|gs| - 1], g); }
  }

  // ---------------------------------------------------------------- the cached member set

  /** A rebuild of the cached set that has read the table and not yet written the cache. */
  datatype Rebuild = Rebuild(
    g: string, snapshot: set<string>,
    at: nat)                             // history: how many steps came before its read

  datatype World = World(
    db: Db, cache: map<string, set<string>>,
    owed: multiset<string>,              // committed changes whose cached set is still to be deleted
    rebuilds: map<nat, Rebuild>,
    changes: seq<Option<Change>>)        // history: for each step the change it committed, if it did

  function NewWorld(): World {
    World(NewDb(), map[], multiset{}, map[], [])
  }

  datatype Step =
    | Write(c: Change)
    | Invalidate(g: string)
    | InvalidateAll(gs: seq<string>)
    | ReadMembers(r: nat, g: string)
    | WriteBack(r: nat)
    | Expire(g: string)

  /** SADD: a cached set that another rebuild has just written is added to, not replaced. */
  function Added(cache: map<string, set<string>>, g: string, members: set<string>): map<string, set<string>> {
    if members == {} then cache else cache[g := (if g in cache then cache[g] else {}) + members]
  }

  /** What a step does, apart from the history. */
  function Act(w: World, step: Step): World {
    match step
    case Write(c) => w.(db := Commit(w.db, c), owed := w.owed + Invalidates(w.db, c))
    case Invalidate(g) => if g in w.owed then w.(cache := w.cache - {g}, owed := w.owed - multiset{g}) else w
    case InvalidateAll(gs) =>
      if multiset(gs) <= w.owed then w.(cache := map[], owed := w.owed - multiset(gs)) else w
    case ReadMembers(r, g) =>
      if r in w.rebuilds then w
      else w.(rebuilds := w.rebuilds[r := Rebuild(g, Active(w.db.rows, g), |w.changes|)])
    case WriteBack(r) =>
      if r !in w.rebuilds then w
      else
        var b := w.rebuilds[r];
        w.(cache := Added(w.cache, b.g, b.snapshot), rebuilds := w.rebuilds - {r})
    case Expire(g) => w.(cache := w.cache - {g})
  }

  function Committed(w: World, step: Step): Option<Change> {
    if step.Write? && Accepted(w.db, step.c) then Some(step.c) else None
  }

  function Do(w: World, step: Step): World {
    Act(w, step).(changes := w.changes + [Committed(w, step)])
  }

  /** The world after the first k steps of a run. */
  function Run(steps: seq<Step>, k: nat): World
    requires k <= |steps|
  {
    if k == 0 then NewWorld() else Do(Run(steps, k - 1), steps[k - 1])
  }

  /** What getActiveGroupMemberIDs answers: an empty set counts as a miss. */
  function Answer(w: World, g: string): set<string> {
    if g in w.cache && w.cache[g] != {} then w.cache[g] else Active(w.db.rows, g)
  }

  /** The changes that may alter the members of g. */
  predicate Concerns(c: Change, g: string) {
    match c
    case SetAddMode(_, _, _) => false
    case ApplyTo(_, _) => false
    case DropApplication(_, _) => false
    case Delete(gs) => g in gs
    case _ => c.g == g
  }

  /** Exactly the groups an accepted change concerns have their cached set deleted afterwards, and
      no other group's members change. */
  lemma EveryChangeInvalidates(db: Db, c: Change, g: string)
    requires Inv(db)
    ensures g in Invalidates(db, c) <==> Accepted(db, c) && Concerns(c, g)
    ensures g !in Invalidates(db, c) ==> Active(Commit(db, c).rows, g) == Active(db.rows, g)
  {
    ChangeMovesMembers(db, c, g);
  }

  // ---------------------------------------------------------------- rebuilds and later changes

  function After(change: Option<Change>, g: string, members: set<string>): set<string> {
    if change.Some? then MembersAfter(change.value, g, members) else members
  }

  /** The changes of steps n to m - 1, applied to `members` in order. */
  function Replay(changes: seq<Option<Change>>, n: nat, m: nat, g: string, members: set<string>): set<string>
    requires m <= |changes|
    decreases m
  {
    if m <= n then members else After(changes[m - 1], g, Replay(changes, n, m - 1, g, members))
  }

  lemma {:induction false} ReplayExtends(changes: seq<Option<Change>>, x: Option<Change>, n: nat, m: nat, g: string, members: set<string>)
    requires m <= |changes|
    ensures Replay(changes + [x], n, m, g, members) == Replay(changes, n, m, g, members)
  {
    if m > n { ReplayExtends(changes, x, n, m - 1, g, members); }
  }

  /** An accepted change that concerns g was committed at step n or later. */
  ghost predicate TouchedSince(changes: seq<Option<Change>>, n: nat, g: string) {
    exists k :: n <= k < |changes| && changes[k].Some? && Concerns(changes[k].value, g)
  }

  lemma {:induction false} UntouchedReplay(changes: seq<Option<Change>>, n: nat, m: nat, g: string, members: set<string>)
    requires m <= |changes| && !TouchedSince(changes, n, g)
    ensures Replay(changes, n, m, g, members) == members
  {
    if m > n { UntouchedReplay(changes, n, m - 1, g, members); }
  }

  /** A rebuild holds what the table said at its read: the accepted changes since then lead from
      that to the members of now. */
  ghost predicate Dated(w: World, b: Rebuild) {
    b.at <= |w.changes| && Active(w.db.rows, b.g) == Replay(w.changes, b.at, |w.changes|, b.g, b.snapshot)
  }

  lemma MembersMove(w: World, step: Step, g: string)
    requires Inv(w.db)
    ensures Active(Do(w, step).db.rows, g) == After(Committed(w, step), g, Active(w.db.rows, g))
  {
    if step.Write? { ChangeMovesMembers(w.db, step.c, g); }
  }

  lemma StepKeepsDated(w: World, step: Step, b: Rebuild)
    requires Inv(w.db) && Dated(w, b)
    ensures Dated(Do(w, step), b)
  {
    MembersMove(w, step, b.g);
    ReplayExtends(w.changes, Committed(w, step), b.at, |w.changes|, b.g, b.snapshot);
  }

  lemma NewRebuildIsDated(w: World, r: nat, g: string)
    requires r !in w.rebuilds
    ensures Dated(Do(w, ReadMembers(r, g)), Do(w, ReadMembers(r, g)).rebuilds[r])
  {
    var x: Option<Change> := None;
    assert Replay(w.changes + [x], |w.changes|, |w.changes|, g, Active(w.db.rows, g)) == Active(w.db.rows, g);
  }

  /** The table's invariant, and every rebuild under way is dated. */
  ghost predicate WorldInv(w: World) {
    Inv(w.db) && forall r :: r in w.rebuilds ==> Dated(w, w.rebuilds[r])
  }

  lemma StepKeepsWorld(w: World, step: Step)
    requires WorldInv(w)
    ensures WorldInv(Do(w, step))
  {
    if step.Write? { CommitKeepsInv(w.db, step.c); }
    forall r | r in Do(w, step).rebuilds ensures Dated(Do(w, step), Do(w, step).rebuilds[r]) {
      if r in w.rebuilds { StepKeepsDated(w, step, w.rebuilds[r]); } else { NewRebuildIsDated(w, step.r, step.g); }
    }
  }

  lemma {:induction false} EveryRunKeepsWorld(steps: seq<Step>, k: nat)
    requires k <= |steps|
    ensures WorldInv(Run(steps, k))
  {
    if k > 0 {
      EveryRunKeepsWorld(steps, k - 1);
      StepKeepsWorld(Run(steps, k - 1), steps[k - 1]);
    }
  }

  lemma WriteBackIntoNothing(w: World, r: nat)
    requires r in w.rebuilds && w.rebuilds[r].g !in w.cache
    ensures var b, after := w.rebuilds[r], Do(w, WriteBack(r));
      && after.db == w.db && Answer(after, b.g) == if b.snapshot == {} then Active(w.db.rows, b.g) else b.snapshot
  {
    assert {} + w.rebuilds[r].snapshot == w.rebuilds[r].snapshot;
  }

  /**
   In every run, for a rebuild that writes into a missing entry: unless it read nobody, the answer
   after it is right if and only if the changes committed since its read, applied in order to what
   it read, lead back to that.
   */
  lemma WriteBackIsRightIff(steps: seq<Step>, k: nat, r: nat)
    requires k <= |steps| && r in Run(steps, k).rebuilds && Run(steps, k).rebuilds[r].g !in Run(steps, k).cache
    ensures var w := Run(steps, k);
      var b, after := w.rebuilds[r], Do(w, WriteBack(r));
      Answer(after, b.g) == Active(after.db.rows, b.g) <==>
        b.snapshot == {} || Replay(w.changes, b.at, |w.changes|, b.g, b.snapshot) == b.snapshot
  {
    EveryRunKeepsWorld(steps, k);
    assert Dated(Run(steps, k), Run(steps, k).rebuilds[r]);
    WriteBackIntoNothing(Run(steps, k), r);
  }

  // ---------------------------------------------------------------- when the cached set is exact

  /** Which rebuild of group g the step writes back, if it does. */
  ghost predicate WritesBack(w: World, step: Step, g: string) {
    step.WriteBack? && step.r in w.rebuilds && w.rebuilds[step.r].g == g
  }

  /** The step writes back a rebuild of g although, since its read, a change of g was committed
      and every change of g so far has had its cached set deleted. */
  ghost predicate Late(w: World, step: Step, g: string) {
    WritesBack(w, step, g) && TouchedSince(w.changes, w.rebuilds[step.r].at, g) && g !in w.owed
  }

  ghost predicate LateAt(steps: seq<Step>, k: nat, g: string) {
    k < |steps| && Late(Run(steps, k), steps[k], g)
  }

  ghost predicate Exact(w: World, g: string) {
    g in w.cache && g !in w.owed ==> w.cache[g] == Active(w.db.rows, g)
  }

  /** Where a cached set that nobody will delete comes from: it was there before, or is written now. */
  lemma CachedBefore(w: World, step: Step, g: string)
    requires g in Do(w, step).cache && g !in Do(w, step).owed
    requires !WritesBack(w, step, g)
    ensures g in w.cache && w.cache[g] == Do(w, step).cache[g] && g !in w.owed
    ensures step.Write? ==> g !in Invalidates(w.db, step.c)
  {
  }

  lemma WrittenBackIs(w: World, r: nat)
    requires r in w.rebuilds
    ensures var after, b := Do(w, WriteBack(r)), w.rebuilds[r];
      && after.db == w.db && after.owed == w.owed
      && (b.g in after.cache ==> after.cache[b.g] == (if b.g in w.cache then w.cache[b.g] else {}) + b.snapshot)
  {
  }

  lemma StepKeepsExact(w: World, step: Step, g: string)
    requires WorldInv(w) && Exact(w, g) && !Late(w, step, g)
    ensures Exact(Do(w, step), g)
  {
    if g in Do(w, step).cache && g !in Do(w, step).owed {
      if WritesBack(w, step, g) {
        WrittenBackIs(w, step.r);
        assert Dated(w, w.rebuilds[step.r]);
        UntouchedReplay(w.changes, w.rebuilds[step.r].at, |w.changes|, g, w.rebuilds[step.r].snapshot);
      } else {
        CachedBefore(w, step, g);
        if step.Write? { EveryChangeInvalidates(w.db, step.c, g); }
      }
    }
  }

  lemma StepInRunKeepsExact(steps: seq<Step>, k: nat, g: string)
    requires k < |steps| && Exact(Run(steps, k), g) && !LateAt(steps, k, g)
    ensures Exact(Run(steps, k + 1), g)
  {
    EveryRunKeepsWorld(steps, k);
    StepKeepsExact(Run(steps, k), steps[k], g);
  }

  ghost predicate CachesSomebody(w: World) {
    forall g :: g in w.cache ==> w.cache[g] != {}
  }

  lemma StepCachesSomebody(w: World, step: Step)
    requires CachesSomebody(w)
    ensures CachesSomebody(Do(w, step))
  {
  }

  /** A cached set is never empty: an empty one could not be told from a miss. */
  lemma {:induction false} EveryRunCachesSomebody(steps: seq<Step>, k: nat)
    requires k <= |steps|
    ensures CachesSomebody(Run(steps, k))
  {
    if k > 0 {
      EveryRunCachesSomebody(steps, k - 1);
      StepCachesSomebody(Run(steps, k - 1), steps[k - 1]);
    }
  }

  /** The table starts empty; a written change does to it what it does without a cache, and no other
      step touches it. */
  lemma OnlyWritesMoveTheTable(steps: seq<Step>, k: nat)
    requires k < |steps|
    ensures Run(steps, 0).db == NewDb()
    ensures Run(steps, k + 1).db == if steps[k].Write? then Commit(Run(steps, k).db, steps[k].c) else Run(steps, k).db
  {
  }

  /**
   Every interleaving of changes, deletions of cached sets, rebuilds and expiry, for each group on
   its own: if no rebuild of the group writes back after a change that came after its read and was
   already followed by its deletion of the cached set, then whenever no such deletion is
   outstanding a cached set is exact.
   */
  lemma {:induction false} EveryRunKeepsCache(steps: seq<Step>, k: nat, g: string)
    requires k <= |steps| && forall j :: 0 <= j < k ==> !LateAt(steps, j, g)
    ensures Exact(Run(steps, k), g)
  {
    if k > 0 {
      EveryRunKeepsCache(steps, k - 1, g);
      StepInRunKeepsExact(steps, k - 1, g);
    }
  }

  lemma MembersAreExactUnlessLate(steps: seq<Step>, k: nat, g: string)
    requires k <= |steps| && forall j :: 0 <= j < k ==> !LateAt(steps, j, g)
    requires g !in Run(steps, k).owed
    ensures Answer(Run(steps, k), g) == Active(Run(steps, k).db.rows, g)
  {
    EveryRunKeepsCache(steps, k, g);
  }

  // ---------------------------------------------------------------- what the cached set holds

  predicate Clears(w: World, step: Step, g: string) {
    match step
    case Invalidate(h) => h == g && g in w.owed
    case InvalidateAll(gs) => multiset(gs) <= w.owed
    case Expire(h) => h == g
    case _ => false
  }

  ghost predicate ClearedAt(steps: seq<Step>, k: nat, g: string) {
    k < |steps| && Clears(Run(steps, k), steps[k], g)
  }

  ghost predicate ClearedSince(steps: seq<Step>, j: nat, m: nat, g: string)
    requires m <= |steps|
  {
    exists k :: j < k < m && ClearedAt(steps, k, g)
  }

  /** Step j wrote back a rebuild of g that had read u as a member. */
  ghost predicate Wrote(steps: seq<Step>, j: nat, g: string, u: string)
    requires j < |steps|
  {
    WritesBack(Run(steps, j), steps[j], g) && u in Run(steps, j).rebuilds[steps[j].r].snapshot
  }

  ghost predicate Holds(steps: seq<Step>, m: nat, g: string, u: string)
    requires m <= |steps|
  {
    exists j :: 0 <= j < m && Wrote(steps, j, g, u) && !ClearedSince(steps, j, m, g)
  }

  /** Of a thing that is put down and cleared again: whether it lies there after m steps. */
  ghost predicate Lies(put: seq<bool>, cleared: seq<bool>, m: nat)
    requires m <= |put| && m <= |cleared|
  {
    m > 0 && (put[m - 1] || (Lies(put, cleared, m - 1) && !cleared[m - 1]))
  }

  lemma {:induction false} LiesIfPutSince(put: seq<bool>, cleared: seq<bool>, m: nat)
    requires m <= |put| && m <= |cleared|
    ensures Lies(put, cleared, m) <==> exists j :: 0 <= j < m && put[j] && forall k :: j < k < m ==> !cleared[k]
  {
    if m > 0 {
      LiesIfPutSince(put, cleared, m - 1);
      if Lies(put, cleared, m - 1) && !cleared[m - 1] {
        var j :| 0 <= j < m - 1 && put[j] && forall k :: j < k < m - 1 ==> !cleared[k];
        assert put[j] && forall k :: j < k < m ==> !cleared[k];
      }
    }
  }

  lemma CachedAfter(w: World, step: Step, g: string, u: string)
    ensures (g in Do(w, step).cache && u in Do(w, step).cache[g]) <==>
      (WritesBack(w, step, g) && u in w.rebuilds[step.r].snapshot)
      || (g in w.cache && u in w.cache[g] && !Clears(w, step, g))
  {
  }

  ghost predicate CachedAt(steps: seq<Step>, m: nat, g: string, u: string) {
    m <= |steps| && g in Run(steps, m).cache && u in Run(steps, m).cache[g]
  }

  lemma CachedNext(steps: seq<Step>, m: nat, g: string, u: string)
    requires 0 < m <= |steps|
    ensures CachedAt(steps, m, g, u) <==>
      Wrote(steps, m - 1, g, u) || (CachedAt(steps, m - 1, g, u) && !ClearedAt(steps, m - 1, g))
  {
    CachedAfter(Run(steps, m - 1), steps[m - 1], g, u);
  }

  lemma {:induction false} CachedLies(steps: seq<Step>, m: nat, g: string, u: string, put: seq<bool>, cleared: seq<bool>)
    requires m <= |steps| == |put| == |cleared|
    requires forall i :: 0 <= i < |steps| ==> put[i] == Wrote(steps, i, g, u) && cleared[i] == ClearedAt(steps, i, g)
    ensures CachedAt(steps, m, g, u) <==> Lies(put, cleared, m)
  {
    if m > 0 {
      CachedLies(steps, m - 1, g, u, put, cleared);
      CachedNext(steps, m, g, u);
      assert put[m - 1] == Wrote(steps, m - 1, g, u) && cleared[m - 1] == ClearedAt(steps, m - 1, g);
    }
  }

  lemma LiesIsHolds(steps: seq<Step>, m: nat, g: string, u: string, put: seq<bool>, cleared: seq<bool>)
    requires m <= |steps| == |put| == |cleared|
    requires forall i :: 0 <= i < |steps| ==> put[i] == Wrote(steps, i, g, u) && cleared[i] == ClearedAt(steps, i, g)
    ensures Lies(put, cleared, m) <==> Holds(steps, m, g, u)
  {
    LiesIfPutSince(put, cleared, m);
    if Lies(put, cleared, m) {
      var j :| 0 <= j < m && put[j] && forall k :: j < k < m ==> !cleared[k];
      assert Wrote(steps, j, g, u) && !ClearedSince(steps, j, m, g);
    }
    if Holds(steps, m, g, u) {
      var j :| 0 <= j < m && Wrote(steps, j, g, u) && !ClearedSince(steps, j, m, g);
      assert put[j] && forall k :: j < k < m ==> !cleared[k];
    }
  }

  /** In every run, exactly: someone is in a group's cached set if and only if a rebuild that read
      them as a member was written back and the set has not been deleted since. */
  lemma CachedIffReadBefore(steps: seq<Step>, m: nat, g: string, u: string)
    requires m <= |steps|
    ensures CachedAt(steps, m, g, u) <==> Holds(steps, m, g, u)
  {
    var put := seq(|steps|, i requires 0 <= i < |steps| => Wrote(steps, i, g, u));
    var cleared := seq(|steps|, i requires 0 <= i < |steps| => ClearedAt(steps, i, g));
    CachedLies(steps, m, g, u, put, cleared);
    LiesIsHolds(steps, m, g, u, put, cleared);
  }

  /** So the answer is wrong about u if and only if either u is no longer a member, and a rebuild
      that read u was written back since the last deletion; or u is a member, and every rebuild
      written back since then, at least one, had read the table without u. */
  lemma AnsweredWronglyIff(steps: seq<Step>, m: nat, g: string, u: string)
    requires m <= |steps|
    ensures (u in Answer(Run(steps, m), g)) != (u in Active(Run(steps, m).db.rows, g)) <==>
      if u in Active(Run(steps, m).db.rows, g) then !Holds(steps, m, g, u) && exists x :: Holds(steps, m, g, x)
      else Holds(steps, m, g, u)
  {
    forall x ensures (g in Run(steps, m).cache && x in Run(steps, m).cache[g]) <==> Holds(steps, m, g, x) {
      CachedIffReadBefore(steps, m, g, x);
      assert CachedAt(steps, m, g, x) <==> g in Run(steps, m).cache && x in Run(steps, m).cache[g];
    }
  }

  lemma WriteBackAdds(w: World, r: nat, u: string)
    requires r in w.rebuilds && u in w.rebuilds[r].snapshot
    ensures u in Answer(Do(w, WriteBack(r)), w.rebuilds[r].g)
  {
  }

  lemma ChangesLeaveRebuilds(w: World, c: Change, g: string)
    ensures Do(Do(w, Write(c)), Invalidate(g)).rebuilds == w.rebuilds
    ensures Do(Do(w, Write(c)), Invalidate(g)).db == Commit(w.db, c)
  {
  }

  lemma RemovalRemoves(db: Db, g: string, u: string)
    requires Live(db, g) && u != db.groups[g].owner
    ensures u !in Active(Commit(db, Remove(g, db.groups[g].owner, [u])).rows, g)
  {
  }

  /**
   The counterexample, from any state: a rebuild that read before a removal and writes after its
   invalidation leaves the removed member among the members answered.
   */
  lemma RemovedMemberCanStayCached(w: World, r: nat, g: string, u: string)
    requires Live(w.db, g) && r !in w.rebuilds
    requires u != w.db.groups[g].owner && u in Active(w.db.rows, g)
    ensures var removal := Remove(g, w.db.groups[g].owner, [u]);
      var end := Do(Do(Do(Do(w, ReadMembers(r, g)), Write(removal)), Invalidate(g)), WriteBack(r));
      u in Answer(end, g) && u !in Active(end.db.rows, g)
  {
    var removal := Remove(g, w.db.groups[g].owner, [u]);
    var w1 := Do(w, ReadMembers(r, g));
    var w3 := Do(Do(w1, Write(removal)), Invalidate(g));
    ChangesLeaveRebuilds(w1, removal, g);
    RemovalRemoves(w.db, g, u);
    WriteBackAdds(w3, r, u);
  }

  // ---------------------------------------------------------------- the service

  ghost predicate Sound(db: Db, cache: map<string, set<string>>) {
    Inv(db) && forall g :: g in cache ==> cache[g] != {} && cache[g] == Active(db.rows, g)
  }

  /** A committed call and the deletion of its one cached set, as a step without interruption. */
  lemma CallKeepsSound(db: Db, cache: map<string, set<string>>, c: Change)
    requires Sound(db, cache) && !c.Delete? && !c.SetAddMode? && !c.ApplyTo? && !c.DropApplication?
    ensures Sound(Commit(db, c), if Accepted(db, c) then cache - {c.g} else cache)
  {
    CommitKeepsInv(db, c);
    forall g | g in cache && (Accepted(db, c) ==> g != c.g) ensures cache[g] == Active(Commit(db, c).rows, g) {
      EveryChangeInvalidates(db, c, g);
    }
  }

  /**
   The membership calls as the services make them, one after the other: `cache` is the Redis
   sets, the other fields are the tables. A method returns whether the call succeeded.
   */
  class GroupService {
    var groups: map<string, Group>
    var rows: seq<Row>
    var applications: set<(string, string)>
    var cache: map<string, set<string>>
    ghost var joined: set<(string, string)>

    ghost function State(): Db
      reads this
    {
      Db(groups, rows, applications, joined)
    }

    /** What calls that do not overlap keep: the table's invariant and an exact cached set. */
    ghost predicate Valid()
      reads this
    {
      Sound(State(), cache)
    }

    constructor ()
      ensures Valid() && State() == NewDb() && cache == map[]
    {
      groups, rows, applications, cache, joined := map[], [], {}, map[], {};
    }

    method AddMember(g: string, u: string, role: Role) returns (ok: bool)
      modifies `rows
      ensures ok == WithMember(old(rows), g, u, role).Some?
      ensures rows == if ok then WithMember(old(rows), g, u, role).value else old(rows)
    {
      if Latest(rows, g, u, false).Some? {
        rows := Refresh(rows, g, u, role);
        return true;
      }
      var history := Latest(rows, g, u, true);
      if history.Some? {
        if rows[history.value].status == Kicked { return false; }
        rows := rows[history.value := rows[history.value].(status := Normal, role := role, deleted := false)];
        return true;
      }
      rows := rows + [Row(g, u, role, Normal, false)];
      return true;
    }

    method CreateGroup(g: string, owner: string, addMode: int) returns (ok: bool)
      requires Valid()
      modifies this
      ensures Valid() && State() == Commit(old(State()), Change.CreateGroup(g, owner, addMode))
      ensures ok == Accepted(old(State()), Change.CreateGroup(g, owner, addMode))
      ensures cache == if ok then old(cache) - {g} else old(cache)
    {
      CallKeepsSound(State(), cache, Change.CreateGroup(g, owner, addMode));
      if g in groups { return false; }
      ok := AddMember(g, owner, Owner);
      if ok {
        groups := groups[g := Group(owner, addMode, true)];
        cache := cache - {g};
      }
    }

    method EnterGroupDirectly(g: string, u: string) returns (ok: bool)
      requires Valid()
      modifies this
      ensures Valid() && State() == Commit(old(State()), EnterDirectly(g, u))
      ensures ok == Accepted(old(State()), EnterDirectly(g, u))
      ensures cache == if ok then old(cache) - {g} else old(cache)
    {
      CallKeepsSound(State(), cache, EnterDirectly(g, u));
      if g !in groups || !groups[g].live || groups[g].addMode != 0 { return false; }
      ok := AddMember(g, u, Member);
      if ok {
        joined := joined + {(g, u)};
        cache := cache - {g};
      }
    }

    method PassContactApply(g: string, u: string) returns (ok: bool)
      requires Valid()
      modifies this
      ensures Valid() && State() == Commit(old(State()), PassApply(g, u))
      ensures ok == Accepted(old(State()), PassApply(g, u))
      ensures cache == if ok then old(cache) - {g} else old(cache)
    {
      ghost var was := State();
      CallKeepsSound(was, cache, PassApply(g, u));
      if (g, u) !in applications { return false; }
      ok := AddMember(g, u, Member);
      if ok {
        joined := joined + {(g, u)};
        assert State() == Commit(was, PassApply(g, u));
        cache := cache - {g};
      }
    }

    method LeaveGroup(g: string, u: string) returns (ok: bool)
      requires Valid()
      modifies this
      ensures Valid() && State() == Commit(old(State()), Leave(g, u))
      ensures ok == Accepted(old(State()), Leave(g, u))
      ensures cache == if ok then old(cache) - {g} else old(cache)
    {
      ghost var was := State();
      CallKeepsSound(was, cache, Leave(g, u));
      if g !in groups || !groups[g].live || groups[g].owner == u { return false; }
      rows := Retire(rows, g, u, Quit);
      applications := applications - {(g, u)};
      assert State() == Commit(was, Leave(g, u));
      cache := cache - {g};
      return true;
    }

    /** The transaction of RemoveGroupMembers: each target is removed in turn. */
    method Expel(g: string, us: seq<string>)
      modifies `rows, `applications
      ensures rows == RetireAll(old(rows), g, us, Kicked)
      ensures applications == set a | a in old(applications) && !(a.0 == g && a.1 in us)
    {
      var i := 0;
      while i < |us|
        invariant i <= |us|
        invariant rows == RetireAll(old(rows), g, us[..i], Kicked)
        invariant applications == set a | a in old(applications) && !(a.0 == g && a.1 in us[..i])
      {
        assert us[..i + 1][..i] == us[..i];
        rows := Retire(rows, g, us[i], Kicked);
        applications := applications - {(g, us[i])};
        i := i + 1;
      }
      assert us[..|us|] == us;
    }

    /** The owner must not be among the targets. */
    method RemoveGroupMembers(g: string, actor: string, us: seq<string>) returns (ok: bool)
      requires Valid()
      modifies this
      ensures Valid() && State() == Commit(old(State()), Remove(g, actor, us))
      ensures ok == Accepted(old(State()), Remove(g, actor, us))
      ensures cache == if ok then old(cache) - {g} else old(cache)
    {
      ghost var was := State();
      CallKeepsSound(was, cache, Remove(g, actor, us));
      if g !in groups || !groups[g].live || groups[g].owner != actor { return false; }
      var i := 0;
      while i < |us|
        invariant i <= |us| && actor !in us[..i]
      {
        if us[i] == actor { return false; }
        i := i + 1;
      }
      assert us[..|us|] == us;
      Expel(g, us);
      assert State() == Commit(was, Remove(g, actor, us));
      cache := cache - {g};
      return true;
    }

    method BuryGroup(g: string)
      modifies `groups, `rows, `applications
      ensures State() == Bury(old(State()), g)
    {
      if g in groups { groups := groups[g := groups[g].(live := false)]; }
      rows := Dissolve(rows, g);
      applications := set a | a in applications && a.0 != g;
    }

    method DismissGroup(g: string, actor: string) returns (ok: bool)
      requires Valid()
      modifies this
      ensures Valid() && State() == Commit(old(State()), Dismiss(g, actor))
      ensures ok == Accepted(old(State()), Dismiss(g, actor))
      ensures cache == if ok then old(cache) - {g} else old(cache)
    {
      CallKeepsSound(State(), cache, Dismiss(g, actor));
      if g !in groups || !groups[g].live || groups[g].owner != actor { return false; }
      BuryGroup(g);
      cache := cache - {g};
      return true;
    }

    /** The administrator's call: no check, one group after the other, then every cached set goes. */
    method DeleteGroups(gs: seq<string>)
      requires Valid()
      modifies this
      ensures Valid() && State() == Commit(old(State()), Delete(gs)) && cache == map[]
    {
      CommitKeepsInv(State(), Delete(gs));
      var i := 0;
      while i < |gs|
        modifies `groups, `rows, `applications
        invariant i <= |gs|
        invariant State() == BuryAll(old(State()), gs[..i])
      {
        assert gs[..i + 1][..i] == gs[..i];
        BuryGroup(gs[i]);
        i := i + 1;
      }
      assert gs[..|gs|] == gs;
      cache := map[];
    }

    /**
     Redis may fail the read, which falls back to the table, or the write, which is ignored.
     Either way the members answered are the active ones.
     */
    method GetActiveGroupMemberIds(g: string, redisReads: bool, redisWrites: bool) returns (members: set<string>)
      requires Valid()
      modifies `cache
      ensures Valid() && members == Active(rows, g)
      ensures cache == old(cache) || (members != {} && cache == old(cache)[g := members])
    {
      if redisReads && g in cache && cache[g] != {} { return cache[g]; }
      members := Active(rows, g);
      assert (if g in cache then cache[g] else {}) + members == members;
      if members != {} && redisWrites { cache := Added(cache, g, members); }
    }
  }
}
