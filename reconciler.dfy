/**
 * The record reconciler shared by the scraper and the chat feeds: how one
 * observation (user id, category, roles) merges into the Users and Imports
 * tables. The tables are finite maps keyed as their primary and unique keys are.
 */
module Reconciler {
  import opened Wrappers
  import opened Categories

  /** Placeholders written for a user seen for the first time. */
  const PlaceholderUsername: string := "EMPTY"
  const DefaultAvatar: string := "https://cdn.discordapp.com/embed/avatars/0.png"

  /** A row of Users, keyed by user id. */
  datatype UserRow = UserRow(lastUsername: string, avatar: string, category: string, status: Status)

  /** The unique key (id, server) of Imports. */
  datatype ImportKey = ImportKey(id: string, server: string)

  /** A row of Imports; timestamps are readings of an abstract clock. */
  datatype ImportRow = ImportRow(category: string, roles: string, appealed: bool,
                                 createdAt: int, updatedAt: int, reason: string)

  /** The three tables: BadServers (id -> category), Users and Imports. */
  datatype Tables = Tables(badServers: map<string, string>,
                           users: map<string, UserRow>,
                           imports: map<ImportKey, ImportRow>)

  /** What one reconciliation did with the import row, or that it was whitelisted. */
  datatype Outcome = Added | Updated | WhitelistSkip

  datatype Reconciled = Reconciled(tables: Tables, outcome: Outcome)

  /** The sum of the lengths of the given strings. */
  function TotalLength(ss: seq<string>): nat
  {
    if ss == [] then 0 else |ss[0]| + TotalLength(ss[1..])
  }

  /** The roles as stored: joined by ", ", and the empty string for no roles. */
  function JoinRoles(roles: seq<string>): (r: string)
    ensures roles == [] ==> r == ""
    ensures |roles| == 1 ==> r == roles[0]
    ensures |r| == TotalLength(roles) + (if roles == [] then 0 else 2 * (|roles| - 1))
  {
    if roles == [] then ""
    else if |roles| == 1 then roles[0]
    else roles[0] + ", " + JoinRoles(roles[1..])
  }

  /**
   * Joining splits at any point into the two joins with one ", " between them;
   * with the one-role case this fixes the whole joined string.
   */
  lemma {:induction false} JoinRolesAppend(a: seq<string>, b: seq<string>)
    requires a != [] && b != []
    ensures JoinRoles(a + b) == JoinRoles(a) + ", " + JoinRoles(b)
    decreases |a|
  {
    assert (a + b)[0] == a[0];
    if |a| == 1 {
      assert (a + b)[1..] == b;
    } else {
      assert (a + b)[1..] == a[1..] + b;
      JoinRolesAppend(a[1..], b);
    }
  }

  /** The Users row written for an observation of category `t`, given the stored row. */
  function WrittenUser(current: Option<UserRow>, t: string): (u: UserRow)
    ensures u.status == Blacklisted || u.status == PermBlacklisted
  {
    match current
    case None => UserRow(PlaceholderUsername, DefaultAvatar, t, DeriveStatus(t, None))
    case Some(row) =>
      var status := DeriveStatus(t, Some(row.status));
      if Rank(t) > Rank(row.category) then row.(category := t, status := status)
      else row.(status := status)
  }

  /** The Imports row written for an observation of category `t` with joined roles `roles`. */
  function WrittenImport(current: Option<ImportRow>, t: string, roles: string, now: int): (r: ImportRow)
    ensures r.roles == roles && !r.appealed && r.updatedAt == now
    ensures current.None? ==> r.category == t && r.createdAt == now && r.reason == ""
    ensures current.Some? ==>
              && r.createdAt == current.value.createdAt && r.reason == current.value.reason
              && (r.category == t <==> Rank(t) > Rank(current.value.category) || t == current.value.category)
              && (r.category != t ==> r.category == current.value.category)
  {
    match current
    case None => ImportRow(t, roles, false, now, now, "")
    case Some(row) =>
      if Rank(t) > Rank(row.category) then row.(category := t, roles := roles, updatedAt := now, appealed := false)
      else row.(roles := roles, appealed := false, updatedAt := now)
  }

  /**
   * Merges the observation (id, t, roles) in server `serverId` at time `now`,
   * once the server is known to exist and the record is complete: a whitelisted
   * user changes nothing; otherwise the Users row and the (id, serverId) Imports
   * row are upserted, and the outcome says whether the import row was new.
   */
  function Reconcile(db: Tables, serverId: string, id: string, t: string, roles: seq<string>, now: int): (r: Reconciled)
    ensures r.tables.badServers == db.badServers
    ensures r.outcome == WhitelistSkip <==> id in db.users && db.users[id].status == Whitelisted
    ensures r.outcome == WhitelistSkip ==> r.tables == db
    ensures r.outcome != WhitelistSkip ==>
              && r.tables.users.Keys == db.users.Keys + {id}
              && r.tables.imports.Keys == db.imports.Keys + {ImportKey(id, serverId)}
    ensures r.outcome == Added <==> r.outcome != WhitelistSkip && ImportKey(id, serverId) !in db.imports
    ensures forall u :: u in db.users && u != id ==> r.tables.users[u] == db.users[u]
    ensures forall k :: k in db.imports && k != ImportKey(id, serverId) ==> r.tables.imports[k] == db.imports[k]
  {
    if id in db.users && db.users[id].status == Whitelisted then
      Reconciled(db, WhitelistSkip)
    else
      var key := ImportKey(id, serverId);
      var user := WrittenUser(Lookup(db.users, id), t);
      var row := WrittenImport(Lookup(db.imports, key), t, JoinRoles(roles), now);
      Reconciled(Tables(db.badServers, db.users[id := user], db.imports[key := row]),
                 if key in db.imports then Updated else Added)
  }

  /** Whether `id` is stored with the whitelisted status. */
  predicate IsWhitelisted(db: Tables, id: string)
  {
    id in db.users && db.users[id].status == Whitelisted
  }

  /**
   * The status written: permanent exactly when the category is supporter or owner
   * or the stored status already was permanent; blacklisted otherwise.
   */
  lemma ReconcileStatus(db: Tables, serverId: string, id: string, t: string, roles: seq<string>, now: int)
    requires !IsWhitelisted(db, id)
    ensures var s := Reconcile(db, serverId, id, t, roles, now).tables.users[id].status;
            && (s == PermBlacklisted <==> IsPermanentType(t) || (id in db.users && db.users[id].status == PermBlacklisted))
            && (s == Blacklisted <==> !(IsPermanentType(t) || (id in db.users && db.users[id].status == PermBlacklisted)))
  {
  }

  /**
   * A new user is inserted with the observed category and the placeholders; a
   * stored user keeps name and avatar and has its category replaced only by a
   * strictly higher-ranked one, so its rank becomes the larger of the two.
   */
  lemma ReconcileUserRow(db: Tables, serverId: string, id: string, t: string, roles: seq<string>, now: int)
    requires !IsWhitelisted(db, id)
    ensures var u := Reconcile(db, serverId, id, t, roles, now).tables.users[id];
            && (id !in db.users ==> u.lastUsername == PlaceholderUsername && u.avatar == DefaultAvatar && u.category == t)
            && (id in db.users ==>
                  && u.lastUsername == db.users[id].lastUsername
                  && u.avatar == db.users[id].avatar
                  && (u.category == t <== Rank(t) > Rank(db.users[id].category))
                  && (u.category == db.users[id].category <== Rank(t) <= Rank(db.users[id].category))
                  && Rank(u.category) == Max(Rank(t), Rank(db.users[id].category)))
  {
  }

  function Max(a: int, b: int): (m: int)
    ensures m >= a && m >= b && (m == a || m == b)
  {
    if a >= b then a else b
  }

  /**
   * The (id, serverId) import row: a stored row gets the joined roles, is marked
   * unappealed, is stamped `now` and has its category replaced only by a strictly
   * higher-ranked one (outcome Updated); a missing row is inserted unappealed with
   * both stamps `now` and an empty reason (outcome Added).
   */
  lemma ReconcileImportRow(db: Tables, serverId: string, id: string, t: string, roles: seq<string>, now: int)
    requires !IsWhitelisted(db, id)
    ensures var r := Reconcile(db, serverId, id, t, roles, now);
            var key := ImportKey(id, serverId);
            var row := r.tables.imports[key];
            && row.roles == JoinRoles(roles) && !row.appealed && row.updatedAt == now
            && (key in db.imports ==>
                  && r.outcome == Updated
                  && row.createdAt == db.imports[key].createdAt
                  && row.reason == db.imports[key].reason
                  && row.category == (if Rank(t) > Rank(db.imports[key].category) then t else db.imports[key].category))
            && (key !in db.imports ==> r.outcome == Added && row == ImportRow(t, JoinRoles(roles), false, now, now, ""))
  {
  }

  /** Writing the same category twice leaves the user row as the first write left it. */
  lemma WrittenUserIdempotent(current: Option<UserRow>, t: string)
    ensures WrittenUser(Some(WrittenUser(current, t)), t) == WrittenUser(current, t)
  {
    var once := WrittenUser(current, t);
    assert DeriveStatus(t, Some(once.status)) == once.status;
    assert Rank(t) <= Rank(once.category);
  }

  /** Writing the same observation twice at the same time leaves the import row as the first write left it. */
  lemma WrittenImportIdempotent(current: Option<ImportRow>, t: string, roles: string, now: int)
    ensures WrittenImport(Some(WrittenImport(current, t, roles, now)), t, roles, now) == WrittenImport(current, t, roles, now)
  {
  }

  /** Reconciling the same observation again at the same time changes no table. */
  lemma {:induction false} ReconcileIdempotent(db: Tables, serverId: string, id: string, t: string, roles: seq<string>, now: int)
    ensures var once := Reconcile(db, serverId, id, t, roles, now).tables;
            Reconcile(once, serverId, id, t, roles, now).tables == once
  {
    if !IsWhitelisted(db, id) {
      var key := ImportKey(id, serverId);
      var u1 := WrittenUser(Lookup(db.users, id), t);
      var r1 := WrittenImport(Lookup(db.imports, key), t, JoinRoles(roles), now);
      var once := Tables(db.badServers, db.users[id := u1], db.imports[key := r1]);
      ReconcileWrites(db, serverId, id, t, roles, now);
      WrittenUserIdempotent(Lookup(db.users, id), t);
      WrittenImportIdempotent(Lookup(db.imports, key), t, JoinRoles(roles), now);
      ReconcileWrites(once, serverId, id, t, roles, now);
    }
  }

  /** A reconciliation of a user who is not whitelisted writes exactly the user row and the import row. */
  lemma ReconcileWrites(db: Tables, serverId: string, id: string, t: string, roles: seq<string>, now: int)
    requires !IsWhitelisted(db, id)
    ensures var key := ImportKey(id, serverId);
            Reconcile(db, serverId, id, t, roles, now).tables
            == Tables(db.badServers, db.users[id := WrittenUser(Lookup(db.users, id), t)],
                      db.imports[key := WrittenImport(Lookup(db.imports, key), t, JoinRoles(roles), now)])
  {
  }

  /**
   * Precedence: a fresh user observed with two known categories in either order
   * ends with the more severe one.
   */
  lemma {:induction false} ReconcilePrecedence(db: Tables, serverId: string, id: string, a: string, b: string,
                                               roles: seq<string>, now: int)
    requires id !in db.users
    requires Rank(a) < Rank(b)
    ensures var ab := Reconcile(Reconcile(db, serverId, id, a, roles, now).tables, serverId, id, b, roles, now);
            ab.tables.users[id].category == b
    ensures var ba := Reconcile(Reconcile(db, serverId, id, b, roles, now).tables, serverId, id, a, roles, now);
            ba.tables.users[id].category == b
  {
    ReconcileUserRow(db, serverId, id, a, roles, now);
    ReconcileUserRow(db, serverId, id, b, roles, now);
    var afterA := Reconcile(db, serverId, id, a, roles, now).tables;
    var afterB := Reconcile(db, serverId, id, b, roles, now).tables;
    ReconcileUserRow(afterA, serverId, id, b, roles, now);
    ReconcileUserRow(afterB, serverId, id, a, roles, now);
  }
}
