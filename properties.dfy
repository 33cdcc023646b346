/**
 * What the importer promises across its events: the per-call guarantees of the
 * two reconciler entry points, the session transitions, and properties of whole
 * event traces (stickiness, never-demote, short-circuit, debounce).
 */
module Properties {
  import opened Wrappers
  import opened Categories
  import opened Reconciler
  import opened Session

  /** An unknown server marks the session, sends one notice and touches no table or counter. */
  lemma ScraperUnknownServer(w: World, serverId: string, user: Item, now: int)
    requires serverId !in w.db.badServers
    ensures var w' := ScraperStep(w, Some(serverId), user, now);
            && w'.serverDoesntExist
            && w'.db == w.db && w'.totalUsers == w.totalUsers
            && w'.outbox == w.outbox + [ServerUnknown(serverId)]
  {
  }

  /** A record without id or category changes nothing at all. */
  lemma ScraperIncomplete(w: World, serverId: string, user: Item, now: int)
    requires serverId in w.db.badServers
    requires !Truthy(user.id) || !Truthy(user.category)
    ensures ScraperStep(w, Some(serverId), user, now) == w
  {
  }

  /** A whitelisted user is only reported: no table, counter or flag changes. */
  lemma ScraperWhitelisted(w: World, serverId: string, user: Item, now: int)
    requires serverId in w.db.badServers && Truthy(user.id) && Truthy(user.category)
    requires IsWhitelisted(w.db, user.id.value)
    ensures ScraperStep(w, Some(serverId), user, now)
            == w.(outbox := w.outbox + [WhitelistedSeen(Scan, user.id.value, serverId, JoinRoles(user.roles))])
  {
  }

  /**
   * A reconciled scraper record writes the reconciled tables and bumps exactly
   * one counter by one: `new` when its import row was missing, `updated` otherwise.
   */
  lemma ScraperCountsOne(w: World, serverId: string, user: Item, now: int)
    requires serverId in w.db.badServers && Truthy(user.id) && Truthy(user.category)
    requires !IsWhitelisted(w.db, user.id.value)
    ensures var w' := ScraperStep(w, Some(serverId), user, now);
            && w'.db == Reconcile(w.db, serverId, user.id.value, user.category.value, user.roles, now).tables
            && w'.totalUsers.added + w'.totalUsers.updated == w.totalUsers.added + w.totalUsers.updated + 1
            && (w'.totalUsers.added == w.totalUsers.added + 1 <==> ImportKey(user.id.value, serverId) !in w.db.imports)
            && w'.outbox == w.outbox && w'.serverDoesntExist == w.serverDoesntExist
  {
  }

  /**
   * A chat record is reconciled with its server's translated category and bumps
   * exactly one chat counter by one: `new` when its import row was missing,
   * `updated` otherwise.
   */
  lemma ChatUsesServerCategory(w: World, serverId: string, user: Item, now: int)
    requires serverId in w.db.badServers && Truthy(user.id)
    requires ConvertServerType(w.db.badServers[serverId]) != ""
    requires !IsWhitelisted(w.db, user.id.value)
    ensures var w' := ChatStep(w, Some(serverId), user, now);
            var t := ConvertServerType(w.db.badServers[serverId]);
            && w'.db == Reconcile(w.db, serverId, user.id.value, t, user.roles, now).tables
            && w'.totalUsersChat.added + w'.totalUsersChat.updated == w.totalUsersChat.added + w.totalUsersChat.updated + 1
            && (w'.totalUsersChat.added == w.totalUsersChat.added + 1 <==> ImportKey(user.id.value, serverId) !in w.db.imports)
            && w'.outbox == w.outbox && w'.totalUsers == w.totalUsers
  {
  }

  /** For a known server, a chat record without id, or whose server category translates to "", changes nothing. */
  lemma ChatIncomplete(w: World, serverId: string, user: Item, now: int)
    requires serverId in w.db.badServers
    requires !Truthy(user.id) || ConvertServerType(w.db.badServers[serverId]) == ""
    ensures ChatStep(w, Some(serverId), user, now) == w
  {
  }

  /** A whitelisted chat user is only reported on the chat-log channel: no table, counter or flag changes. */
  lemma ChatWhitelisted(w: World, serverId: string, user: Item, now: int)
    requires serverId in w.db.badServers && Truthy(user.id)
    requires ConvertServerType(w.db.badServers[serverId]) != ""
    requires IsWhitelisted(w.db, user.id.value)
    ensures ChatStep(w, Some(serverId), user, now)
            == w.(outbox := w.outbox + [WhitelistedSeen(Chat, user.id.value, serverId, JoinRoles(user.roles))])
  {
  }

  /** The timer reports the guild's counts once, then resets the counters and the flag and records that it did. */
  lemma TimerResetsSession(w: World)
    requires w.timerArmed
    ensures var w' := TimerStep(w);
            && w'.totalUsers == Zero && !w'.serverDoesntExist && w'.wasDone
            && w'.outbox == w.outbox + [ImportDone(w.guildId, w.totalUsers)]
  {
  }

  /** Assigning the id already current (or the first id) changes neither counters nor flags nor notifications. */
  lemma AssignSameGuild(w: World, gid: Option<string>)
    requires w.guildId.None? || w.guildId == gid
    ensures var w' := GuildIdStep(w, gid);
            (w'.totalUsers, w'.serverDoesntExist, w'.wasDone, w'.outbox) == (w.totalUsers, w.serverDoesntExist, w.wasDone, w.outbox)
  {
  }

  /**
   * Assigning a different id after a defined one: if the timer already reported,
   * only `wasDone` is cleared; otherwise the previous guild is reported and the
   * counters and the flag are reset.
   */
  lemma AssignNewGuild(w: World, gid: Option<string>)
    requires w.guildId.Some? && w.guildId != gid
    ensures var w' := GuildIdStep(w, gid);
            && !w'.wasDone
            && (w.wasDone ==> (w'.totalUsers, w'.serverDoesntExist, w'.outbox) == (w.totalUsers, w.serverDoesntExist, w.outbox))
            && (!w.wasDone ==> && w'.totalUsers == Zero && !w'.serverDoesntExist
                               && w'.outbox == w.outbox + [ImportDone(w.guildId, w.totalUsers)])
  {
  }

  /** The only table change a scraper record can make is its reconciliation. */
  lemma ScraperStepTables(w: World, serverId: Option<string>, user: Item, now: int)
    ensures var w' := ScraperStep(w, serverId, user, now);
            || w'.db == w.db
            || (&& serverId.Some? && Truthy(user.id) && Truthy(user.category)
                && w'.db == Reconcile(w.db, serverId.value, user.id.value, user.category.value, user.roles, now).tables)
  {
  }

  /** The only table change a chat record can make is its reconciliation under the server's translated category. */
  lemma ChatStepTables(w: World, serverId: Option<string>, user: Item, now: int)
    ensures var w' := ChatStep(w, serverId, user, now);
            || w'.db == w.db
            || (&& serverId.Some? && serverId.value in w.db.badServers && Truthy(user.id)
                && w'.db == Reconcile(w.db, serverId.value, user.id.value,
                                      ConvertServerType(w.db.badServers[serverId.value]), user.roles, now).tables)
  {
  }

  /** How a stored user row may evolve: rank never drops, permanent stays permanent, whitelisted never changes. */
  predicate Kept(u: UserRow, v: UserRow)
  {
    && Rank(v.category) >= Rank(u.category)
    && (u.status == PermBlacklisted ==> v.status == PermBlacklisted)
    && (u.status == Whitelisted ==> v == u)
  }

  lemma ReconcileKeepsUsers(db: Tables, serverId: string, id: string, t: string, roles: seq<string>, now: int, x: string)
    requires x in db.users
    ensures var db' := Reconcile(db, serverId, id, t, roles, now).tables;
            x in db'.users && Kept(db.users[x], db'.users[x]) && db.imports.Keys <= db'.imports.Keys
  {
    if x == id && !IsWhitelisted(db, id) {
      ReconcileUserRow(db, serverId, id, t, roles, now);
      ReconcileStatus(db, serverId, id, t, roles, now);
    }
  }

  lemma StepKeepsUsers(w: World, e: Event, x: string)
    requires x in w.db.users
    ensures var w' := Step(w, e);
            x in w'.db.users && Kept(w.db.users[x], w'.db.users[x]) && w.db.imports.Keys <= w'.db.imports.Keys
  {
    match e
    case ScraperTaskRan(item, now) =>
      var v := ScraperTaskStep(w, item, now);
      ScraperStepTables(w, item.guildId, item, now);
      if v.db != w.db {
        ReconcileKeepsUsers(w.db, item.guildId.value, item.id.value, item.category.value, item.roles, now, x);
      }
    case ChatTaskRan(item, now) =>
      var v := ChatTaskStep(w, item, now);
      ChatStepTables(w, item.guildId, item, now);
      if v.db != w.db {
        var sid := item.guildId.value;
        ReconcileKeepsUsers(w.db, sid, item.id.value, ConvertServerType(w.db.badServers[sid]), item.roles, now, x);
      }
    case _ =>
  }

  /**
   * Over any sequence of events a stored user stays stored, its category rank
   * never decreases, a permanent blacklisting stays permanent and a whitelisted
   * row never changes; no import row disappears.
   */
  lemma {:induction false} RunKeepsUsers(w: World, es: seq<Event>, x: string)
    requires x in w.db.users
    ensures var u := w.db.users[x];
            var w' := Run(w, es);
            && x in w'.db.users
            && Rank(w'.db.users[x].category) >= Rank(u.category)
            && (u.status == PermBlacklisted ==> w'.db.users[x].status == PermBlacklisted)
            && (u.status == Whitelisted ==> w'.db.users[x] == u)
            && w.db.imports.Keys <= w'.db.imports.Keys
    decreases |es|
  {
    if es != [] {
      var prefix := es[..|es| - 1];
      RunKeepsUsers(w, prefix, x);
      StepKeepsUsers(Run(w, prefix), es[|es| - 1], x);
    }
  }

  /** Events of one session for guild `s`: its own id assigned again, or tasks of either feed. */
  predicate InSession(e: Event, s: string)
  {
    e == GuildAssigned(Some(s)) || e.ScraperTaskRan? || e.ChatTaskRan?
  }

  /** `after` is `before` with at most one more notification, which is not an import-done report. */
  predicate AddsNoReport(before: seq<Message>, after: seq<Message>)
  {
    || after == before
    || (|after| == |before| + 1 && after[..|before|] == before && !after[|before|].ImportDone?)
  }

  lemma AddsNoReportCount(before: seq<Message>, after: seq<Message>)
    requires AddsNoReport(before, after)
    ensures ImportDoneCount(after) == ImportDoneCount(before)
  {
  }

  /** A scraper record sends at most one notice, never an import-done report. */
  lemma ScraperStepNoReport(w: World, serverId: Option<string>, user: Item, now: int)
    ensures AddsNoReport(w.outbox, ScraperStep(w, serverId, user, now).outbox)
  {
    var out := ScraperStep(w, serverId, user, now).outbox;
    if out != w.outbox {
      assert out[..|w.outbox|] == w.outbox;
    }
  }

  /** A chat record sends at most one notice, never an import-done report. */
  lemma ChatStepNoReport(w: World, serverId: Option<string>, user: Item, now: int)
    ensures AddsNoReport(w.outbox, ChatStep(w, serverId, user, now).outbox)
  {
    var out := ChatStep(w, serverId, user, now).outbox;
    if out != w.outbox {
      assert out[..|w.outbox|] == w.outbox;
    }
  }

  /** One event of the session sends no import-done report and keeps the guild, `wasDone` and a pending timer. */
  lemma SessionStep(w: World, s: string, e: Event)
    requires w.guildId == Some(s) && InSession(e, s)
    ensures var w' := Step(w, e);
            && w'.guildId == Some(s) && w'.wasDone == w.wasDone
            && (w.timerArmed ==> w'.timerArmed)
            && ImportDoneCount(w'.outbox) == ImportDoneCount(w.outbox)
  {
    match e
    case GuildAssigned(gid) =>
    case ScraperTaskRan(item, now) =>
      ScraperStepNoReport(w, item.guildId, item, now);
      AddsNoReportCount(w.outbox, Step(w, e).outbox);
    case ChatTaskRan(item, now) =>
      ChatStepNoReport(w, item.guildId, item, now);
      AddsNoReportCount(w.outbox, Step(w, e).outbox);
  }

  /**
   * While guild `s` stays current, no import-done report is sent, `wasDone` is
   * unchanged and a pending timer stays pending (re-armed, never cancelled).
   */
  lemma {:induction false} SessionSendsNoReport(w: World, s: string, es: seq<Event>)
    requires w.guildId == Some(s)
    requires forall i :: 0 <= i < |es| ==> InSession(es[i], s)
    ensures var w' := Run(w, es);
            && w'.guildId == Some(s) && w'.wasDone == w.wasDone
            && (w.timerArmed ==> w'.timerArmed)
            && ImportDoneCount(w'.outbox) == ImportDoneCount(w.outbox)
    decreases |es|
  {
    if es != [] {
      var prefix := es[..|es| - 1];
      SessionSendsNoReport(w, s, prefix);
      SessionStep(Run(w, prefix), s, es[|es| - 1]);
    }
  }

  /**
   * Debounce: a session of any length followed by the timer sends exactly one
   * import-done report, for guild `s`, with the counts accumulated over the
   * session, and leaves the counters reset.
   */
  lemma {:induction false} SessionEndsWithOneReport(w: World, s: string, es: seq<Event>)
    requires w.guildId == Some(s) && w.timerArmed
    requires forall i :: 0 <= i < |es| ==> InSession(es[i], s)
    ensures var before := Run(w, es);
            var after := Run(w, es + [TimerFired]);
            && ImportDoneCount(after.outbox) == ImportDoneCount(w.outbox) + 1
            && after.outbox == before.outbox + [ImportDone(Some(s), before.totalUsers)]
            && after.totalUsers == Zero && !after.serverDoesntExist && after.wasDone
  {
    SessionSendsNoReport(w, s, es);
    RunSnoc(w, es, TimerFired);
    var after := Run(w, es + [TimerFired]);
    assert after.outbox[..|after.outbox| - 1] == Run(w, es).outbox;
  }

  /**
   * Once the server is marked missing, further records and re-assignments of the
   * same guild change no table, counter, flag or notification until the session
   * resets: the missing server is reported once per session.
   */
  lemma {:induction false} ServerMissingShortCircuit(w: World, s: string, es: seq<Event>)
    requires w.serverDoesntExist && w.guildId == Some(s)
    requires forall i :: 0 <= i < |es| ==> es[i] == GuildAssigned(Some(s)) || es[i].ScraperTaskRan?
    ensures var w' := Run(w, es);
            (w'.db, w'.totalUsers, w'.serverDoesntExist, w'.outbox, w'.guildId)
            == (w.db, w.totalUsers, w.serverDoesntExist, w.outbox, w.guildId)
    decreases |es|
  {
    if es != [] {
      ServerMissingShortCircuit(w, s, es[..|es| - 1]);
    }
  }

  /**
   * As written, when a guild is imported again after its timer reported
   * (`wasDone` set) and another guild is assigned before the timer fires again,
   * the switch sends no report: `wasDone` is only cleared, and the new session
   * inherits the counts and the missing-server flag.
   */
  lemma {:induction false} RerunAfterReportCarriesOver(w: World, s: string, es: seq<Event>, g: Option<string>)
    requires w.wasDone && w.guildId == Some(s) && g != Some(s)
    requires forall i :: 0 <= i < |es| ==> InSession(es[i], s)
    ensures var before := Run(w, es);
            var after := Run(w, es + [GuildAssigned(g)]);
            && ImportDoneCount(after.outbox) == ImportDoneCount(w.outbox)
            && after.totalUsers == before.totalUsers
            && after.serverDoesntExist == before.serverDoesntExist
            && !after.wasDone
  {
    SessionSendsNoReport(w, s, es);
    RunSnoc(w, es, GuildAssigned(g));
  }
}
