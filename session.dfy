/**
 * The importer's process-wide state as one value, and every event that changes
 * it as a step: a guild id being assigned (the `guildId` setter), the
 * import-done timer firing, a scraper or chat task running, the periodic chat
 * report. The class in module Importer is proved to perform exactly these steps.
 */
module Session {
  import opened Wrappers
  import opened Categories
  import opened Reconciler

  /** The `{ new, updated }` counters of one feed. */
  datatype Totals = Totals(added: nat, updated: nat)

  const Zero: Totals := Totals(0, 0)

  /** The two live feeds. */
  datatype Feed = Scan | Chat

  /** The webhook notifications; delivering them is outside the model. */
  datatype Message =
    | ImportDone(guildId: Option<string>, totals: Totals)
    | ServerUnknown(serverId: string)
    | WhitelistedSeen(feed: Feed, id: string, serverId: string, roles: string)
    | ChatTotalsReport(totals: Totals)

  /** A queue message: absent JSON fields are None; absent roles are the empty list. */
  datatype Item = Item(guildId: Option<string>, id: Option<string>, category: Option<string>, roles: seq<string>)

  /**
   * The tables and the process globals: `serverDoesntExist`, `totalUsers`,
   * `totalUsersChat`, `_guildId`, `oldGuildId`, whether the import-done timer is
   * pending, `wasDone`, and the notifications sent so far.
   */
  datatype World = World(db: Tables, serverDoesntExist: bool, totalUsers: Totals, totalUsersChat: Totals,
                         guildId: Option<string>, oldGuildId: Option<string>, timerArmed: bool,
                         wasDone: bool, outbox: seq<Message>)

  /** JavaScript truthiness of an optional string: present and non-empty. */
  predicate Truthy(v: Option<string>)
  {
    v.Some? && v.value != ""
  }

  /** The counters after one reconciliation. */
  function Count(t: Totals, o: Outcome): (r: Totals)
    ensures o == WhitelistSkip ==> r == t
    ensures o != WhitelistSkip ==> r.added + r.updated == t.added + t.updated + 1
    ensures r.added == t.added + 1 <==> o == Added
  {
    match o
    case Added => Totals(t.added + 1, t.updated)
    case Updated => Totals(t.added, t.updated + 1)
    case WhitelistSkip => t
  }

  /**
   * The tail both feeds share once the server exists and the record is complete:
   * reconcile, then either report the whitelisted user or count the outcome.
   */
  function Merge(w: World, feed: Feed, serverId: string, id: string, t: string, roles: seq<string>,
                 totals: Totals, now: int): (r: (Tables, Totals, seq<Message>))
    ensures r.0.badServers == w.db.badServers
    ensures IsWhitelisted(w.db, id) ==> r == (w.db, totals, w.outbox + [WhitelistedSeen(feed, id, serverId, JoinRoles(roles))])
    ensures !IsWhitelisted(w.db, id) ==>
              && r.2 == w.outbox
              && r.1.added + r.1.updated == totals.added + totals.updated + 1
              && (r.1.added == totals.added + 1 <==> ImportKey(id, serverId) !in w.db.imports)
  {
    var r := Reconcile(w.db, serverId, id, t, roles, now);
    if r.outcome == WhitelistSkip then (w.db, totals, w.outbox + [WhitelistedSeen(feed, id, serverId, JoinRoles(roles))])
    else (r.tables, Count(totals, r.outcome), w.outbox)
  }

  /**
   * `processUserScraper(serverId, user)`. An undefined server id is rejected by
   * the first query and the task's handler swallows the error, so nothing changes.
   */
  function ScraperStep(w: World, serverId: Option<string>, user: Item, now: int): (w': World)
    ensures w'.db.badServers == w.db.badServers
    ensures w'.totalUsersChat == w.totalUsersChat
    ensures (w'.guildId, w'.oldGuildId, w'.timerArmed, w'.wasDone) == (w.guildId, w.oldGuildId, w.timerArmed, w.wasDone)
    ensures w'.serverDoesntExist <==> w.serverDoesntExist || (serverId.Some? && serverId.value !in w.db.badServers)
  {
    if serverId.None? then w
    else if serverId.value !in w.db.badServers then
      w.(outbox := w.outbox + [ServerUnknown(serverId.value)], serverDoesntExist := true)
    else if !Truthy(user.id) || !Truthy(user.category) then w
    else
      var (db, totals, outbox) := Merge(w, Scan, serverId.value, user.id.value, user.category.value, user.roles, w.totalUsers, now);
      w.(db := db, totalUsers := totals, outbox := outbox)
  }

  /**
   * `processUserChat(serverId, user)`: the category comes from the server's own
   * category through the chat translation; an unknown server is only logged.
   */
  function ChatStep(w: World, serverId: Option<string>, user: Item, now: int): (w': World)
    ensures w'.db.badServers == w.db.badServers
    ensures (w'.totalUsers, w'.serverDoesntExist) == (w.totalUsers, w.serverDoesntExist)
    ensures (w'.guildId, w'.oldGuildId, w'.timerArmed, w'.wasDone) == (w.guildId, w.oldGuildId, w.timerArmed, w.wasDone)
    ensures serverId.None? || serverId.value !in w.db.badServers ==> w' == w
  {
    if serverId.None? || serverId.value !in w.db.badServers then w
    else
      var t := ConvertServersTypeToUsersType([w.db.badServers[serverId.value]])[0];
      if !Truthy(user.id) || t == "" then w
      else
        var (db, totals, outbox) := Merge(w, Chat, serverId.value, user.id.value, t, user.roles, w.totalUsersChat, now);
        w.(db := db, totalUsersChat := totals, outbox := outbox)
  }

  /** The task queued by the scraper consumer: it runs only for an item with an id while the server is not marked missing. */
  function ScraperTaskStep(w: World, item: Item, now: int): (w': World)
    ensures !Truthy(item.id) || w.serverDoesntExist ==> w' == w
  {
    if Truthy(item.id) && !w.serverDoesntExist then ScraperStep(w, item.guildId, item, now) else w
  }

  /** The task queued by the chat consumer: it runs only for an item with an id. */
  function ChatTaskStep(w: World, item: Item, now: int): (w': World)
    ensures !Truthy(item.id) ==> w' == w
    ensures (w'.totalUsers, w'.serverDoesntExist, w'.guildId, w'.wasDone) == (w.totalUsers, w.serverDoesntExist, w.guildId, w.wasDone)
  {
    if Truthy(item.id) then ChatStep(w, item.guildId, item, now) else w
  }

  /**
   * The `guildId` setter: the timer is re-armed on every assignment; a change
   * from a defined previous id either only clears `wasDone` (the timer already
   * reported) or reports the finished guild and resets the scraper session.
   */
  function GuildIdStep(w: World, gid: Option<string>): (w': World)
    ensures w'.guildId == gid && w'.oldGuildId == w.guildId && w'.timerArmed
    ensures (w'.db, w'.totalUsersChat) == (w.db, w.totalUsersChat)
  {
    var w1 := w.(oldGuildId := w.guildId, guildId := gid, timerArmed := true);
    if w.guildId.Some? && w.guildId != gid then
      if w.wasDone then w1.(wasDone := false)
      else w1.(outbox := w.outbox + [ImportDone(w.guildId, w.totalUsers)],
               serverDoesntExist := false, totalUsers := Zero)
    else w1
  }

  /** The import-done timer's callback; a timer that is not pending cannot fire. */
  function TimerStep(w: World): (w': World)
    ensures (w'.db, w'.totalUsersChat, w'.guildId, w'.oldGuildId) == (w.db, w.totalUsersChat, w.guildId, w.oldGuildId)
    ensures !w'.timerArmed
  {
    if !w.timerArmed then w
    else w.(outbox := w.outbox + [ImportDone(w.guildId, w.totalUsers)],
            serverDoesntExist := false, totalUsers := Zero, wasDone := true, timerArmed := false)
  }

  /** The periodic chat report: sent only when something was counted; the counters always reset. */
  function ChatEmbedStep(w: World): (w': World)
    ensures w'.totalUsersChat == Zero
    ensures w'.outbox == w.outbox || w'.outbox == w.outbox + [ChatTotalsReport(w.totalUsersChat)]
    ensures w'.outbox == w.outbox <==> w.totalUsersChat == Zero
  {
    var out := if w.totalUsersChat.added > 0 || w.totalUsersChat.updated > 0
               then w.outbox + [ChatTotalsReport(w.totalUsersChat)] else w.outbox;
    w.(outbox := out, totalUsersChat := Zero)
  }

  /** Everything that happens to the importer, one event at a time. */
  datatype Event =
    | GuildAssigned(gid: Option<string>)
    | ScraperTaskRan(item: Item, now: int)
    | ChatTaskRan(item: Item, now: int)
    | TimerFired
    | ChatEmbedSent

  function Step(w: World, e: Event): World
  {
    match e
    case GuildAssigned(gid) => GuildIdStep(w, gid)
    case ScraperTaskRan(item, now) => ScraperTaskStep(w, item, now)
    case ChatTaskRan(item, now) => ChatTaskStep(w, item, now)
    case TimerFired => TimerStep(w)
    case ChatEmbedSent => ChatEmbedStep(w)
  }

  /** The events applied in order, first to last. */
  function Run(w: World, es: seq<Event>): World
    decreases |es|
  {
    if es == [] then w else Step(Run(w, es[..|es| - 1]), es[|es| - 1])
  }

  /** The events of draining a task queue front first. */
  function ScraperEvents(items: seq<Item>, now: int): (es: seq<Event>)
    ensures |es| == |items|
    ensures forall i :: 0 <= i < |items| ==> es[i] == ScraperTaskRan(items[i], now)
  {
    seq(|items|, i requires 0 <= i < |items| => ScraperTaskRan(items[i], now))
  }

  function ChatEvents(items: seq<Item>, now: int): (es: seq<Event>)
    ensures |es| == |items|
    ensures forall i :: 0 <= i < |items| ==> es[i] == ChatTaskRan(items[i], now)
  {
    seq(|items|, i requires 0 <= i < |items| => ChatTaskRan(items[i], now))
  }

  /** Running one more event is one more step. */
  lemma RunSnoc(w: World, es: seq<Event>, e: Event)
    ensures Run(w, es + [e]) == Step(Run(w, es), e)
  {
    assert (es + [e])[..|es|] == es;
  }

  /** Draining one more scraper task is one more scraper task step. */
  lemma ScraperDrainSnoc(w: World, done: seq<Item>, item: Item, now: int)
    ensures Run(w, ScraperEvents(done + [item], now)) == ScraperTaskStep(Run(w, ScraperEvents(done, now)), item, now)
  {
    assert ScraperEvents(done + [item], now) == ScraperEvents(done, now) + [ScraperTaskRan(item, now)];
    RunSnoc(w, ScraperEvents(done, now), ScraperTaskRan(item, now));
  }

  /** Draining one more chat task is one more chat task step. */
  lemma ChatDrainSnoc(w: World, done: seq<Item>, item: Item, now: int)
    ensures Run(w, ChatEvents(done + [item], now)) == ChatTaskStep(Run(w, ChatEvents(done, now)), item, now)
  {
    assert ChatEvents(done + [item], now) == ChatEvents(done, now) + [ChatTaskRan(item, now)];
    RunSnoc(w, ChatEvents(done, now), ChatTaskRan(item, now));
  }

  /** The number of import-done reports among the notifications. */
  function ImportDoneCount(out: seq<Message>): nat
    decreases |out|
  {
    if out == [] then 0
    else ImportDoneCount(out[..|out| - 1]) + (if out[|out| - 1].ImportDone? then 1 else 0)
  }
}
