/**
 * The importer process as an object: the tables it reads and writes, its
 * globals and its two task queues are fields, and every handler updates them in
 * place. Each method is proved to perform the corresponding step of module Session.
 */
module Importer {
  import opened Wrappers
  import opened Categories
  import opened Reconciler
  import opened Session

  class Importer {
    // The database tables.
    var badServers: map<string, string>
    var users: map<string, UserRow>
    var imports: map<ImportKey, ImportRow>
    // The process globals.
    var serverDoesntExist: bool
    var totalUsers: Totals
    var totalUsersChat: Totals
    var guildId: Option<string>
    var oldGuildId: Option<string>
    var timerArmed: bool
    var wasDone: bool
    var messageQueueScraper: seq<Item>
    var messageQueueChat: seq<Item>
    // The notifications sent so far.
    var outbox: seq<Message>

    /** The state as a value, without the queues. */
    function State(): World
      reads this
    {
      World(Tables(badServers, users, imports), serverDoesntExist, totalUsers, totalUsersChat,
            guildId, oldGuildId, timerArmed, wasDone, outbox)
    }

    /** Start-up: the given tables, zero counters, no guild yet, no timer, empty queues. */
    constructor (badServers: map<string, string>, users: map<string, UserRow>, imports: map<ImportKey, ImportRow>)
      ensures State() == World(Tables(badServers, users, imports), false, Zero, Zero, None, None, false, false, [])
      ensures messageQueueScraper == [] && messageQueueChat == []
    {
      this.badServers, this.users, this.imports := badServers, users, imports;
      serverDoesntExist := false;
      totalUsers, totalUsersChat := Zero, Zero;
      guildId, oldGuildId := None, None;
      timerArmed, wasDone := false, false;
      messageQueueScraper, messageQueueChat := [], [];
      outbox := [];
    }

    /** The `guildId` setter: remember the old id, re-arm the timer, close the old guild's session on a change. */
    method SetGuildId(newValue: Option<string>)
      modifies this`oldGuildId, this`guildId, this`timerArmed, this`wasDone, this`outbox,
               this`serverDoesntExist, this`totalUsers
      ensures State() == GuildIdStep(old(State()), newValue)
    {
      oldGuildId := guildId;
      guildId := newValue;
      timerArmed := true;
      if oldGuildId.Some? && oldGuildId != guildId {
        if wasDone {
          wasDone := false;
        } else {
          outbox := outbox + [ImportDone(oldGuildId, totalUsers)];
          serverDoesntExist := false;
          totalUsers := Zero;
        }
      }
    }

    /** The import-done timer's callback: report the guild, reset the session, record that it is done. */
    method ScanDoneTimerFires()
      modifies this`outbox, this`serverDoesntExist, this`totalUsers, this`wasDone, this`timerArmed
      ensures State() == TimerStep(old(State()))
    {
      if timerArmed {
        outbox := outbox + [ImportDone(guildId, totalUsers)];
        serverDoesntExist := false;
        totalUsers := Zero;
        wasDone := true;
        timerArmed := false;
      }
    }

    /**
     * The Users part of a merge: a whitelisted user is left alone (and reported
     * by the caller); otherwise the user row is inserted or updated.
     */
    method WriteUser(id: string, t: string) returns (whitelisted: bool)
      modifies this`users
      ensures whitelisted <==> id in old(users) && old(users)[id].status == Whitelisted
      ensures users == if whitelisted then old(users) else old(users)[id := WrittenUser(Lookup(old(users), id), t)]
    {
      var status := if IsPermanentType(t) then PermBlacklisted else Blacklisted;
      if id in users {
        var row := users[id];
        if row.status == Whitelisted {
          return true;
        }
        if row.status == PermBlacklisted {
          status := PermBlacklisted;
        }
        assert status == DeriveStatus(t, Some(row.status));
        if Rank(t) > Rank(row.category) {
          users := users[id := row.(category := t, status := status)];
        } else {
          users := users[id := row.(status := status)];
        }
        assert users[id] == WrittenUser(Some(row), t);
      } else {
        users := users[id := UserRow(PlaceholderUsername, DefaultAvatar, t, status)];
        assert users[id] == WrittenUser(None, t);
      }
      return false;
    }

    /** The Imports part of a merge: upsert the (id, serverId) row; says whether it was inserted. */
    method WriteImport(id: string, serverId: string, t: string, rolesString: string, now: int) returns (added: bool)
      modifies this`imports
      ensures added <==> ImportKey(id, serverId) !in old(imports)
      ensures imports == old(imports)[ImportKey(id, serverId) :=
                           WrittenImport(Lookup(old(imports), ImportKey(id, serverId)), t, rolesString, now)]
    {
      var key := ImportKey(id, serverId);
      if key in imports {
        var row := imports[key];
        if Rank(t) > Rank(row.category) {
          imports := imports[key := row.(category := t, roles := rolesString, updatedAt := now, appealed := false)];
        } else {
          imports := imports[key := row.(roles := rolesString, appealed := false, updatedAt := now)];
        }
        added := false;
      } else {
        imports := imports[key := ImportRow(t, rolesString, false, now, now, "")];
        added := true;
      }
    }

    /**
     * The read-then-write body both feeds share, once the server exists and the
     * record is complete; returns the feed's counters after this record.
     */
    method MergeRecord(feed: Feed, serverId: string, id: string, t: string, roles: seq<string>,
                       totals: Totals, now: int) returns (counted: Totals)
      modifies this`users, this`imports, this`outbox
      ensures (Tables(badServers, users, imports), counted, outbox)
              == Merge(old(State()), feed, serverId, id, t, roles, totals, now)
    {
      var whitelisted := WriteUser(id, t);
      if whitelisted {
        outbox := outbox + [WhitelistedSeen(feed, id, serverId, JoinRoles(roles))];
        return totals;
      }
      var added := WriteImport(id, serverId, t, JoinRoles(roles), now);
      counted := if added then Totals(totals.added + 1, totals.updated) else Totals(totals.added, totals.updated + 1);
    }

    /** `processUserScraper`: reject an unknown server, skip an incomplete record, merge the rest. */
    method ProcessUserScraper(serverId: Option<string>, user: Item, now: int)
      modifies this`users, this`imports, this`outbox, this`serverDoesntExist, this`totalUsers
      ensures State() == ScraperStep(old(State()), serverId, user, now)
    {
      if serverId.None? {
        return;
      }
      var sid := serverId.value;
      if sid !in badServers {
        outbox := outbox + [ServerUnknown(sid)];
        serverDoesntExist := true;
        return;
      }
      if !Truthy(user.id) || !Truthy(user.category) {
        return;
      }
      totalUsers := MergeRecord(Scan, sid, user.id.value, user.category.value, user.roles, totalUsers, now);
    }

    /** `processUserChat`: the category is the server's own, translated; an unknown server is skipped. */
    method ProcessUserChat(serverId: Option<string>, user: Item, now: int)
      modifies this`users, this`imports, this`outbox, this`totalUsersChat
      ensures State() == ChatStep(old(State()), serverId, user, now)
    {
      if serverId.None? || serverId.value !in badServers {
        return;
      }
      var sid := serverId.value;
      var t := ConvertServersTypeToUsersType([badServers[sid]])[0];
      if !Truthy(user.id) || t == "" {
        return;
      }
      totalUsersChat := MergeRecord(Chat, sid, user.id.value, t, user.roles, totalUsersChat, now);
    }

    /** The periodic chat report: send the chat counts if any, then reset them. */
    method SendTotalUsersChatEmbed()
      modifies this`outbox, this`totalUsersChat
      ensures State() == ChatEmbedStep(old(State()))
    {
      if totalUsersChat.added > 0 || totalUsersChat.updated > 0 {
        outbox := outbox + [ChatTotalsReport(totalUsersChat)];
      }
      totalUsersChat := Zero;
    }

    /** The scraper consumer's callback: assign the item's guild id, then queue its task. */
    method ConsumeScraper(item: Item)
      modifies this`oldGuildId, this`guildId, this`timerArmed, this`wasDone, this`outbox,
               this`serverDoesntExist, this`totalUsers, this`messageQueueScraper
      ensures State() == GuildIdStep(old(State()), item.guildId)
      ensures messageQueueScraper == old(messageQueueScraper) + [item]
    {
      SetGuildId(item.guildId);
      messageQueueScraper := messageQueueScraper + [item];
    }

    /** The chat consumer's callback: queue the item's task; the guild id is not touched. */
    method ConsumeChat(item: Item)
      modifies this`messageQueueChat
      ensures messageQueueChat == old(messageQueueChat) + [item]
    {
      messageQueueChat := messageQueueChat + [item];
    }

    /** The queued scraper task: process the item only if it has an id and the server is not marked missing. */
    method RunScraperTask(item: Item, now: int)
      modifies this`users, this`imports, this`outbox, this`serverDoesntExist, this`totalUsers
      ensures State() == ScraperTaskStep(old(State()), item, now)
    {
      if Truthy(item.id) && !serverDoesntExist {
        ProcessUserScraper(item.guildId, item, now);
      }
    }

    /** The queued chat task: process the item only if it has an id. */
    method RunChatTask(item: Item, now: int)
      modifies this`users, this`imports, this`outbox, this`totalUsersChat
      ensures State() == ChatTaskStep(old(State()), item, now)
    {
      if Truthy(item.id) {
        ProcessUserChat(item.guildId, item, now);
      }
    }

    /** `processQueueScraper` until the queue is empty: shift the front task and run it, one at a time. */
    method ProcessQueueScraper(now: int)
      modifies this
      ensures State() == Run(old(State()), ScraperEvents(old(messageQueueScraper), now))
      ensures messageQueueChat == old(messageQueueChat)
      ensures messageQueueScraper == []
    {
      ghost var start := State();
      ghost var done: seq<Item> := [];
      while messageQueueScraper != []
        invariant old(messageQueueScraper) == done + messageQueueScraper
        invariant State() == Run(start, ScraperEvents(done, now))
        invariant messageQueueChat == old(messageQueueChat)
        decreases |messageQueueScraper|
      {
        var task := messageQueueScraper[0];
        messageQueueScraper := messageQueueScraper[1..];
        RunScraperTask(task, now);
        ScraperDrainSnoc(start, done, task, now);
        done := done + [task];
      }
      assert done == old(messageQueueScraper);
    }

    /** `processQueueChat` until the queue is empty: shift the front task and run it, one at a time. */
    method ProcessQueueChat(now: int)
      modifies this
      ensures State() == Run(old(State()), ChatEvents(old(messageQueueChat), now))
      ensures messageQueueScraper == old(messageQueueScraper)
      ensures messageQueueChat == []
    {
      ghost var start := State();
      ghost var done: seq<Item> := [];
      while messageQueueChat != []
        invariant old(messageQueueChat) == done + messageQueueChat
        invariant State() == Run(start, ChatEvents(done, now))
        invariant messageQueueScraper == old(messageQueueScraper)
        decreases |messageQueueChat|
      {
        var task := messageQueueChat[0];
        messageQueueChat := messageQueueChat[1..];
        RunChatTask(task, now);
        ChatDrainSnoc(start, done, task, now);
        done := done + [task];
      }
      assert done == old(messageQueueChat);
    }
  }
}
