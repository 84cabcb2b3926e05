/**
 * The vocal crews plugin: temporary voice channels ("crews") spawned from a
 * "creator" voice channel in each managed category, swept once empty, and
 * announced through invite messages that a resend replaces.
 *
 * The plugin keeps four containers in memory (managed categories per guild,
 * creator channel ids, used crew names per category, the invite ledger) and
 * issues REST calls; here every call is appended to `actions`. A call the
 * plugin spawns as a separate task is run at the point it is spawned, in
 * spawn order.
 */
module VocalCrews {
  import opened Wrappers
  import opened Collections
  import opened Discord
  import opened NamePool
  import opened InviteLedger
  import opened Sweeps

  /** A category's settings, with the global fallback of each key already applied. */
  datatype Settings = Settings(
    crewNames: seq<string>,
    crewFormatter: string -> string,
    newCrewName: string,
    crewSize: int,
    logChannel: Id,
    alertAllowedChannels: seq<Id>,
    alertInviteMaxAge: int)

  /** The configured category ids, and the settings each category resolves to. */
  datatype Config = Config(categories: set<Id>, settings: Id -> Settings)

  /** The used-name set of a category; an absent entry reads as the empty set the plugin creates on first use. */
  function UsedOf(used: map<Id, set<string>>, category: Id): set<string>
  {
    if category in used then used[category] else {}
  }

  /** The calls that rename a creator channel into the crew `name`, and log it when the log channel exists. */
  function CrewActions(s: Settings, ch: Id, name: string, now: int, guildChannels: set<Id>): seq<Action>
  {
    [Call(ModifyChannel(ch, s.crewFormatter(name), now), None)]
    + (if s.logChannel in guildChannels then [Call(SendMessage(s.logChannel, CrewLog), None)] else [])
  }

  /** The calls a crew creation issued, given the parent it resolved and its result. */
  function CrewCalls(config: Config, parent: Option<Id>, r: Result<string, Error>, ch: Id, now: int, guildChannels: set<Id>): seq<Action>
  {
    if parent.Some? && r.Ok? then CrewActions(config.settings(parent.value), ch, r.value, now, guildChannels) else []
  }

  /** The calls that create the creator channel `created` in `category` and move it to the top. */
  function CreatorActions(s: Settings, category: Id, created: Id): seq<Action>
  {
    [Call(CreateVoiceChannel(category, s.newCrewName, s.crewSize, created), None), Call(SetPosition(created, 1), None)]
  }

  /** The calls of a guild's first-seen setup: per category in `order`, its deletes, then its creator channel. */
  function InitLog(config: Config, order: seq<Id>, blocks: seq<seq<Id>>, creatorIdFor: Id -> Id): seq<Action>
    requires |order| == |blocks|
    decreases |order|
  {
    if order == [] then []
    else
      var n := |order| - 1;
      InitLog(config, order[..n], blocks[..n], creatorIdFor)
      + DeleteAll(blocks[n], None)
      + CreatorActions(config.settings(order[n]), order[n], creatorIdFor(order[n]))
  }

  lemma InitLogStep(config: Config, order: seq<Id>, blocks: seq<seq<Id>>, creatorIdFor: Id -> Id, c: Id, d: seq<Id>)
    requires |order| == |blocks|
    ensures InitLog(config, order + [c], blocks + [d], creatorIdFor)
            == InitLog(config, order, blocks, creatorIdFor) + DeleteAll(d, None)
               + CreatorActions(config.settings(c), c, creatorIdFor(c))
  {
    assert (order + [c])[..|order|] == order;
    assert (blocks + [d])[..|blocks|] == blocks;
  }

  /** `blocks[k]` lists, once each, the channels deleted under the category `order[k]`. */
  ghost predicate SweptPerCategory(g: Guild, order: seq<Id>, blocks: seq<seq<Id>>)
  {
    |blocks| == |order|
    && forall k :: 0 <= k < |order| ==> Distinct(blocks[k]) && Elements(blocks[k]) == InitTargets(g, order[k])
  }

  lemma SweptPerCategoryStep(g: Guild, order: seq<Id>, blocks: seq<seq<Id>>, c: Id, d: seq<Id>)
    requires SweptPerCategory(g, order, blocks)
    requires Distinct(d) && Elements(d) == InitTargets(g, c)
    ensures SweptPerCategory(g, order + [c], blocks + [d])
  {
  }

  lemma CreatorsStep(creators: set<Id>, done: set<Id>, c: Id, creatorIdFor: Id -> Id)
    ensures creators + (set x | x in done :: creatorIdFor(x)) + {creatorIdFor(c)}
            == creators + (set x | x in done + {c} :: creatorIdFor(x))
  {
  }

  /** The categories of the creator channels a sequence of calls creates, in order. */
  function CreatedCategories(acts: seq<Action>): seq<Id>
    decreases |acts|
  {
    if acts == [] then []
    else
      var last := acts[|acts| - 1];
      CreatedCategories(acts[..|acts| - 1]) + (if last.api.CreateVoiceChannel? then [last.api.category] else [])
  }

  lemma {:induction false} CreatedCategoriesConcat(a: seq<Action>, b: seq<Action>)
    ensures CreatedCategories(a + b) == CreatedCategories(a) + CreatedCategories(b)
    decreases |b|
  {
    if b == [] {
      assert a + b == a;
    } else {
      var n := |b| - 1;
      assert (a + b)[..|a + b| - 1] == a + b[..n];
      assert (a + b)[|a + b| - 1] == b[n];
      CreatedCategoriesConcat(a, b[..n]);
    }
  }

  lemma {:induction false} DeletesCreateNothing(ids: seq<Id>, tolerated: Option<int>)
    ensures CreatedCategories(DeleteAll(ids, tolerated)) == []
    decreases |ids|
  {
    if ids != [] {
      var n := |ids| - 1;
      assert DeleteAll(ids, tolerated)[..n] == DeleteAll(ids[..n], tolerated);
      DeletesCreateNothing(ids[..n], tolerated);
    }
  }

  /**
   * A guild's first-seen setup creates creator channels for exactly the
   * categories it walks, one each, in that order.
   */
  lemma {:induction false} InitCreatesOneCreatorPerCategory(config: Config, order: seq<Id>, blocks: seq<seq<Id>>, creatorIdFor: Id -> Id)
    requires |order| == |blocks|
    ensures CreatedCategories(InitLog(config, order, blocks, creatorIdFor)) == order
    decreases |order|
  {
    if order != [] {
      var n := |order| - 1;
      var c := order[n];
      var prefix := InitLog(config, order[..n], blocks[..n], creatorIdFor);
      var dels := DeleteAll(blocks[n], None);
      var creator := CreatorActions(config.settings(c), c, creatorIdFor(c));
      InitCreatesOneCreatorPerCategory(config, order[..n], blocks[..n], creatorIdFor);
      DeletesCreateNothing(blocks[n], None);
      CreatedCategoriesConcat(prefix, dels);
      CreatedCategoriesConcat(prefix + dels, creator);
      CreatorCreatesOne(config.settings(c), c, creatorIdFor(c));
      assert InitLog(config, order, blocks, creatorIdFor) == prefix + dels + creator;
      assert order == order[..n] + [c];
    }
  }

  /** Setting up a creator channel creates exactly one voice channel, in its category. */
  lemma CreatorCreatesOne(s: Settings, category: Id, created: Id)
    ensures CreatedCategories(CreatorActions(s, category, created)) == [category]
  {
    var creator := CreatorActions(s, category, created);
    var head := creator[..1];
    assert head[..0] == [];
    assert CreatedCategories(head) == [category];
    assert creator[..|creator| - 1] == head;
  }

  /** One tolerant (unknown message) delete per recorded alert message, in the order of `keys`. */
  function MessageDeletes(messages: map<Id, Id>, keys: seq<Id>): seq<Action>
    requires forall i :: 0 <= i < |keys| ==> keys[i] in messages
  {
    seq(|keys|, i requires 0 <= i < |keys| => Call(DeleteMessage(keys[i], messages[keys[i]]), Some(UNKNOWN_MESSAGE)))
  }

  /** The calls that open an alert: create the invite, then delete the `prior` message recorded for the pair. */
  function AlertOpening(s: Settings, voice: Id, alert: Id, prior: Option<Id>): seq<Action>
  {
    [Call(CreateInvite(voice, s.alertInviteMaxAge), None)]
    + (if prior.Some? then [Call(DeleteMessage(alert, prior.value), Some(UNKNOWN_MESSAGE))] else [])
  }

  /** The calls that post an alert in `alert` and log it when the log channel exists. */
  function AlertActions(s: Settings, alert: Id, userMessage: Option<string>, guildChannels: set<Id>): seq<Action>
  {
    [Call(SendMessage(alert, if userMessage.Some? then CustomInvite(userMessage.value) else StandardInvite), None)]
    + (if s.logChannel in guildChannels then [Call(SendMessage(s.logChannel, InviteLog), None)] else [])
  }

  /** Every category's used set stays within that category's name pool. */
  ghost predicate UsedNamesWithinPools(config: Config, used: map<Id, set<string>>)
  {
    forall c :: c in used ==> WithinPool(used[c], config.settings(c).crewNames)
  }

  lemma UsedNamesUpdate(config: Config, used: map<Id, set<string>>, category: Id, next: set<string>)
    requires UsedNamesWithinPools(config, used)
    requires WithinPool(next, config.settings(category).crewNames)
    ensures UsedNamesWithinPools(config, used[category := next])
  {
  }

  class Plugin {
    const config: Config
    /** guild id -> the managed categories of that guild */
    var knownGuilds: map<Id, set<Id>>
    /** ids of the channels that currently act as creator channels */
    var crewCreators: set<Id>
    /** category id -> crew names already handed out there */
    var usedNames: map<Id, set<string>>
    /** voice-channel id -> (alert-channel id -> invite message id) */
    var invites: Ledger
    /** whether the voice-state and channel-delete listeners are registered */
    var listenersRegistered: bool
    /** every REST call issued so far */
    var actions: seq<Action>

    ghost predicate Valid()
      reads this`knownGuilds, this`listenersRegistered, this`usedNames
    {
      (listenersRegistered <==> knownGuilds != map[])
      && UsedNamesWithinPools(config, usedNames)
    }

    constructor (config: Config)
      ensures Valid() && this.config == config
      ensures knownGuilds == map[] && crewCreators == {} && usedNames == map[] && invites == map[]
      ensures !listenersRegistered && actions == []
    {
      this.config := config;
      knownGuilds, crewCreators, usedNames, invites := map[], {}, map[], map[];
      listenersRegistered, actions := false, [];
    }

    /** The channels the empty-channel sweep selects in `g` given the current state. */
    function SweepFor(g: Guild): set<Id>
      reads this`knownGuilds, this`crewCreators
    {
      if g.id in knownGuilds then SweepTargets(g, knownGuilds[g.id], crewCreators) else {}
    }

    /**
     * How a crew creation changed the used names: nothing when the parent is
     * missing; the category's entry created and left as it was when no name is
     * available; otherwise the drawn name taken.
     */
    ghost predicate NamesAllocated(before: map<Id, set<string>>, after: map<Id, set<string>>, parent: Option<Id>, r: Result<string, Error>)
    {
      match parent
      case None => r == Err(AttributeError) && after == before
      case Some(c) =>
        var pool := config.settings(c).crewNames;
        var used := UsedOf(before, c);
        if Available(used, pool) == {} then r == Err(IndexError) && after == before[c := used]
        else r.Ok? && r.value in Available(used, pool) && after == before[c := Take(used, pool, r.value)]
    }

    /**
     * The name-pool step of `create_crew_channel`: draw a name of the
     * category's pool that its used set does not hold, then record it.
     */
    method AllocateName(category: Id) returns (r: Result<string, Error>)
      requires Valid()
      modifies this`usedNames
      ensures Valid()
      ensures NamesAllocated(old(usedNames), usedNames, Some(category), r)
      ensures var pool := config.settings(category).crewNames;
        Distinct(pool) && |pool| > 0 ==> r.Ok?
    {
      var pool := config.settings(category).crewNames;
      // the category's used set, created empty on first use
      var used := UsedOf(usedNames, category);
      assert WithinPool(used, pool);
      if Distinct(pool) && |pool| > 0 {
        NeverExhausted(used, pool);
      }
      var available := Available(used, pool);
      if available == {} {
        UsedNamesUpdate(config, usedNames, category, used);
        usedNames := usedNames[category := used];
        return Err(IndexError);
      }
      var name :| name in available;
      var next := Take(used, pool, name);
      TakeWithinPool(used, pool, name);
      UsedNamesUpdate(config, usedNames, category, next);
      usedNames := usedNames[category := next];
      r := Ok(name);
    }

    /** `create_crew_channel`: retire the creator channel `ch`, draw a crew name for its category and rename the channel. */
    method CreateCrewChannel(ch: Id, parent: Option<Id>, guildChannels: set<Id>, now: int) returns (r: Result<string, Error>)
      requires Valid()
      modifies this`crewCreators, this`usedNames, this`actions
      ensures Valid()
      ensures ch !in old(crewCreators) ==>
        r == Err(KeyError) && crewCreators == old(crewCreators) && usedNames == old(usedNames) && actions == old(actions)
      ensures ch in old(crewCreators) ==>
        && crewCreators == old(crewCreators) - {ch}
        && NamesAllocated(old(usedNames), usedNames, parent, r)
        && actions == old(actions) + CrewCalls(config, parent, r, ch, now, guildChannels)
      ensures ch in old(crewCreators) && parent.Some? ==>
        var pool := config.settings(parent.value).crewNames;
        Distinct(pool) && |pool| > 0 ==> r.Ok?
    {
      if ch !in crewCreators {
        return Err(KeyError);
      }
      crewCreators := crewCreators - {ch};
      r := NameCrew(ch, parent, guildChannels, now);
    }

    /**
     * The rest of `create_crew_channel` once `ch` has left the creator set:
     * draw a name from the parent category's pool, rename `ch` after it and
     * log the creation when the log channel exists.
     */
    method NameCrew(ch: Id, parent: Option<Id>, guildChannels: set<Id>, now: int) returns (r: Result<string, Error>)
      requires Valid()
      modifies this`usedNames, this`actions
      ensures Valid()
      ensures NamesAllocated(old(usedNames), usedNames, parent, r)
      ensures actions == old(actions) + CrewCalls(config, parent, r, ch, now, guildChannels)
      ensures parent.Some? ==>
        var pool := config.settings(parent.value).crewNames;
        Distinct(pool) && |pool| > 0 ==> r.Ok?
    {
      if parent.None? {
        return Err(AttributeError);
      }
      var category := parent.value;
      var s := config.settings(category);
      r := AllocateName(category);
      if r.Err? {
        return;
      }
      var name := r.value;
      ghost var named := actions;
      var rename := Call(ModifyChannel(ch, s.crewFormatter(name), now), None);
      actions := actions + [rename];
      if s.logChannel in guildChannels {
        var log := Call(SendMessage(s.logChannel, CrewLog), None);
        actions := actions + [log];
        ConcatAssoc(named, [rename], [log]);
      }
      assert actions == named + CrewActions(s, ch, name, now, guildChannels);
    }

    /** `create_creator_channel`: create a fresh creator channel `created` in `category` and register it. */
    method CreateCreatorChannel(category: Id, created: Id)
      modifies this`crewCreators, this`actions
      ensures crewCreators == old(crewCreators) + {created}
      ensures actions == old(actions) + CreatorActions(config.settings(category), category, created)
    {
      var s := config.settings(category);
      actions := actions + [Call(CreateVoiceChannel(category, s.newCrewName, s.crewSize, created), None)];
      crewCreators := crewCreators + {created};
      actions := actions + [Call(SetPosition(created, 1), None)];
    }

    /**
     * `clean_empty_channels`: in a known guild, delete every unoccupied voice
     * channel of a managed category that is not a creator channel, each
     * delete swallowing only "unknown channel".
     */
    method CleanEmptyChannels(g: Guild) returns (ghost swept: seq<Id>)
      modifies this`actions
      ensures Distinct(swept) && Elements(swept) == SweepFor(g)
      ensures actions == old(actions) + DeleteAll(swept, Some(UNKNOWN_CHANNEL))
    {
      swept := [];
      if g.id !in knownGuilds {
        return;
      }
      var categories := knownGuilds[g.id];
      var remaining := g.channels.Keys;
      while exists x :: x in remaining
        invariant remaining <= g.channels.Keys
        invariant Distinct(swept)
        invariant Elements(swept) == SweepTargets(g, categories, crewCreators) - remaining
        invariant actions == old(actions) + DeleteAll(swept, Some(UNKNOWN_CHANNEL))
        decreases remaining
      {
        var id :| id in remaining;
        var channel := g.channels[id];
        if !channel.isVoice || id in crewCreators {
        } else if Truthy(channel.parentId) && channel.parentId.value in categories {
          var occupied := HasOccupant(g.voiceStates, id);
          if !occupied {
            ElementsAppend(swept, id);
            DistinctAppend(swept, id);
            DeleteAllAppend(swept, id, Some(UNKNOWN_CHANNEL));
            actions := actions + [Call(DeleteChannel(id), Some(UNKNOWN_CHANNEL))];
            swept := swept + [id];
          }
        }
        remaining := remaining - {id};
      }
    }

    /** The inner sweep of `on_guild_create`: delete every unoccupied voice channel under `category`, no error swallowed. */
    method SweepUnknownChannels(g: Guild, category: Id) returns (ghost deleted: seq<Id>)
      modifies this`actions
      ensures Distinct(deleted) && Elements(deleted) == InitTargets(g, category)
      ensures actions == old(actions) + DeleteAll(deleted, None)
    {
      deleted := [];
      var remaining := g.channels.Keys;
      while exists x :: x in remaining
        invariant remaining <= g.channels.Keys
        invariant Distinct(deleted)
        invariant Elements(deleted) == InitTargets(g, category) - remaining
        invariant actions == old(actions) + DeleteAll(deleted, None)
        decreases remaining
      {
        var id :| id in remaining;
        var channel := g.channels[id];
        if channel.isVoice && Truthy(channel.parentId) && channel.parentId.value == category {
          var occupied := HasOccupant(g.voiceStates, id);
          if !occupied {
            ElementsAppend(deleted, id);
            DistinctAppend(deleted, id);
            DeleteAllAppend(deleted, id, None);
            actions := actions + [Call(DeleteChannel(id), None)];
            deleted := deleted + [id];
          }
        }
        remaining := remaining - {id};
      }
    }

    /**
     * The loop of `on_guild_create` over the guild's managed categories: sweep
     * each one, then give it a creator channel.
     */
    method SetUpCategories(g: Guild, categories: set<Id>, creatorIdFor: Id -> Id)
      returns (ghost order: seq<Id>, ghost blocks: seq<seq<Id>>)
      modifies this`crewCreators, this`actions
      ensures Distinct(order) && Elements(order) == categories
      ensures SweptPerCategory(g, order, blocks)
      ensures crewCreators == old(crewCreators) + (set c | c in categories :: creatorIdFor(c))
      ensures actions == old(actions) + InitLog(config, order, blocks, creatorIdFor)
    {
      order, blocks := [], [];
      var remaining := categories;
      ghost var done: set<Id> := {};
      while exists x :: x in remaining
        invariant done + remaining == categories && done !! remaining
        invariant Distinct(order) && Elements(order) == done
        invariant SweptPerCategory(g, order, blocks)
        invariant crewCreators == old(crewCreators) + (set c | c in done :: creatorIdFor(c))
        invariant actions == old(actions) + InitLog(config, order, blocks, creatorIdFor)
        decreases remaining
      {
        var category :| category in remaining;
        ghost var log := InitLog(config, order, blocks, creatorIdFor);
        var deleted := SweepUnknownChannels(g, category);
        CreateCreatorChannel(category, creatorIdFor(category));
        ghost var creator := CreatorActions(config.settings(category), category, creatorIdFor(category));
        assert actions == old(actions) + log + DeleteAll(deleted, None) + creator;
        ConcatAssoc(old(actions), log + DeleteAll(deleted, None), creator);
        ConcatAssoc(old(actions), log, DeleteAll(deleted, None));
        ElementsAppend(order, category);
        DistinctAppend(order, category);
        InitLogStep(config, order, blocks, creatorIdFor, category, deleted);
        SweptPerCategoryStep(g, order, blocks, category, deleted);
        CreatorsStep(old(crewCreators), done, category, creatorIdFor);
        order, blocks := order + [category], blocks + [deleted];
        remaining, done := remaining - {category}, done + {category};
      }
    }

    /**
     * `on_guild_create`: the first time a guild is seen, manage its configured
     * categories, sweep each of them and give each a creator channel; register
     * the listeners when this is the first guild at all.
     */
    method OnGuildCreate(g: Guild, creatorIdFor: Id -> Id) returns (ghost order: seq<Id>, ghost blocks: seq<seq<Id>>)
      requires Valid()
      modifies this`knownGuilds, this`listenersRegistered, this`crewCreators, this`actions
      ensures Valid()
      ensures g.id in old(knownGuilds) ==>
        && knownGuilds == old(knownGuilds) && listenersRegistered == old(listenersRegistered)
        && crewCreators == old(crewCreators) && actions == old(actions)
      ensures g.id !in old(knownGuilds) ==>
        var categories := g.channels.Keys * config.categories;
        && knownGuilds == old(knownGuilds)[g.id := categories]
        && listenersRegistered
        && Distinct(order) && Elements(order) == categories
        && SweptPerCategory(g, order, blocks)
        && crewCreators == old(crewCreators) + (set c | c in categories :: creatorIdFor(c))
        && actions == old(actions) + InitLog(config, order, blocks, creatorIdFor)
    {
      order, blocks := [], [];
      if g.id in knownGuilds {
        return;
      }
      var registerListeners := knownGuilds == map[];
      var categories := g.channels.Keys * config.categories;
      knownGuilds := knownGuilds[g.id := categories];
      order, blocks := SetUpCategories(g, categories, creatorIdFor);
      if registerListeners {
        listenersRegistered := true;
      }
    }

    /**
     * `on_voice_state_update`: a join on a creator channel turns it into a
     * crew and provisions a new creator channel in its category; every update
     * then runs the empty-channel sweep.
     */
    method OnVoiceStateUpdate(g: Guild, state: VoiceState, newCreator: Id, now: int)
      returns (crew: Option<Result<string, Error>>, ghost swept: seq<Id>)
      requires Valid()
      modifies this`crewCreators, this`usedNames, this`actions
      ensures Valid()
      ensures crew.Some? <==> state.channelId.Some? && state.channelId.value in old(crewCreators)
      ensures crew.None? ==>
        && crewCreators == old(crewCreators) && usedNames == old(usedNames)
        && Distinct(swept) && Elements(swept) == SweepFor(g)
        && actions == old(actions) + DeleteAll(swept, Some(UNKNOWN_CHANNEL))
      ensures crew.Some? && state.channelId.value !in g.channels ==>
        && crew == Some(Err(AttributeError))
        && crewCreators == old(crewCreators) && usedNames == old(usedNames) && actions == old(actions)
      ensures crew.Some? && state.channelId.value in g.channels ==>
        var ch := state.channelId.value;
        var parent := ChannelParent(g, state.channelId);
        && crewCreators == (old(crewCreators) - {ch}) + (if parent.Some? then {newCreator} else {})
        && NamesAllocated(old(usedNames), usedNames, parent, crew.value)
        && Distinct(swept) && Elements(swept) == SweepFor(g)
        && actions == old(actions)
                      + CrewCalls(config, parent, crew.value, ch, now, g.channels.Keys)
                      + (if parent.Some? then CreatorActions(config.settings(parent.value), parent.value, newCreator) else [])
                      + DeleteAll(swept, Some(UNKNOWN_CHANNEL))
    {
      crew := None;
      swept := [];
      if state.channelId.Some? && state.channelId.value in crewCreators {
        var ch := state.channelId.value;
        if ch !in g.channels {
          // `event.state.channel` is None: the spawned crew creation fails on
          // `channel.id`, and so does the handler on `channel.parent`.
          return Some(Err(AttributeError)), [];
        }
        var parent := ChannelParent(g, state.channelId);
        var r := JoinCreator(ch, parent, g.channels.Keys, newCreator, now);
        crew := Some(r);
      }
      ghost var joined := actions;
      swept := CleanEmptyChannels(g);
      assert actions == joined + DeleteAll(swept, Some(UNKNOWN_CHANNEL));
    }

    /**
     * The two greenlets `on_voice_state_update` spawns when a member joins the
     * creator channel `ch`: the crew creation, then, when `ch` sits in a
     * category, a fresh creator channel there.
     */
    method JoinCreator(ch: Id, parent: Option<Id>, guildChannels: set<Id>, newCreator: Id, now: int)
      returns (r: Result<string, Error>)
      requires Valid() && ch in crewCreators
      modifies this`crewCreators, this`usedNames, this`actions
      ensures Valid()
      ensures crewCreators == (old(crewCreators) - {ch}) + (if parent.Some? then {newCreator} else {})
      ensures NamesAllocated(old(usedNames), usedNames, parent, r)
      ensures actions == old(actions)
                         + CrewCalls(config, parent, r, ch, now, guildChannels)
                         + (if parent.Some? then CreatorActions(config.settings(parent.value), parent.value, newCreator) else [])
    {
      r := CreateCrewChannel(ch, parent, guildChannels, now);
      if parent.Some? {
        CreateCreatorChannel(parent.value, newCreator);
      }
    }

    /**
     * `on_channel_delete`: forget the deleted channel's invites and delete
     * each recorded message, swallowing only "unknown message".
     */
    method OnChannelDelete(deleted: Id) returns (ghost keys: seq<Id>)
      modifies this`invites, this`actions
      ensures invites == DropChannel(old(invites), deleted)
      ensures deleted !in old(invites) ==> actions == old(actions)
      ensures deleted in old(invites) ==>
        var messages := old(invites)[deleted];
        && Distinct(keys) && Elements(keys) == messages.Keys
        && (forall i :: 0 <= i < |keys| ==> keys[i] in messages)
        && actions == old(actions) + MessageDeletes(messages, keys)
    {
      keys := [];
      if deleted !in invites {
        assert invites - {deleted} == invites;
      } else {
        var messages := invites[deleted];
        invites := invites - {deleted};
        var remaining := messages.Keys;
        while exists x :: x in remaining
          modifies this`actions
          invariant remaining <= messages.Keys
          invariant Distinct(keys) && Elements(keys) == messages.Keys - remaining
          invariant forall i :: 0 <= i < |keys| ==> keys[i] in messages
          invariant actions == old(actions) + MessageDeletes(messages, keys)
          decreases remaining
        {
          var alert :| alert in remaining;
          ElementsAppend(keys, alert);
          DistinctAppend(keys, alert);
          actions := actions + [Call(DeleteMessage(alert, messages[alert]), Some(UNKNOWN_MESSAGE))];
          keys := keys + [alert];
          remaining := remaining - {alert};
        }
      }
    }

    /**
     * `send_alert`: post an invite to `voice` in `alert`, replacing the
     * message previously recorded for that pair. Deleting the previous message
     * swallows only "unknown message"; `priorDelete` is what that delete did,
     * and `message` is the id of the newly posted message.
     */
    method SendAlert(alert: Id, voice: Id, category: Id, guildChannels: set<Id>, userMessage: Option<string>,
                     message: Id, priorDelete: ApiOutcome) returns (o: Outcome<Error>)
      modifies this`invites, this`actions
      ensures voice !in guildChannels ==> o == Pass && invites == old(invites) && actions == old(actions)
      ensures voice in guildChannels ==>
        var s := config.settings(category);
        var prior := Prior(old(invites), voice, alert);
        var opening := AlertOpening(s, voice, alert, prior);
        if prior.Some? && AllowApiException(UNKNOWN_MESSAGE, priorDelete).Fail? then
          && o == AllowApiException(UNKNOWN_MESSAGE, priorDelete)
          && invites == old(invites) && actions == old(actions) + opening
        else
          && o == Pass
          && invites == RecordInvite(old(invites), voice, alert, message)
          && actions == old(actions) + opening + AlertActions(s, alert, userMessage, guildChannels)
    {
      if voice !in guildChannels {
        return Pass;
      }
      var s := config.settings(category);
      ghost var ledger := invites;
      ghost var prior := Prior(ledger, voice, alert);
      actions := actions + [Call(CreateInvite(voice, s.alertInviteMaxAge), None)];
      if voice !in invites {
        invites := invites[voice := map[]];
      }
      ghost var entry := if voice in ledger then ledger[voice] else map[];
      assert invites[voice] == entry;
      if alert in invites[voice] {
        assert invites == ledger && prior == Some(invites[voice][alert]);
        var previous := invites[voice][alert];
        actions := actions + [Call(DeleteMessage(alert, previous), Some(UNKNOWN_MESSAGE))];
        ConcatAssoc(old(actions), [Call(CreateInvite(voice, s.alertInviteMaxAge), None)],
                    [Call(DeleteMessage(alert, previous), Some(UNKNOWN_MESSAGE))]);
        var deleted := AllowApiException(UNKNOWN_MESSAGE, priorDelete);
        if deleted.Fail? {
          return deleted;
        }
      }
      ghost var partial := actions;
      assert partial == old(actions) + AlertOpening(s, voice, alert, prior);
      var kind := if userMessage.Some? then CustomInvite(userMessage.value) else StandardInvite;
      actions := actions + [Call(SendMessage(alert, kind), None)];
      var updated: map<Id, Id> := invites[voice][alert := message];
      MapUpdateTwice(ledger, voice, map[], updated);
      invites := invites[voice := updated];
      if s.logChannel in guildChannels {
        actions := actions + [Call(SendMessage(s.logChannel, InviteLog), None)];
        ConcatAssoc(partial, [Call(SendMessage(alert, kind), None)], [Call(SendMessage(s.logChannel, InviteLog), None)]);
      }
      o := Pass;
    }

    /**
     * `on_invite_command`: delete the command message; if the author's first
     * voice state is in a channel of a configured category and the command
     * was typed in one of that category's alert channels, send an alert for
     * that voice channel.
     */
    method OnInviteCommand(g: Guild, author: Id, channel: Id, command: Id, userMessage: Option<string>,
                           message: Id, priorDelete: ApiOutcome)
      returns (o: Outcome<Error>, alerted: Option<Outcome<Error>>, ghost first: Option<nat>)
      modifies this`invites, this`actions
      ensures IsFirstStateOf(g.voiceStates, author, first)
      ensures |actions| > |old(actions)| && actions[..|old(actions)| + 1] == old(actions) + [Call(DeleteMessage(channel, command), Some(UNKNOWN_MESSAGE))]
      ensures first.None? ==> o == Pass && alerted.None?
      ensures first.Some? ==>
        var parent := ChannelParent(g, g.voiceStates[first.value].channelId);
        && (o == if parent.None? then Fail(AttributeError) else Pass)
        && (alerted.Some? <==> parent.Some? && parent.value in config.categories
                               && channel in config.settings(parent.value).alertAllowedChannels)
      ensures alerted.None? ==> invites == old(invites) && |actions| == |old(actions)| + 1
      ensures alerted == Some(Pass) ==>
        invites == RecordInvite(old(invites), g.voiceStates[first.value].channelId.value, channel, message)
      ensures alerted.Some? && alerted.value.Fail? ==> invites == old(invites)
      ensures alerted.Some? ==>
        var prior := Prior(old(invites), g.voiceStates[first.value].channelId.value, channel);
        alerted.value == if prior.Some? then AllowApiException(UNKNOWN_MESSAGE, priorDelete) else Pass
    {
      actions := actions + [Call(DeleteMessage(channel, command), Some(UNKNOWN_MESSAGE))];
      o, alerted := Pass, None;
      var found := FindVoiceState(g.voiceStates, author);
      first := found;
      if found.Some? {
        var state := g.voiceStates[found.value];
        var parent := ChannelParent(g, state.channelId);
        if parent.None? {
          return Fail(AttributeError), None, first;
        }
        if parent.value !in config.categories {
          return;
        }
        if channel in config.settings(parent.value).alertAllowedChannels {
          var sent := SendAlert(channel, state.channelId.value, parent.value, g.channels.Keys, userMessage, message, priorDelete);
          alerted := Some(sent);
        }
      }
    }
  }
}
