/**
 * Occupancy of voice channels, computed from a guild's voice states, and the
 * two selections of channels to delete: the periodic empty-channel sweep and
 * the sweep of a category when the guild is first seen.
 */
module Sweeps {
  import opened Wrappers
  import opened Collections
  import opened Discord

  /** Some voice state places a user in channel `ch`. */
  predicate Occupied(states: seq<VoiceState>, ch: Id)
  {
    exists i :: 0 <= i < |states| && states[i].channelId == Some(ch)
  }

  /** The inner loop of both sweeps: scan the voice states, stop at the first one in `ch`. */
  method HasOccupant(states: seq<VoiceState>, ch: Id) returns (occupied: bool)
    ensures occupied <==> Occupied(states, ch)
  {
    occupied := false;
    var i := 0;
    while i < |states|
      invariant 0 <= i <= |states|
      invariant forall k :: 0 <= k < i ==> states[k].channelId != Some(ch)
    {
      if states[i].channelId == Some(ch) {
        occupied := true;
        break;
      }
      i := i + 1;
    }
  }

  /** `ch` is a voice channel of `g` whose parent id is truthy and satisfies `inCategory`. */
  predicate IsVoiceIn(g: Guild, ch: Id, categories: set<Id>)
  {
    ch in g.channels && g.channels[ch].isVoice
    && Truthy(g.channels[ch].parentId) && g.channels[ch].parentId.value in categories
  }

  /**
   * The channels `clean_empty_channels` deletes: voice channels whose parent is
   * one of the guild's managed categories, that are not creator channels and
   * that no voice state occupies.
   */
  function SweepTargets(g: Guild, categories: set<Id>, creators: set<Id>): (r: set<Id>)
    ensures r <= g.channels.Keys
  {
    set ch | ch in g.channels && IsVoiceIn(g, ch, categories) && ch !in creators && !Occupied(g.voiceStates, ch)
  }

  /**
   * The channels `on_guild_create` deletes under `category`: every unoccupied
   * voice channel whose parent is that category, creator or not.
   */
  function InitTargets(g: Guild, category: Id): (r: set<Id>)
    ensures r <= g.channels.Keys
  {
    set ch | ch in g.channels && IsVoiceIn(g, ch, {category}) && !Occupied(g.voiceStates, ch)
  }

  /**
   * The periodic sweep is the first-seen sweep of each managed category with
   * the creator channels spared.
   */
  lemma SweepIsInitSweepWithoutCreators(g: Guild, categories: set<Id>, creators: set<Id>, ch: Id)
    ensures ch in SweepTargets(g, categories, creators) <==>
            ch !in creators && exists c :: c in categories && ch in InitTargets(g, c)
  {
    if ch in SweepTargets(g, categories, creators) {
      var c := g.channels[ch].parentId.value;
      assert ch in InitTargets(g, c);
    }
  }

  /** A channel someone is connected to, such as a crew just created for the user who joined it, is never swept. */
  lemma OccupiedNeverSwept(g: Guild, categories: set<Id>, creators: set<Id>, i: nat)
    requires i < |g.voiceStates| && g.voiceStates[i].channelId.Some?
    ensures g.voiceStates[i].channelId.value !in SweepTargets(g, categories, creators)
    ensures forall c :: g.voiceStates[i].channelId.value !in InitTargets(g, c)
  {
    assert Occupied(g.voiceStates, g.voiceStates[i].channelId.value);
  }

  /**
   * A managed category holding one empty and one occupied non-creator voice
   * channel: only the empty one is swept.
   */
  lemma OnlyEmptyChannelSwept(cat: Id, empty: Id, busy: Id, user: Id, guildId: Id)
    requires cat != 0 && cat != empty && cat != busy && empty != busy
    ensures var g := Guild(guildId,
                           map[cat := Channel(false, None),
                               empty := Channel(true, Some(cat)),
                               busy := Channel(true, Some(cat))],
                           [VoiceState(user, Some(busy))]);
            SweepTargets(g, {cat}, {}) == {empty}
  {
    var g := Guild(guildId,
                   map[cat := Channel(false, None),
                       empty := Channel(true, Some(cat)),
                       busy := Channel(true, Some(cat))],
                   [VoiceState(user, Some(busy))]);
    assert g.voiceStates[0].channelId == Some(busy);
    assert !Occupied(g.voiceStates, empty);
  }

  /** `i` is the position of `user`'s first voice state, or `None` when the user has none. */
  ghost predicate IsFirstStateOf(states: seq<VoiceState>, user: Id, i: Option<nat>)
  {
    match i
    case None => forall k :: 0 <= k < |states| ==> states[k].user != user
    case Some(n) => n < |states| && states[n].user == user
                    && forall k :: 0 <= k < n ==> states[k].user != user
  }

  /** The loop of the invite command: scan the voice states, stop at the first one of `user`. */
  method FindVoiceState(states: seq<VoiceState>, user: Id) returns (i: Option<nat>)
    ensures IsFirstStateOf(states, user, i)
  {
    i := None;
    var k := 0;
    while k < |states|
      invariant 0 <= k <= |states|
      invariant forall j :: 0 <= j < k ==> states[j].user != user
    {
      if states[k].user == user {
        i := Some(k);
        break;
      }
      k := k + 1;
    }
  }
}
