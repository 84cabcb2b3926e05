/**
 * The part of the chat server that the plugin sees: a snapshot of one guild
 * (its channel cache and its voice states), the REST calls the plugin issues,
 * and the error-code filter it wraps around some of them.
 */
module Discord {
  import opened Wrappers

  /** Snowflake identifiers of guilds, channels, users and messages. */
  type Id = int

  /** API error code for a channel that no longer exists. */
  const UNKNOWN_CHANNEL: int := 10003
  /** API error code for a message that no longer exists. */
  const UNKNOWN_MESSAGE: int := 10008

  /** One entry of a guild's channel cache. Categories are channels too. */
  datatype Channel = Channel(isVoice: bool, parentId: Option<Id>)

  /** One entry of a guild's voice states: who is connected, and to which channel. */
  datatype VoiceState = VoiceState(user: Id, channelId: Option<Id>)

  datatype Guild = Guild(id: Id, channels: map<Id, Channel>, voiceStates: seq<VoiceState>)

  /** Python truthiness of an optional id: `None` and `0` are false. */
  predicate Truthy(p: Option<Id>)
  {
    p.Some? && p.value != 0
  }

  /**
   * The id of `channel.parent` for the channel `ch` names: the client resolves
   * both the channel and its parent through the guild's channel cache, and
   * yields `None` when either lookup misses.
   */
  function ChannelParent(g: Guild, ch: Option<Id>): Option<Id>
  {
    if ch.Some? && ch.value in g.channels then
      var p := g.channels[ch.value].parentId;
      if p.Some? && p.value in g.channels then p else None
    else None
  }

  /** The exceptions the plugin's handlers can raise. */
  datatype Error =
    | KeyError        // set.remove of an absent element
    | IndexError      // random.choice of an empty list
    | AttributeError  // attribute access on None
    | ApiError(code: int)

  /** What a REST call did: it returned, or it raised an APIException with a code. */
  datatype ApiOutcome = Done | Raised(code: int)

  /** The message templates the plugin posts; their wording is not modelled. */
  datatype MessageKind = CrewLog | InviteLog | StandardInvite | CustomInvite(text: string)

  datatype ApiCall =
    | DeleteChannel(channel: Id)
    | ModifyChannel(channel: Id, name: string, position: int)
    | CreateVoiceChannel(category: Id, name: string, userLimit: int, created: Id)
    | SetPosition(channel: Id, position: int)
    | CreateInvite(channel: Id, maxAge: int)
    | SendMessage(channel: Id, kind: MessageKind)
    | DeleteMessage(channel: Id, message: Id)

  /** One REST call issued by the plugin, with the error code its caller swallows, if any. */
  datatype Action = Call(api: ApiCall, tolerated: Option<int>)

  /**
   * `allow_api_exception`: run a call and swallow an APIException carrying
   * exactly `code`; every other code is raised again.
   */
  function AllowApiException(code: int, outcome: ApiOutcome): (r: Outcome<Error>)
    ensures r.Pass? <==> outcome.Done? || outcome.code == code
    ensures r.Fail? ==> r.error == ApiError(outcome.code) && outcome.code != code
  {
    match outcome
    case Done => Pass
    case Raised(c) => if c == code then Pass else Fail(ApiError(c))
  }

  /** Channel deletes for `ids`, in that order, each swallowing `tolerated`. */
  function DeleteAll(ids: seq<Id>, tolerated: Option<int>): seq<Action>
  {
    seq(|ids|, i requires 0 <= i < |ids| => Call(DeleteChannel(ids[i]), tolerated))
  }

  lemma DeleteAllAppend(ids: seq<Id>, x: Id, tolerated: Option<int>)
    ensures DeleteAll(ids + [x], tolerated) == DeleteAll(ids, tolerated) + [Call(DeleteChannel(x), tolerated)]
  {
  }
}
