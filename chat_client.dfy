/**
 * The chat-client bootstrap of the meeting page (hooks/useStreamChatClient.ts):
 * connect the signed-in user to the chat service, watch the meeting's channel when
 * there is a meeting, and only then publish the client; disconnect on cleanup.
 * Remote calls are recorded in an effect log and their outcomes are parameters.
 */
module ChatClient {
  import opened Wrappers

  const ChannelType := "messaging"
  const ChannelIdPrefix := "meeting-chat-"
  const ChannelNamePrefix := "Meeting Chat "

  /** The signed-in user as the identity provider reports it. */
  datatype User = User(id: string, fullName: Option<string>, username: Option<string>, imageUrl: string)

  /** JavaScript truthiness of an optional string: present and not empty. */
  predicate Truthy(s: Option<string>)
  {
    s.Some? && s.value != ""
  }

  /** `user?.id` is truthy: there is a user and the identifier is not empty. */
  predicate HasUserId(user: Option<User>)
  {
    user.Some? && user.value.id != ""
  }

  /** The chat channel that belongs to a meeting; the meeting identifier is its suffix. */
  function ChannelId(meetingId: string): (r: string)
    ensures |r| == |ChannelIdPrefix| + |meetingId|
    ensures r[..|ChannelIdPrefix|] == ChannelIdPrefix && r[|ChannelIdPrefix|..] == meetingId
  {
    ChannelIdPrefix + meetingId
  }

  /** The display name given to a meeting's channel. */
  function ChannelName(meetingId: string): (r: string)
    ensures |r| == |ChannelNamePrefix| + |meetingId|
    ensures r[..|ChannelNamePrefix|] == ChannelNamePrefix && r[|ChannelNamePrefix|..] == meetingId
  {
    ChannelNamePrefix + meetingId
  }

  /** Recovers the meeting identifier from a channel identifier, when it has the meeting form. */
  function MeetingOfChannel(channelId: string): Option<string>
  {
    if |ChannelIdPrefix| <= |channelId| && channelId[..|ChannelIdPrefix|] == ChannelIdPrefix
    then Some(channelId[|ChannelIdPrefix|..])
    else None
  }

  /** The channel identifier determines the meeting: the derivation can be undone without a lookup. */
  lemma ChannelIdRoundTrip(meetingId: string, channelId: string)
    ensures MeetingOfChannel(ChannelId(meetingId)) == Some(meetingId)
    ensures MeetingOfChannel(channelId) == Some(meetingId) ==> ChannelId(meetingId) == channelId
  {
    if MeetingOfChannel(channelId) == Some(meetingId) {
      assert channelId == channelId[..|ChannelIdPrefix|] + channelId[|ChannelIdPrefix|..];
    }
  }

  /** Distinct meetings get distinct channels. */
  lemma ChannelIdInjective(a: string, b: string)
    ensures ChannelId(a) == ChannelId(b) ==> a == b
  {
    ChannelIdRoundTrip(a, ChannelId(b));
  }

  /**
   * The name sent on connect: `fullName || username || id`, the first candidate
   * that is present and not empty, the identifier as the last resort.
   */
  function DisplayName(user: User): (r: string)
    ensures Truthy(user.fullName) ==> r == user.fullName.value
    ensures !Truthy(user.fullName) && Truthy(user.username) ==> r == user.username.value
    ensures !Truthy(user.fullName) && !Truthy(user.username) ==> r == user.id
  {
    if Truthy(user.fullName) then user.fullName.value
    else if Truthy(user.username) then user.username.value
    else user.id
  }

  /** A user with an identifier always gets a non-empty display name. */
  lemma DisplayNameNotEmpty(user: User)
    requires user.id != ""
    ensures DisplayName(user) != ""
  {
  }

  /** The development token the client derives for a user. */
  datatype Token = DevToken(userId: string)

  /** The process-wide chat client for an API key (`StreamChat.getInstance`). */
  datatype Client = Client(apiKey: string)

  /** Calls this hook makes on the chat service, in the order it makes them. */
  datatype ChatEffect =
    | ConnectUser(id: string, name: string, image: string, token: Token)
    | WatchChannel(channelType: string, channelId: string, name: string)
    | DisconnectUser

  /** What one run of the bootstrap does: the remote calls it issues and whether it publishes the client. */
  datatype InitRun = InitRun(log: seq<ChatEffect>, publishes: bool)

  /**
   * One run of the effect for `user` and `meetingId`, given how the connect and the
   * watch settle. A rejected step ends the run (the error is logged and swallowed).
   */
  function InitChatRun(user: Option<User>, meetingId: string, connect: Outcome, watch: Outcome): (r: InitRun)
    ensures |r.log| == (if !HasUserId(user) then 0 else if connect.Rejected? || meetingId == "" then 1 else 2)
    ensures forall i :: 0 <= i < |r.log| ==> !r.log[i].DisconnectUser?
    ensures r.publishes ==> HasUserId(user) && connect.Resolved?
  {
    if !HasUserId(user) then InitRun([], false)
    else
      var u := user.value;
      var connectCall := ConnectUser(u.id, DisplayName(u), u.imageUrl, DevToken(u.id));
      if connect.Rejected? then InitRun([connectCall], false)
      else if meetingId == "" then InitRun([connectCall], true)
      else
        var watchCall := WatchChannel(ChannelType, ChannelId(meetingId), ChannelName(meetingId));
        InitRun([connectCall, watchCall], watch.Resolved?)
  }

  /** Without a user identifier nothing is sent and nothing is published. */
  lemma NoUserNoEffects(user: Option<User>, meetingId: string, connect: Outcome, watch: Outcome)
    requires !HasUserId(user)
    ensures InitChatRun(user, meetingId, connect, watch) == InitRun([], false)
  {
  }

  /**
   * With a user identifier the run starts by connecting that user under the display name
   * and a development token for the same identifier.
   */
  lemma ConnectComesFirst(user: Option<User>, meetingId: string, connect: Outcome, watch: Outcome)
    requires HasUserId(user)
    ensures var run := InitChatRun(user, meetingId, connect, watch);
      |run.log| >= 1 &&
      run.log[0] == ConnectUser(user.value.id, DisplayName(user.value), user.value.imageUrl, DevToken(user.value.id))
  {
  }

  /**
   * A channel is watched exactly when connect resolved and there is a meeting, and then it is
   * the meeting's own channel, watched after the connect.
   */
  lemma WatchOnlyAfterConnect(user: Option<User>, meetingId: string, connect: Outcome, watch: Outcome)
    ensures var run := InitChatRun(user, meetingId, connect, watch);
      (exists i :: 0 <= i < |run.log| && run.log[i].WatchChannel?)
        <==> HasUserId(user) && connect.Resolved? && meetingId != ""
    ensures var run := InitChatRun(user, meetingId, connect, watch);
      forall i :: 0 <= i < |run.log| && run.log[i].WatchChannel? ==>
        i == 1 && run.log[0].ConnectUser?
        && run.log[i] == WatchChannel("messaging", "meeting-chat-" + meetingId, "Meeting Chat " + meetingId)
  {
    var run := InitChatRun(user, meetingId, connect, watch);
    if HasUserId(user) && connect.Resolved? && meetingId != "" {
      assert run.log[1].WatchChannel?;
    }
  }

  /**
   * The client is published exactly when connect resolved and, for a meeting, the watch
   * resolved too; a failed step never publishes.
   */
  lemma PublishOnlyAfterSuccess(user: Option<User>, meetingId: string, connect: Outcome, watch: Outcome)
    ensures InitChatRun(user, meetingId, connect, watch).publishes
        <==> HasUserId(user) && connect.Resolved? && (meetingId == "" || watch.Resolved?)
  {
  }

  /** The chat state the hook keeps: the published client (`null` until set) and the calls it made. */
  class ChatBootstrap {
    const apiKey: string
    var chatClient: Option<Client>
    var effects: seq<ChatEffect>

    constructor (apiKey: string)
      ensures this.apiKey == apiKey && chatClient == None && effects == []
    {
      this.apiKey := apiKey;
      chatClient := None;
      effects := [];
    }

    /**
     * The effect body: return when there is no user identifier; otherwise connect, watch the
     * meeting's channel when there is a meeting, and publish the client. A rejection at either
     * await ends the run with the client left as it was.
     */
    method InitChat(user: Option<User>, meetingId: string, connect: Outcome, watch: Outcome)
      modifies this
      ensures var run := InitChatRun(user, meetingId, connect, watch);
        effects == old(effects) + run.log
        && chatClient == (if run.publishes then Some(Client(apiKey)) else old(chatClient))
    {
      if !HasUserId(user) {
        return;
      }
      var u := user.value;
      var client := Client(apiKey);
      effects := effects + [ConnectUser(u.id, DisplayName(u), u.imageUrl, DevToken(u.id))];
      if connect.Rejected? {
        return;
      }
      if meetingId != "" {
        var channelId := ChannelId(meetingId);
        effects := effects + [WatchChannel(ChannelType, channelId, ChannelName(meetingId))];
        if watch.Rejected? {
          return;
        }
      }
      chatClient := Some(client);
    }

    /**
     * The effect cleanup as it runs at unmount: disconnect only when a client has been
     * published; the client stays set. It reads the current client, which is the one the
     * closure captured once the client has been published.
     */
    method Cleanup()
      modifies this
      ensures effects == old(effects) + (if old(chatClient).Some? then [DisconnectUser] else [])
      ensures chatClient == old(chatClient)
    {
      if chatClient.Some? {
        effects := effects + [DisconnectUser];
      }
    }
  }
}
