/**
 * The in-meeting view (components/MeetingRoom.tsx): the chosen layout, the participants
 * and chat panel flags and the meeting's chat channel, what the page shows for a calling
 * state, and the device shutdown performed on leave. The SDK's call and local participant
 * are values; device commands and navigation are returned as commands.
 */
module MeetingRoom {
  import opened Wrappers
  import Strings
  import ChatClient

  /** The layout values the state may hold, and the menu labels that select them. */
  const Layouts: seq<string> := ["grid", "speaker-left", "speaker-right"]
  const MenuLabels: seq<string> := ["Grid", "Speaker-Left", "Speaker-Right"]

  /** The calling states the video SDK reports. */
  datatype CallingState =
    | Unknown | Idle | Ringing | Joining | Joined | Reconnecting | Migrating
    | ReconnectingFailed | Offline | Left

  datatype BarPosition = BarLeft | BarRight

  /** The video layout component rendered. */
  datatype LayoutView = PaginatedGrid | SpeakerLayout(participantsBar: BarPosition)

  /** The `CallLayout` switch: 'grid', 'speaker-right', and every other value as speaker-left. */
  function CallLayout(layout: string): (v: LayoutView)
    ensures v == PaginatedGrid <==> layout == "grid"
    ensures v == SpeakerLayout(BarLeft) <==> layout == "speaker-right"
    ensures v == SpeakerLayout(BarRight) <==> layout != "grid" && layout != "speaker-right"
  {
    if layout == "grid" then PaginatedGrid
    else if layout == "speaker-right" then SpeakerLayout(BarLeft)
    else SpeakerLayout(BarRight)
  }

  lemma GridLabel() ensures Strings.ToLower("Grid") == "grid" { Strings.ToLowerIs("Grid", "grid"); }

  lemma SpeakerLeftLabel() ensures Strings.ToLower("Speaker-Left") == "speaker-left"
  {
    Strings.ToLowerIs("Speaker-Left", "speaker-left");
  }

  lemma SpeakerRightLabel() ensures Strings.ToLower("Speaker-Right") == "speaker-right"
  {
    Strings.ToLowerIs("Speaker-Right", "speaker-right");
  }

  /** Lower-casing the `i`-th menu label gives the `i`-th layout value. */
  lemma MenuLabelSelectsLayout(i: nat)
    requires i < |MenuLabels|
    ensures i < |Layouts| && Strings.ToLower(MenuLabels[i]) == Layouts[i]
  {
    if i == 0 {
      GridLabel();
    } else if i == 1 {
      SpeakerLeftLabel();
    } else {
      SpeakerRightLabel();
    }
  }

  /** `searchParams.get('id') || ''`. */
  function MeetingIdParam(id: Option<string>): (r: string)
    ensures id.Some? ==> r == id.value
    ensures r == "" <==> id.None? || id.value == ""
  {
    if id.Some? then id.value else ""
  }

  /** `!!searchParams.get('personal')`: the parameter is present and not empty. */
  predicate IsPersonalRoom(personal: Option<string>): (b: bool)
    ensures b <==> personal.Some? && |personal.value| > 0
  {
    personal.Some? && personal.value != ""
  }

  /** What the page shows: the loader, or the room with what each of its switches selects. */
  datatype Screen =
    | Loader
    | Room(layout: LayoutView, participantsPanel: bool, chatPanel: bool,
           chatContent: bool, endCallButton: bool)

  /** The local participant as the call state reports it. */
  datatype Participant = Participant(publishedTracks: seq<string>)

  /** The call handle `useCall()` yields, reduced to what `onLeave` reads. */
  datatype CallHandle = CallHandle(localParticipant: Option<Participant>)

  /** What `onLeave` asks of the devices and the router. */
  datatype Command = DisableCamera | DisableMicrophone | Navigate(path: string)

  /** There is a call and a local participant, and it publishes `track`. */
  predicate Publishes(call: Option<CallHandle>, track: string)
  {
    call.Some? && call.value.localParticipant.Some?
    && track in call.value.localParticipant.value.publishedTracks
  }

  /**
   * The `onLeave` handler: turn the camera off when it is published, the microphone off when
   * it is published, each checked on its own, and navigate home in every case, last.
   */
  method OnLeave(call: Option<CallHandle>) returns (cmds: seq<Command>)
    ensures |cmds| == 1 + (if Publishes(call, "camera") then 1 else 0)
                        + (if Publishes(call, "microphone") then 1 else 0)
    ensures cmds[|cmds| - 1] == Navigate("/")
    ensures DisableCamera in cmds <==> Publishes(call, "camera")
    ensures DisableMicrophone in cmds <==> Publishes(call, "microphone")
    ensures Publishes(call, "camera") ==> cmds[0] == DisableCamera
  {
    cmds := [];
    if call.Some? {
      var localParticipant := call.value.localParticipant;
      if localParticipant.Some? {
        if "camera" in localParticipant.value.publishedTracks {
          cmds := cmds + [DisableCamera];
        }
        if "microphone" in localParticipant.value.publishedTracks {
          cmds := cmds + [DisableMicrophone];
        }
      }
    }
    cmds := cmds + [Navigate("/")];
  }

  /** A participant publishing only audio gets its microphone turned off and its camera left alone. */
  method LeaveWithMicrophoneOnly()
  {
    var cmds := OnLeave(Some(CallHandle(Some(Participant(["microphone"])))));
    assert cmds == [DisableMicrophone, Navigate("/")];
    cmds := OnLeave(Some(CallHandle(None)));
    assert cmds == [Navigate("/")];
    cmds := OnLeave(None);
    assert cmds == [Navigate("/")];
  }

  /** The view state of one mounted meeting page. */
  class RoomView {
    const meetingId: string
    const personal: Option<string>
    var layout: string
    var showParticipants: bool
    var showChat: bool
    var channelId: string

    /** The layout is one of the three values, and the channel is unset or this meeting's. */
    ghost predicate Valid()
      reads this
    {
      && layout in Layouts
      && (channelId == "" || (meetingId != "" && channelId == ChatClient.ChannelId(meetingId)))
    }

    /** Mounting reads the `id` and `personal` search parameters; both panels start hidden. */
    constructor (idParam: Option<string>, personal: Option<string>)
      ensures Valid()
      ensures meetingId == MeetingIdParam(idParam) && this.personal == personal
      ensures layout == "speaker-left" && !showParticipants && !showChat && channelId == ""
    {
      meetingId := MeetingIdParam(idParam);
      this.personal := personal;
      layout := "speaker-left";
      showParticipants := false;
      showChat := false;
      channelId := "";
    }

    /** The channel effect: a non-empty meeting identifier sets this meeting's channel; otherwise nothing. */
    method ChannelEffect()
      requires Valid()
      modifies this
      ensures Valid()
      ensures channelId == (if meetingId != "" then ChatClient.ChannelId(meetingId) else old(channelId))
      ensures layout == old(layout) && showParticipants == old(showParticipants) && showChat == old(showChat)
    {
      if meetingId != "" {
        channelId := ChatClient.ChannelId(meetingId);
      }
    }

    /**
     * The `index`-th layout menu item sets the layout to its lower-cased label, which is
     * the `index`-th layout value.
     */
    method SelectLayout(index: nat)
      requires Valid() && index < |MenuLabels|
      modifies this
      ensures Valid()
      ensures layout == Strings.ToLower(MenuLabels[index]) && layout == Layouts[index]
      ensures showParticipants == old(showParticipants) && showChat == old(showChat) && channelId == old(channelId)
    {
      MenuLabelSelectsLayout(index);
      layout := Strings.ToLower(MenuLabels[index]);
    }

    /** The participants button flips only the participants flag. */
    method ToggleParticipants()
      requires Valid()
      modifies this
      ensures Valid()
      ensures showParticipants == !old(showParticipants)
      ensures layout == old(layout) && showChat == old(showChat) && channelId == old(channelId)
    {
      showParticipants := !showParticipants;
    }

    /** The participants list's close button hides only the participants panel. */
    method CloseParticipants()
      requires Valid()
      modifies this
      ensures Valid()
      ensures !showParticipants
      ensures layout == old(layout) && showChat == old(showChat) && channelId == old(channelId)
    {
      showParticipants := false;
    }

    /** The chat button flips only the chat flag. */
    method ToggleChat()
      requires Valid()
      modifies this
      ensures Valid()
      ensures showChat == !old(showChat)
      ensures layout == old(layout) && showParticipants == old(showParticipants) && channelId == old(channelId)
    {
      showChat := !showChat;
    }

    /** The chat panel's close button hides only the chat panel. */
    method CloseChat()
      requires Valid()
      modifies this
      ensures Valid()
      ensures !showChat
      ensures layout == old(layout) && showParticipants == old(showParticipants) && channelId == old(channelId)
    {
      showChat := false;
    }

    /**
     * What the page renders for a calling state and whether the chat client is ready: the
     * loader until the call is joined; then the layout the switch selects, both panels as
     * their flags say, chat content only with the panel shown, a client and a channel, and
     * the end-call button only outside a personal room.
     */
    function Render(callingState: CallingState, chatClientReady: bool): (s: Screen)
      reads this
      ensures s.Loader? <==> callingState != Joined
      ensures s.Room? ==> s.layout == CallLayout(layout)
      ensures s.Room? ==> s.participantsPanel == showParticipants && s.chatPanel == showChat
      ensures s.Room? ==> (s.chatContent <==> showChat && chatClientReady && channelId != "")
      ensures s.Room? ==> (s.endCallButton <==> personal.None? || personal == Some(""))
    {
      if callingState != Joined then Loader
      else Room(CallLayout(layout), showParticipants, showChat,
                showChat && chatClientReady && channelId != "", !IsPersonalRoom(personal))
    }

    /** Chat content, when shown, is always this meeting's channel, and there is a meeting. */
    lemma ChatContentIsThisMeeting(callingState: CallingState, chatClientReady: bool)
      requires Valid()
      ensures var s := Render(callingState, chatClientReady);
        s.Room? && s.chatContent ==>
          meetingId != "" && ChatClient.MeetingOfChannel(channelId) == Some(meetingId)
    {
      if meetingId != "" {
        ChatClient.ChannelIdRoundTrip(meetingId, channelId);
      }
    }
  }

  /** Both panels can be open at once: the two toggles do not exclude each other. */
  method BothPanelsOpen()
  {
    var view := new RoomView(Some("abc123"), None);
    view.ChannelEffect();
    assert view.channelId == "meeting-chat-abc123";
    view.ToggleParticipants();
    view.ToggleChat();
    var s := view.Render(Joined, true);
    assert s.participantsPanel && s.chatPanel && s.chatContent && s.endCallButton;
    assert s.layout == SpeakerLayout(BarRight);
  }
}
