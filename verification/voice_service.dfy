/**
 * The voice service: the app-facing owner of one voice client, which keeps
 * its own copy of the connection, listening and speech state for the user
 * interface and forwards the client's reports.
 *
 * The optional user-interface callbacks are modelled as the ghost log
 * `callbacks` of the calls the service makes to them. The client's reports
 * reach the service through `Deliver`, which is the delegate wrapper.
 */
module VoiceService {
  import opened DataTypes
  import opened VoiceClient

  /** A call the service makes to one of its user-interface callbacks. */
  datatype UiEvent =
    | ConnectionChanged(connected: bool)
    | StateChanged(status: string)
    | MoodReceived(mood: RobotMood)

  /** The status line shown for a listening flag. */
  function ListeningStatus(listening: bool): (s: string)
    ensures listening ==> s == "listening"
    ensures !listening ==> s == "idle"
  {
    if listening then "listening" else "idle"
  }

  class XiaozhiService {
    var voiceClient: XiaozhiVoiceClient?
    var isConnected: bool
    var isListening: bool
    var ttsState: string
    var connectionStatus: string
    ghost var callbacks: seq<UiEvent>

    ghost predicate Valid()
      reads this, voiceClient
    {
      voiceClient != null ==> voiceClient.Valid()
    }

    constructor ()
      ensures Valid() && voiceClient == null
      ensures !isConnected && !isListening && ttsState == "idle" && connectionStatus == "disconnected"
      ensures callbacks == []
    {
      voiceClient := null;
      isConnected := false;
      isListening := false;
      ttsState := "idle";
      connectionStatus := "disconnected";
      callbacks := [];
    }

    /**
     * Starts the service once: a second start while a client exists does
     * nothing. Otherwise a new client is made, put in automatic mode and
     * asked to connect.
     */
    method StartService()
      requires Valid()
      modifies this
      ensures Valid()
      ensures old(voiceClient) != null ==>
        voiceClient == old(voiceClient) && connectionStatus == old(connectionStatus) &&
        callbacks == old(callbacks) && isConnected == old(isConnected)
      ensures old(voiceClient) == null ==>
        voiceClient != null && fresh(voiceClient) &&
        !voiceClient.isManualMode && !voiceClient.isConnected && voiceClient.hasSocket &&
        voiceClient.wire == [Open] && voiceClient.listenState == "stop" &&
        voiceClient.sessionId == None && voiceClient.ttsState == "idle" &&
        voiceClient.recorder == [] && voiceClient.notices == [] &&
        connectionStatus == "connecting" && callbacks == old(callbacks) + [ConnectionChanged(false)]
      ensures isListening == old(isListening) && ttsState == old(ttsState) && isConnected == old(isConnected)
    {
      if voiceClient != null {
        return;
      }
      var client := new XiaozhiVoiceClient();
      voiceClient := client;
      client.SetManualMode(false);
      Connect();
    }

    /** Marks the service as connecting and asks the client to connect. */
    method Connect()
      requires Valid()
      modifies this`connectionStatus, this`callbacks, voiceClient
      ensures Valid()
      ensures voiceClient == null ==>
        connectionStatus == old(connectionStatus) && callbacks == old(callbacks)
      ensures voiceClient != null ==>
        connectionStatus == "connecting" && callbacks == old(callbacks) + [ConnectionChanged(false)] &&
        voiceClient.isManualMode == old(voiceClient.isManualMode) &&
        voiceClient.isConnected == old(voiceClient.isConnected) &&
        voiceClient.listenState == old(voiceClient.listenState) &&
        voiceClient.sessionId == old(voiceClient.sessionId) &&
        voiceClient.ttsState == old(voiceClient.ttsState) &&
        voiceClient.recorder == old(voiceClient.recorder) &&
        voiceClient.notices == old(voiceClient.notices) &&
        (old(voiceClient.isConnected) ==>
          voiceClient.hasSocket == old(voiceClient.hasSocket) && voiceClient.wire == old(voiceClient.wire)) &&
        (!old(voiceClient.isConnected) ==> voiceClient.hasSocket && voiceClient.wire == old(voiceClient.wire) + [Open])
    {
      if voiceClient == null {
        return;
      }
      connectionStatus := "connecting";
      callbacks := callbacks + [ConnectionChanged(false)];
      voiceClient.Connect();
    }

    /** Disconnects the client (if any) and records the disconnection. */
    method Disconnect()
      requires Valid()
      modifies this`isConnected, this`connectionStatus, this`isListening, this`ttsState, this`callbacks, voiceClient
      ensures Valid()
      ensures voiceClient != null ==>
        !voiceClient.isConnected && !voiceClient.hasSocket && voiceClient.listenState == "stop" &&
        voiceClient.wire == old(voiceClient.wire) + (if old(voiceClient.hasSocket) then [Cancel] else []) &&
        voiceClient.recorder == old(voiceClient.recorder) + [StopRecording, StopPlaying] &&
        voiceClient.sessionId == old(voiceClient.sessionId) &&
        voiceClient.isManualMode == old(voiceClient.isManualMode) &&
        voiceClient.ttsState == old(voiceClient.ttsState) &&
        voiceClient.notices == old(voiceClient.notices)
      ensures !isConnected && !isListening && ttsState == "idle" && connectionStatus == "disconnected"
      ensures callbacks == old(callbacks) + [ConnectionChanged(false), StateChanged("disconnected")]
    {
      if voiceClient != null {
        voiceClient.Disconnect();
      }
      UpdateConnectionState(false, "disconnected");
    }

    /** Disconnects and drops the client, leaving the service disconnected. */
    method Cleanup()
      requires Valid()
      modifies this, voiceClient
      ensures Valid() && voiceClient == null
      ensures old(voiceClient) != null ==>
        !old(voiceClient).isConnected && !old(voiceClient).hasSocket && old(voiceClient).listenState == "stop" &&
        old(voiceClient).wire == old(voiceClient.wire) + (if old(voiceClient.hasSocket) then [Cancel] else []) &&
        old(voiceClient).recorder == old(voiceClient.recorder) + [StopRecording, StopPlaying] &&
        old(voiceClient).sessionId == old(voiceClient.sessionId) &&
        old(voiceClient).isManualMode == old(voiceClient.isManualMode) &&
        old(voiceClient).ttsState == old(voiceClient.ttsState) &&
        old(voiceClient).notices == old(voiceClient.notices)
      ensures !isConnected && !isListening && ttsState == "idle" && connectionStatus == "disconnected"
      ensures callbacks == old(callbacks) + [ConnectionChanged(false), StateChanged("disconnected")]
    {
      if voiceClient != null {
        voiceClient.Disconnect();
      }
      voiceClient := null;
      UpdateConnectionState(false, "disconnected");
    }

    /**
     * Records the connection state and status. Losing the connection also
     * clears listening and resets the speech state; gaining it leaves both.
     */
    method UpdateConnectionState(connected: bool, status: string)
      modifies this`isConnected, this`connectionStatus, this`isListening, this`ttsState, this`callbacks
      ensures isConnected == connected && connectionStatus == status
      ensures !connected ==> !isListening && ttsState == "idle"
      ensures connected ==> isListening == old(isListening) && ttsState == old(ttsState)
      ensures callbacks == old(callbacks) + [ConnectionChanged(connected), StateChanged(status)]
    {
      isConnected := connected;
      connectionStatus := status;
      if !connected {
        isListening := false;
        ttsState := "idle";
      }
      callbacks := callbacks + [ConnectionChanged(connected), StateChanged(status)];
    }

    method UpdateListeningState(listening: bool)
      modifies this`isListening, this`callbacks
      ensures isListening == listening
      ensures callbacks == old(callbacks) + [StateChanged(ListeningStatus(listening))]
    {
      isListening := listening;
      callbacks := callbacks + [StateChanged(if listening then "listening" else "idle")];
    }

    method UpdateTTSState(state: string)
      modifies this`ttsState, this`callbacks
      ensures ttsState == state
      ensures callbacks == old(callbacks) + [StateChanged(state)]
    {
      ttsState := state;
      callbacks := callbacks + [StateChanged(state)];
    }

    /** Asks the client to listen in manual mode; ignored while the service is not connected. */
    method StartListening()
      requires Valid()
      modifies voiceClient
      ensures Valid()
      ensures voiceClient != null ==>
        voiceClient.isManualMode == old(voiceClient.isManualMode) &&
        voiceClient.isConnected == old(voiceClient.isConnected) &&
        voiceClient.sessionId == old(voiceClient.sessionId) &&
        voiceClient.hasSocket == old(voiceClient.hasSocket) &&
        voiceClient.ttsState == old(voiceClient.ttsState) && voiceClient.notices == old(voiceClient.notices)
      ensures voiceClient != null && !isConnected ==>
        voiceClient.wire == old(voiceClient.wire) && voiceClient.listenState == old(voiceClient.listenState) &&
        voiceClient.recorder == old(voiceClient.recorder)
      ensures voiceClient != null && isConnected && voiceClient.isConnected && voiceClient.sessionId.Some? ==>
        voiceClient.listenState == "start" && voiceClient.recorder == old(voiceClient.recorder) + [StartRecording] &&
        voiceClient.wire == old(voiceClient.wire) + [Send(Listen(voiceClient.sessionId.value, "start", Some("manual")))]
      ensures voiceClient != null && isConnected && !(voiceClient.isConnected && voiceClient.sessionId.Some?) ==>
        voiceClient.wire == old(voiceClient.wire) && voiceClient.listenState == old(voiceClient.listenState) &&
        voiceClient.recorder == old(voiceClient.recorder)
    {
      if !isConnected {
        return;
      }
      if voiceClient != null {
        voiceClient.StartListening("manual");
      }
    }

    /** Asks the client to stop listening; ignored while the service is not connected. */
    method StopListening()
      requires Valid()
      modifies voiceClient
      ensures Valid()
      ensures voiceClient != null ==>
        voiceClient.isManualMode == old(voiceClient.isManualMode) &&
        voiceClient.isConnected == old(voiceClient.isConnected) &&
        voiceClient.sessionId == old(voiceClient.sessionId) &&
        voiceClient.hasSocket == old(voiceClient.hasSocket) &&
        voiceClient.ttsState == old(voiceClient.ttsState) && voiceClient.notices == old(voiceClient.notices)
      ensures voiceClient != null && !isConnected ==>
        voiceClient.wire == old(voiceClient.wire) && voiceClient.listenState == old(voiceClient.listenState) &&
        voiceClient.recorder == old(voiceClient.recorder)
      ensures voiceClient != null && isConnected && voiceClient.isConnected && voiceClient.sessionId.Some? ==>
        voiceClient.listenState == "stop" && voiceClient.recorder == old(voiceClient.recorder) + [StopRecording] &&
        voiceClient.wire == old(voiceClient.wire) + [Send(Listen(voiceClient.sessionId.value, "stop", None))]
      ensures voiceClient != null && isConnected && !(voiceClient.isConnected && voiceClient.sessionId.Some?) ==>
        voiceClient.wire == old(voiceClient.wire) && voiceClient.listenState == old(voiceClient.listenState) &&
        voiceClient.recorder == old(voiceClient.recorder)
    {
      if !isConnected {
        return;
      }
      if voiceClient != null {
        voiceClient.StopListening();
      }
    }

    /** Asks the client to abort speech; ignored while the service is not connected. */
    method AbortTTS()
      requires Valid()
      modifies voiceClient
      ensures Valid()
      ensures voiceClient != null ==>
        voiceClient.isManualMode == old(voiceClient.isManualMode) &&
        voiceClient.isConnected == old(voiceClient.isConnected) &&
        voiceClient.sessionId == old(voiceClient.sessionId) &&
        voiceClient.hasSocket == old(voiceClient.hasSocket) &&
        voiceClient.ttsState == old(voiceClient.ttsState) &&
        voiceClient.notices == old(voiceClient.notices) &&
        voiceClient.listenState == old(voiceClient.listenState) &&
        voiceClient.recorder == old(voiceClient.recorder)
      ensures voiceClient != null && !isConnected ==> voiceClient.wire == old(voiceClient.wire)
      ensures voiceClient != null && isConnected ==>
        voiceClient.wire == old(voiceClient.wire) + (if voiceClient.isConnected then [Send(Abort)] else [])
    {
      if !isConnected {
        return;
      }
      if voiceClient != null {
        voiceClient.AbortCurrentTTS();
      }
    }

    method SetManualMode(manual: bool)
      requires Valid()
      modifies voiceClient
      ensures Valid()
      ensures voiceClient != null ==>
        voiceClient.isConnected == old(voiceClient.isConnected) &&
        voiceClient.sessionId == old(voiceClient.sessionId) &&
        voiceClient.hasSocket == old(voiceClient.hasSocket) &&
        voiceClient.ttsState == old(voiceClient.ttsState) && voiceClient.notices == old(voiceClient.notices)
      ensures voiceClient != null ==> voiceClient.isManualMode == manual
      ensures (voiceClient != null && !manual && voiceClient.isConnected && old(voiceClient.listenState) == "stop" &&
               voiceClient.ttsState == "stop" && voiceClient.sessionId.Some?) ==>
        voiceClient.listenState == "start" && voiceClient.recorder == old(voiceClient.recorder) + [StartRecording] &&
        voiceClient.wire == old(voiceClient.wire) + [Send(Listen(voiceClient.sessionId.value, "start", Some("auto")))]
      ensures voiceClient != null && manual && old(voiceClient.listenState) == "start" && voiceClient.sessionId.Some? ==>
        voiceClient.listenState == "stop" && voiceClient.recorder == old(voiceClient.recorder) + [StopRecording] &&
        voiceClient.wire == old(voiceClient.wire) + [Send(Listen(voiceClient.sessionId.value, "stop", None))]
      ensures (voiceClient != null &&
               (voiceClient.sessionId.None? ||
                (!(!manual && voiceClient.isConnected && old(voiceClient.listenState) == "stop" && voiceClient.ttsState == "stop") &&
                 !(manual && old(voiceClient.listenState) == "start")))) ==>
        voiceClient.listenState == old(voiceClient.listenState) && voiceClient.wire == old(voiceClient.wire) &&
        voiceClient.recorder == old(voiceClient.recorder)
    {
      if voiceClient != null {
        voiceClient.SetManualMode(manual);
      }
    }

    /**
     * The delegate wrapper: a report from the client updates the service.
     * Connecting and disconnecting update the connection state, a speech
     * state is recorded, a listen message with a state sets the listening
     * flag, and an emotion is passed on as the mood it maps to.
     */
    method Deliver(n: Notice)
      modifies this`isConnected, this`connectionStatus, this`isListening, this`ttsState, this`callbacks
      ensures n.DidConnect? ==>
        isConnected && connectionStatus == "connected" && isListening == old(isListening) &&
        ttsState == old(ttsState) && callbacks == old(callbacks) + [ConnectionChanged(true), StateChanged("connected")]
      ensures n.DidDisconnect? ==>
        !isConnected && connectionStatus == "disconnected" && !isListening && ttsState == "idle" &&
        callbacks == old(callbacks) + [ConnectionChanged(false), StateChanged("disconnected")]
      ensures n.TtsStateChanged? ==>
        ttsState == n.ttsState && isConnected == old(isConnected) && isListening == old(isListening) &&
        connectionStatus == old(connectionStatus) && callbacks == old(callbacks) + [StateChanged(n.ttsState)]
      ensures n.MessageReceived? && n.kind == "listen" && n.state.Some? ==>
        isListening == (n.state.value == "start") && isConnected == old(isConnected) &&
        ttsState == old(ttsState) && connectionStatus == old(connectionStatus) &&
        callbacks == old(callbacks) + [StateChanged(ListeningStatus(n.state.value == "start"))]
      ensures n.MessageReceived? && !(n.kind == "listen" && n.state.Some?) ==>
        isListening == old(isListening) && callbacks == old(callbacks) && isConnected == old(isConnected) &&
        ttsState == old(ttsState) && connectionStatus == old(connectionStatus)
      ensures n.EmotionReceived? ==>
        callbacks == old(callbacks) + [MoodReceived(MapEmotion(n.emotion))] &&
        isConnected == old(isConnected) && isListening == old(isListening) && ttsState == old(ttsState) &&
        connectionStatus == old(connectionStatus)
    {
      match n
      case DidConnect =>
        UpdateConnectionState(true, "connected");
      case DidDisconnect =>
        UpdateConnectionState(false, "disconnected");
      case TtsStateChanged(state) =>
        UpdateTTSState(state);
      case MessageReceived(kind, state) =>
        if kind == "listen" && state.Some? {
          UpdateListeningState(state.value == "start");
        }
      case EmotionReceived(emotion) =>
        callbacks := callbacks + [MoodReceived(MapEmotion(emotion))];
    }
  }
}
