/**
 * The voice client's logic without its socket: the emotion-word mapping and
 * the small state machine over connection, session, listening, speech
 * (text-to-speech) state and manual mode.
 *
 * Incoming text messages arrive already parsed, as `Incoming` values. What
 * the client puts on the socket, what it tells the recorder/player and what
 * it reports to its delegate are appended to three ghost logs.
 */
module VoiceClient {
  import opened DataTypes

  // ---------------------------------------------------------------------
  // Emotion mapping
  // ---------------------------------------------------------------------

  /** Lower-cases an ASCII capital and leaves every other character alone. */
  function LowerChar(c: char): (d: char)
    ensures 'A' <= c <= 'Z' ==> d as int == c as int + 32
    ensures !('A' <= c <= 'Z') ==> d == c
    ensures !('A' <= d <= 'Z')
  {
    if 'A' <= c <= 'Z' then (c as int + 32) as char else c
  }

  /** `String.lowercased()`, restricted to ASCII letters. */
  function Lower(s: string): (r: string)
    ensures |r| == |s|
    ensures forall i :: 0 <= i < |s| ==> r[i] == LowerChar(s[i])
  {
    if s == [] then [] else [LowerChar(s[0])] + Lower(s[1..])
  }

  /** Lower-casing twice is lower-casing once. */
  lemma {:induction false} LowerIdempotent(s: string)
    ensures Lower(Lower(s)) == Lower(s)
  {
    var r := Lower(s);
    assert forall i :: 0 <= i < |r| ==> LowerChar(r[i]) == r[i];
  }

  /** A string without ASCII capitals is its own lower case. */
  lemma LowerOfLowercase(s: string)
    requires forall c :: c in s ==> !('A' <= c <= 'Z')
    ensures Lower(s) == s
  {
    assert forall i :: 0 <= i < |s| ==> s[i] in s;
  }

  /** Every word the mapping recognises (all lower case). */
  const EmotionWords: set<string> := {
    "happy", "happiness", "joy", "joyful",
    "sad", "sadness", "sorrow",
    "angry", "anger", "mad",
    "surprised", "surprise", "astonished",
    "fear", "afraid", "scared", "fearful",
    "disgust", "disgusted", "revulsion",
    "excited", "excitement", "thrilled",
    "love", "loving", "affection", "romantic",
    "curious", "curiosity", "interested",
    "sleepy", "tired", "drowsy", "fatigue",
    "pride", "proud", "accomplished",
    "shame", "ashamed", "embarrassed",
    "guilt", "guilty", "regret",
    "trust", "trusting", "confident",
    "acceptance", "accepting", "peaceful",
    "contempt", "disdain", "scorn",
    "envy", "envious", "jealous",
    "anticipation", "anticipating", "expectant",
    "neutral", "normal", "calm", "default"
  }

  /** The mood for an already lower-cased emotion word; unknown words give normal. */
  function MoodForWord(w: string): (m: RobotMood)
    ensures m != Joy && m != Sadness
    ensures w !in EmotionWords ==> m == Normal
  {
    if w in {"happy", "happiness", "joy", "joyful"} then Happy
    else if w in {"sad", "sadness", "sorrow"} then Sad
    else if w in {"angry", "anger", "mad"} then Anger
    else if w in {"surprised", "surprise", "astonished"} then Surprise
    else if w in {"fear", "afraid", "scared", "fearful"} then Fear
    else if w in {"disgust", "disgusted", "revulsion"} then Disgust
    else if w in {"excited", "excitement", "thrilled"} then Excited
    else if w in {"love", "loving", "affection", "romantic"} then Love
    else if w in {"curious", "curiosity", "interested"} then Curiosity
    else if w in {"sleepy", "tired", "drowsy", "fatigue"} then Sleepy
    else if w in {"pride", "proud", "accomplished"} then Pride
    else if w in {"shame", "ashamed", "embarrassed"} then Shame
    else if w in {"guilt", "guilty", "regret"} then Guilt
    else if w in {"trust", "trusting", "confident"} then Trust
    else if w in {"acceptance", "accepting", "peaceful"} then Acceptance
    else if w in {"contempt", "disdain", "scorn"} then Contempt
    else if w in {"envy", "envious", "jealous"} then Envy
    else if w in {"anticipation", "anticipating", "expectant"} then Anticipation
    else Normal
  }

  /** `mapEmotionToRobotMood`: the mood an emotion string from the server stands for. */
  function MapEmotion(emotion: string): (m: RobotMood)
    ensures m != Joy && m != Sadness
    ensures Lower(emotion) !in EmotionWords ==> m == Normal
    ensures Lower(emotion) in {"neutral", "normal", "calm", "default"} ==> m == Normal
  {
    MoodForWord(Lower(emotion))
  }

  /** The mapping ignores ASCII case. */
  lemma MapEmotionCaseInsensitive(emotion: string)
    ensures MapEmotion(Lower(emotion)) == MapEmotion(emotion)
  {
    LowerIdempotent(emotion);
  }

  /** Every mood's name is already lower case. */
  lemma MoodNameIsLower(m: RobotMood)
    ensures Lower(MoodRawValue(m)) == MoodRawValue(m)
  {
    var name := MoodRawValue(m);
    assert forall c :: c in name ==> 'a' <= c <= 'z';
    LowerOfLowercase(name);
  }

  /** The mapping on already lower-cased words, checked against the mood names. */
  lemma MoodForName(m: RobotMood)
    ensures MoodForWord(MoodRawValue(m)) == (if m == Joy then Happy else if m == Sadness then Sad else m)
  {
  }

  /**
   * Every mood's own name maps back to that mood, except that "joy" gives
   * happy and "sadness" gives sad.
   */
  lemma MoodNamesMapBack(m: RobotMood)
    ensures MapEmotion(MoodRawValue(m)) == (if m == Joy then Happy else if m == Sadness then Sad else m)
  {
    MoodNameIsLower(m);
    MoodForName(m);
  }

  // ---------------------------------------------------------------------
  // Messages
  // ---------------------------------------------------------------------

  /** A text message from the server, after JSON parsing (or its failure). */
  datatype Incoming =
    | Unparsable
    | Json(kind: string, sessionId: Option<string>, state: Option<string>, emotion: Option<string>)

  /** A message the client sends. */
  datatype OutMessage =
    | Hello(format: string, sampleRate: int, channels: int, frameDuration: int)
    | Listen(sessionId: string, state: string, mode: Option<string>)
    | Abort
    | AudioFrame(data: seq<int>)

  /** What happens on the socket. */
  datatype WireEvent = Open | Cancel | Send(message: OutMessage)

  /** What the client tells its recorder/player. */
  datatype RecorderCommand = StartRecording | StopRecording | StopPlaying

  /** What the client reports to its delegate. */
  datatype Notice =
    | DidConnect
    | DidDisconnect
    | TtsStateChanged(ttsState: string)
    | MessageReceived(kind: string, state: Option<string>)
    | EmotionReceived(emotion: string)

  /**
   * What a parsed message reports to the delegate, in order: the handler's
   * own report (a hello with a session id connects, a speech message with a
   * state reports it), then the emotion it carries, then the message itself.
   */
  function MessageNotices(msg: Incoming): (ns: seq<Notice>)
    requires msg.Json?
    ensures 1 <= |ns| <= 3 && ns[|ns| - 1] == MessageReceived(msg.kind, msg.state)
    ensures msg.emotion.Some? ==> EmotionReceived(msg.emotion.value) in ns
    ensures msg.emotion.None? ==> forall n :: n in ns ==> !n.EmotionReceived?
  {
    HandlerNotices(msg)
    + (if msg.emotion.Some? then [EmotionReceived(msg.emotion.value)] else [])
    + [MessageReceived(msg.kind, msg.state)]
  }

  /** The report of the handler a parsed message is dispatched to, if any. */
  function HandlerNotices(msg: Incoming): (ns: seq<Notice>)
    requires msg.Json?
    ensures |ns| <= 1 && forall n :: n in ns ==> !n.EmotionReceived? && !n.MessageReceived?
  {
    if msg.kind == "hello" && msg.sessionId.Some? then [DidConnect]
    else if msg.kind == "tts" && msg.state.Some? then [TtsStateChanged(msg.state.value)]
    else []
  }

  /** The audio parameters announced in the hello message. */
  const HelloParams: OutMessage := Hello("opus", 24000, 1, 100)

  class XiaozhiVoiceClient {
    var isConnected: bool
    var sessionId: Option<string>
    var listenState: string
    var ttsState: string
    var isManualMode: bool
    /** Whether a socket task exists (`webSocketTask != nil`). */
    var hasSocket: bool
    ghost var wire: seq<WireEvent>
    ghost var recorder: seq<RecorderCommand>
    ghost var notices: seq<Notice>

    /**
     * The client is only connected over a socket, and it is only listening
     * while connected.
     */
    ghost predicate Valid()
      reads this
    {
      (isConnected ==> hasSocket) &&
      (listenState == "start" || listenState == "stop") &&
      (listenState == "start" ==> isConnected)
    }

    constructor ()
      ensures Valid()
      ensures !isConnected && sessionId == None && listenState == "stop" && ttsState == "idle"
      ensures !isManualMode && !hasSocket
      ensures wire == [] && recorder == [] && notices == []
    {
      isConnected := false;
      sessionId := None;
      listenState := "stop";
      ttsState := "idle";
      isManualMode := false;
      hasSocket := false;
      wire := [];
      recorder := [];
      notices := [];
    }

    /** Sends on the socket when there is one; without one the message is lost. */
    method SendMessage(m: OutMessage)
      modifies this`wire
      ensures wire == old(wire) + (if hasSocket then [Send(m)] else [])
    {
      if hasSocket {
        wire := wire + [Send(m)];
      }
    }

    /**
     * Opens a socket unless already connected. The client becomes connected
     * only when the server's hello arrives.
     */
    method Connect()
      requires Valid()
      modifies this`hasSocket, this`wire
      ensures Valid()
      ensures old(isConnected) ==> hasSocket == old(hasSocket) && wire == old(wire)
      ensures !old(isConnected) ==> hasSocket && wire == old(wire) + [Open]
    {
      if isConnected {
        return;
      }
      hasSocket := true;
      wire := wire + [Open];
    }

    /** Closes the socket and stops listening; the session id is kept. */
    method Disconnect()
      requires Valid()
      modifies this`hasSocket, this`wire, this`isConnected, this`listenState, this`recorder
      ensures Valid()
      ensures !hasSocket && !isConnected && listenState == "stop"
      ensures wire == old(wire) + (if old(hasSocket) then [Cancel] else [])
      ensures recorder == old(recorder) + [StopRecording, StopPlaying]
    {
      if hasSocket {
        wire := wire + [Cancel];
      }
      hasSocket := false;
      isConnected := false;
      listenState := "stop";
      recorder := recorder + [StopRecording, StopPlaying];
    }

    /** The socket went away: not connected, not listening, session id kept, delegate told. */
    method HandleDisconnection()
      requires Valid()
      modifies this`isConnected, this`listenState, this`recorder, this`notices
      ensures Valid()
      ensures !isConnected && listenState == "stop"
      ensures recorder == old(recorder) + [StopRecording, StopPlaying]
      ensures notices == old(notices) + [DidDisconnect]
    {
      isConnected := false;
      listenState := "stop";
      recorder := recorder + [StopRecording, StopPlaying];
      notices := notices + [DidDisconnect];
    }

    /** The socket opened: announce the audio parameters. */
    method SendHello()
      modifies this`wire
      ensures wire == old(wire) + (if hasSocket then [Send(HelloParams)] else [])
    {
      SendMessage(HelloParams);
    }

    /** Starts listening; needs a connection and a session id, and changes nothing otherwise. */
    method StartListening(mode: string)
      requires Valid()
      modifies this`listenState, this`wire, this`recorder
      ensures Valid()
      ensures !(isConnected && sessionId.Some?) ==>
        listenState == old(listenState) && wire == old(wire) && recorder == old(recorder)
      ensures isConnected && sessionId.Some? ==>
        listenState == "start" && recorder == old(recorder) + [StartRecording] &&
        wire == old(wire) + [Send(Listen(sessionId.value, "start", Some(mode)))]
    {
      if !isConnected || sessionId.None? {
        return;
      }
      SendMessage(Listen(sessionId.value, "start", Some(mode)));
      listenState := "start";
      recorder := recorder + [StartRecording];
    }

    /** Stops listening; needs a connection and a session id, and changes nothing otherwise. */
    method StopListening()
      requires Valid()
      modifies this`listenState, this`wire, this`recorder
      ensures Valid()
      ensures !(isConnected && sessionId.Some?) ==>
        listenState == old(listenState) && wire == old(wire) && recorder == old(recorder)
      ensures isConnected && sessionId.Some? ==>
        listenState == "stop" && recorder == old(recorder) + [StopRecording] &&
        wire == old(wire) + [Send(Listen(sessionId.value, "stop", None))]
    {
      if !isConnected || sessionId.None? {
        return;
      }
      SendMessage(Listen(sessionId.value, "stop", None));
      listenState := "stop";
      recorder := recorder + [StopRecording];
    }

    /** Asks the server to stop speaking; only while connected. */
    method AbortCurrentTTS()
      requires Valid()
      modifies this`wire
      ensures wire == old(wire) + (if isConnected then [Send(Abort)] else [])
    {
      if !isConnected {
        return;
      }
      SendMessage(Abort);
    }

    /** Forwards an encoded audio frame to the server when a socket exists. */
    method SendAudioData(data: seq<int>)
      modifies this`wire
      ensures wire == old(wire) + (if hasSocket then [Send(AudioFrame(data))] else [])
    {
      SendMessage(AudioFrame(data));
    }

    /**
     * A hello carrying a session id records it and connects; in automatic
     * mode listening starts at once. A hello without one is ignored.
     */
    method HandleHello(sid: Option<string>)
      requires Valid() && hasSocket
      modifies this`sessionId, this`isConnected, this`notices, this`listenState, this`wire, this`recorder
      ensures Valid()
      ensures sid.None? ==>
        sessionId == old(sessionId) && isConnected == old(isConnected) && notices == old(notices) &&
        listenState == old(listenState) && wire == old(wire) && recorder == old(recorder)
      ensures sid.Some? ==>
        sessionId == sid && isConnected && notices == old(notices) + [DidConnect]
      ensures sid.Some? && !isManualMode ==>
        listenState == "start" && recorder == old(recorder) + [StartRecording] &&
        wire == old(wire) + [Send(Listen(sid.value, "start", Some("auto")))]
      ensures sid.Some? && isManualMode ==>
        listenState == old(listenState) && wire == old(wire) && recorder == old(recorder)
    {
      if sid.Some? {
        sessionId := sid;
        isConnected := true;
        notices := notices + [DidConnect];
        if !isManualMode {
          StartListening("auto");
        }
      }
    }

    /**
     * A speech-state message records the state and reports it; a "stop" in
     * automatic mode restarts listening.
     */
    method HandleTTS(state: Option<string>)
      requires Valid()
      modifies this`ttsState, this`notices, this`listenState, this`wire, this`recorder
      ensures Valid()
      ensures state.None? ==>
        ttsState == old(ttsState) && notices == old(notices) && listenState == old(listenState) && wire == old(wire)
      ensures state.Some? ==>
        ttsState == state.value && notices == old(notices) + [TtsStateChanged(state.value)]
      ensures state == Some("stop") && !isManualMode && isConnected && sessionId.Some? ==>
        listenState == "start" && recorder == old(recorder) + [StartRecording] &&
        wire == old(wire) + [Send(Listen(sessionId.value, "start", Some("auto")))]
      ensures !(state == Some("stop") && !isManualMode && isConnected && sessionId.Some?) ==>
        listenState == old(listenState) && wire == old(wire) && recorder == old(recorder)
    {
      if state.Some? {
        ttsState := state.value;
        notices := notices + [TtsStateChanged(state.value)];
        if state.value == "stop" && !isManualMode {
          StartListening("auto");
        }
      }
    }

    /** A goodbye ends the session only when it names the current one. */
    method HandleGoodbye(sid: Option<string>)
      modifies this`sessionId
      ensures sid.Some? && sid == old(sessionId) ==> sessionId == None
      ensures !(sid.Some? && sid == old(sessionId)) ==> sessionId == old(sessionId)
    {
      if sid.Some? && sid == sessionId {
        sessionId := None;
      }
    }

    /** Reports an emotion to the delegate. */
    method HandleEmotion(emotion: string)
      modifies this`notices
      ensures notices == old(notices) + [EmotionReceived(emotion)]
    {
      notices := notices + [EmotionReceived(emotion)];
    }

    /**
     * Dispatches a text message on its type, then reports any emotion it
     * carries, then reports the message itself. An unparsable message is
     * dropped.
     */
    method HandleTextMessage(msg: Incoming)
      requires Valid() && hasSocket
      modifies this`sessionId, this`isConnected, this`notices, this`listenState, this`ttsState, this`wire, this`recorder
      ensures Valid()
      ensures msg.Unparsable? ==>
        notices == old(notices) && wire == old(wire) && recorder == old(recorder) && sessionId == old(sessionId) &&
        isConnected == old(isConnected) && listenState == old(listenState) && ttsState == old(ttsState)
      ensures msg.Json? ==> notices == old(notices) + MessageNotices(msg)
      // hello
      ensures msg.Json? && msg.kind == "hello" ==> ttsState == old(ttsState)
      ensures msg.Json? && msg.kind == "hello" && msg.sessionId.None? ==>
        sessionId == old(sessionId) && isConnected == old(isConnected) &&
        listenState == old(listenState) && wire == old(wire) && recorder == old(recorder)
      ensures msg.Json? && msg.kind == "hello" && msg.sessionId.Some? ==> isConnected && sessionId == msg.sessionId
      ensures msg.Json? && msg.kind == "hello" && msg.sessionId.Some? && !isManualMode ==>
        listenState == "start" && recorder == old(recorder) + [StartRecording] &&
        wire == old(wire) + [Send(Listen(msg.sessionId.value, "start", Some("auto")))]
      ensures msg.Json? && msg.kind == "hello" && msg.sessionId.Some? && isManualMode ==>
        listenState == old(listenState) && wire == old(wire) && recorder == old(recorder)
      // tts
      ensures msg.Json? && msg.kind == "tts" ==>
        sessionId == old(sessionId) && isConnected == old(isConnected) &&
        ttsState == (if msg.state.Some? then msg.state.value else old(ttsState))
      ensures (msg.Json? && msg.kind == "tts" && msg.state == Some("stop") && !isManualMode &&
               isConnected && sessionId.Some?) ==>
        listenState == "start" && recorder == old(recorder) + [StartRecording] &&
        wire == old(wire) + [Send(Listen(sessionId.value, "start", Some("auto")))]
      ensures (msg.Json? && msg.kind == "tts" &&
               !(msg.state == Some("stop") && !isManualMode && isConnected && sessionId.Some?)) ==>
        listenState == old(listenState) && wire == old(wire) && recorder == old(recorder)
      // goodbye
      ensures msg.Json? && msg.kind == "goodbye" ==>
        isConnected == old(isConnected) && listenState == old(listenState) && ttsState == old(ttsState) &&
        wire == old(wire) && recorder == old(recorder) &&
        sessionId == (if msg.sessionId.Some? && msg.sessionId == old(sessionId) then None else old(sessionId))
      // other types
      ensures msg.Json? && msg.kind !in {"hello", "tts", "goodbye"} ==>
        wire == old(wire) && recorder == old(recorder) && sessionId == old(sessionId) &&
        isConnected == old(isConnected) && listenState == old(listenState) && ttsState == old(ttsState)
    {
      if msg.Unparsable? {
        return;
      }
      DispatchOnType(msg);
      ReportMessage(msg);
    }

    /** After dispatch: reports the emotion a message carries, if any, then the message itself. */
    method ReportMessage(msg: Incoming)
      requires msg.Json?
      modifies this`notices
      ensures notices == old(notices) + (if msg.emotion.Some? then [EmotionReceived(msg.emotion.value)] else []) +
        [MessageReceived(msg.kind, msg.state)]
    {
      if msg.emotion.Some? {
        HandleEmotion(msg.emotion.value);
      }
      notices := notices + [MessageReceived(msg.kind, msg.state)];
    }

    /** Hands a parsed message to the handler for its type; other types have none. */
    method DispatchOnType(msg: Incoming)
      requires Valid() && hasSocket && msg.Json?
      modifies this`sessionId, this`isConnected, this`notices, this`listenState, this`ttsState, this`wire, this`recorder
      ensures Valid() && notices == old(notices) + HandlerNotices(msg)
      // hello
      ensures msg.kind == "hello" ==> ttsState == old(ttsState)
      ensures msg.kind == "hello" && msg.sessionId.None? ==>
        sessionId == old(sessionId) && isConnected == old(isConnected) &&
        listenState == old(listenState) && wire == old(wire) && recorder == old(recorder)
      ensures msg.kind == "hello" && msg.sessionId.Some? ==> isConnected && sessionId == msg.sessionId
      ensures msg.kind == "hello" && msg.sessionId.Some? && !isManualMode ==>
        listenState == "start" && recorder == old(recorder) + [StartRecording] &&
        wire == old(wire) + [Send(Listen(msg.sessionId.value, "start", Some("auto")))]
      ensures msg.kind == "hello" && msg.sessionId.Some? && isManualMode ==>
        listenState == old(listenState) && wire == old(wire) && recorder == old(recorder)
      // tts
      ensures msg.kind == "tts" ==>
        sessionId == old(sessionId) && isConnected == old(isConnected) &&
        ttsState == (if msg.state.Some? then msg.state.value else old(ttsState))
      ensures msg.kind == "tts" && msg.state == Some("stop") && !isManualMode && isConnected && sessionId.Some? ==>
        listenState == "start" && recorder == old(recorder) + [StartRecording] &&
        wire == old(wire) + [Send(Listen(sessionId.value, "start", Some("auto")))]
      ensures msg.kind == "tts" && !(msg.state == Some("stop") && !isManualMode && isConnected && sessionId.Some?) ==>
        listenState == old(listenState) && wire == old(wire) && recorder == old(recorder)
      // goodbye
      ensures msg.kind == "goodbye" ==>
        isConnected == old(isConnected) && listenState == old(listenState) && ttsState == old(ttsState) &&
        wire == old(wire) && recorder == old(recorder) &&
        sessionId == (if msg.sessionId.Some? && msg.sessionId == old(sessionId) then None else old(sessionId))
      // other types
      ensures msg.kind !in {"hello", "tts", "goodbye"} ==>
        wire == old(wire) && recorder == old(recorder) && sessionId == old(sessionId) &&
        isConnected == old(isConnected) && listenState == old(listenState) && ttsState == old(ttsState)
    {
      if msg.kind == "hello" {
        HandleHello(msg.sessionId);
      } else if msg.kind == "tts" {
        HandleTTS(msg.state);
      } else if msg.kind == "goodbye" {
        HandleGoodbye(msg.sessionId);
      }
    }

    /**
     * Switches between manual and automatic listening. Going automatic while
     * connected with nothing heard or spoken starts listening; going manual
     * while listening stops it.
     */
    method SetManualMode(manual: bool)
      requires Valid()
      modifies this`isManualMode, this`listenState, this`wire, this`recorder
      ensures Valid() && isManualMode == manual
      ensures !manual && isConnected && old(listenState) == "stop" && ttsState == "stop" && sessionId.Some? ==>
        listenState == "start" && recorder == old(recorder) + [StartRecording] &&
        wire == old(wire) + [Send(Listen(sessionId.value, "start", Some("auto")))]
      ensures manual && old(listenState) == "start" && sessionId.Some? ==>
        listenState == "stop" && recorder == old(recorder) + [StopRecording] &&
        wire == old(wire) + [Send(Listen(sessionId.value, "stop", None))]
      ensures sessionId.None? ||
              (!(!manual && isConnected && old(listenState) == "stop" && ttsState == "stop") &&
               !(manual && old(listenState) == "start")) ==>
        listenState == old(listenState) && wire == old(wire) && recorder == old(recorder)
    {
      isManualMode := manual;
      if !manual && isConnected && listenState == "stop" && ttsState == "stop" {
        StartListening("auto");
      } else if manual && isConnected && listenState == "start" {
        StopListening();
      }
    }
  }

  /**
   * Example session: connect, the socket opens, the server says hello with
   * session "s1"; in the default automatic mode the client is then listening.
   */
  method HelloStartsListening() returns (c: XiaozhiVoiceClient)
    ensures c.Valid() && c.isConnected && c.sessionId == Some("s1") && c.listenState == "start"
    ensures c.wire == [Open, Send(HelloParams), Send(Listen("s1", "start", Some("auto")))]
    ensures c.notices == [DidConnect, MessageReceived("hello", None)]
  {
    c := new XiaozhiVoiceClient();
    c.Connect();
    c.SendHello();
    c.HandleTextMessage(Json("hello", Some("s1"), None, None));
  }
}
