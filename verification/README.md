# DockkitBot core in Dafny

DockkitBot is an iOS app that turns a DockKit motorised stand and an iPhone
into a "robot face". The face looks at the person in front of the camera,
shows a mood, and expresses that mood by nudging the stand. A voice
assistant connects over a WebSocket, streams Opus audio and sends emotion
words that become moods.

This project models the sequential rules underneath, one Dafny module per
Swift file:

- **MotorActions** (`motor_actions.dfy`). The step initialiser clamps speed and duration. Each mood maps to a gesture. The gesture table is hard-coded. One run is described as the actuator events it sends.
- **ActionQueue** (`action_queue.dfy`). The bounded pending queue, `MotorActionQueueManager`, is a class over a `seq`. Its addition is specified by the function `Enqueued`: purge stale entries, evict on overflow, then insert stably by priority.
- **MotorExecutor** (`motor_executor.dfy`). `FastMotorActionExecutor` is a class that appends every actuator call and every completion callback to a ghost `trace`.
  - A request runs at once, preempts the running gesture, or is queued.
  - After a run, the executor drains the queue from the front.
  - Each run receives the dock's answers as a `RunInputs` value: its current mode, whether it accepts manual control, and whether the run was cancelled.
- **DataTypes** (`data_types.dfy`). Camera orientation decoding, the battery accessors, the 21 moods with their raw values, display names and tints, and the default records.
- **DockController** (`dock_controller.dfy`). The robot-face updates of `DockControllerModel`: eye positions, the mood derived from the `looking` confidence, the face-metadata path, and the feature gates.
- **VoiceClient** (`voice_client.dfy`). The emotion-word mapping, plus the connection/listen/speech state machine of `XiaozhiVoiceClient`. What the client sends on the socket, tells the recorder and reports to its delegate is kept in ghost logs.
- **VoiceService** (`voice_service.dfy`). The state `XiaozhiService` keeps for the interface, and its delegate wrapper.
- **CaptureGeometry** (`capture_geometry.dfy`). The orientation correction of normalised rectangles and points, over `real`.
- **OpusConfig** (`opus_config.dfy`). The `OpusConfiguration` table.
- **OpusCodec** (`opus_codec.dfy`). The placeholder encoder and decoder on little-endian 16-bit PCM. The encoder keeps every other sample; the decoder writes every sample twice.
- **Geometry** (`geometry.dfy`) holds the `CGRect` accessors shared by the modules above. A rectangle's minimum, maximum and width follow Core Graphics, including for negative sizes.

Time, the dock's answers, the service's results and the parsed content of
incoming messages are parameters. A method never reads them from the outside
world.

## Model

| member | source | states |
|---|---|---|
| MotorActions.ClampReal | DockKitCamera/Views/MotorActions.swift:85-89 | the `min(max(v, lo), hi)` clamp: a value inside the range is kept, one below it becomes the lower bound, one above it the upper bound, so the result lies in the range |
| MotorActions.MakeStep | DockKitCamera/Views/MotorActions.swift:85-89 | keeps the direction; speed always ends up in [0.5, 3.0] and duration in [0.1, 1.0]; a value already in range is kept; a value below or above the range becomes that bound |
| MotorActions.MotorActionForMood | DockKitCamera/Views/MotorActions.swift:128-177 | never absent; for each gesture, the exact set of moods that select it (iff): happy, joy, love and the unlisted sleepy and anticipation give a quick nod; anger and fear give tremor; sad and sadness give shake; normal gives return-to-centre; guilt, shame, surprise and pride give lookup; curiosity and envy give scan; trust and acceptance give a double nod; excited gives bounce; disgust gives tilt-left; contempt gives tilt-right |
| MotorActions.GestureSteps | DockKitCamera/Views/MotorActions.swift:322-421 | the gesture table after clamping: 2 to 8 steps, each within the clamped ranges; the per-gesture counts, axes, balance and clamped durations are stated by GestureLengths, GestureStepsOnAxes, GestureAxesBalanced and ShortStepsClamped |
| MotorActions.GestureLengths | DockKitCamera/Views/MotorActions.swift:322-421 | step counts: quick nod 4, double nod 4, shake 4, lookup 2, tilts 2, bounce 5, tremor 8, scan 4, return-to-centre 4 |
| MotorActions.GestureStepsOnAxes | DockKitCamera/Views/MotorActions.swift:322-421 | every step of every gesture is within the clamped ranges and moves only the tilt axis or the pan axis |
| MotorActions.GestureAxesBalanced | DockKitCamera/Views/MotorActions.swift:322-421 | in every gesture, tilt-up occurs iff tilt-down occurs, and pan-left occurs iff pan-right occurs |
| MotorActions.ShortStepsClamped | DockKitCamera/Views/MotorActions.swift:374-421 | the 0.08 s durations written in tremor, bounce and return-to-centre are sent as 0.1 s |
| MotorActions.Rotations | DockKitCamera/Views/MotorActions.swift:424-445 | one nudge per step, carrying that step's direction and speed, in step order |
| MotorActions.StepEvents | DockKitCamera/Views/MotorActions.swift:424-445 | the nudges of `executeSteps`: the steps' `Rotations` first, followed by the two recentring nudges only when asked, so the length grows by 2 exactly then |
| MotorActions.CoreEvents | DockKitCamera/Views/MotorActions.swift:241-282 | the run body starts with the manual switch; a refused switch sends nothing more; an accepted one ends with the restore of the snapshot mode |
| MotorActions.RunEvents | DockKitCamera/Views/MotorActions.swift:218-282 | a whole run has at least two events, the manual switch first and the completion callback last; a refused switch gives exactly those two (the full shape is RunShape) |
| MotorActions.CountCompletedAppend | DockKitCamera/Views/MotorActions.swift:218-238 | completion callbacks in a concatenation of traces add up |
| MotorActions.CountModeChangesAppend | DockKitCamera/Views/MotorActions.swift:241-282 | mode changes in a concatenation of traces add up |
| MotorActions.RotationsCounts | DockKitCamera/Views/MotorActions.swift:424-445 | nudges are neither mode changes nor completions |
| MotorActions.RunShape | DockKitCamera/Views/MotorActions.swift:218-282 | one run: the manual switch comes first and the callback last, exactly once; a refused switch sends only the switch and the callback; an accepted one sends exactly two mode changes, restoring the snapshot mode just before the callback after every step in order (none when cancelled); the extra recentring nudges never appear |
| ActionQueue.PurgeStale | DockKitCamera/Views/MotorActions.swift:497-498 | an entry survives iff it was queued and is not more than 5 s old (strictly); the survivors are a subsequence of the queue, so they keep their order and repetitions |
| ActionQueue.IsStale | DockKitCamera/Views/MotorActions.swift:498 | stale iff queued strictly more than 5 s before `now`, so an entry exactly 5 s old is kept, and a stale entry is from the past |
| ActionQueue.FirstLowIndex | DockKitCamera/Views/MotorActions.swift:502 | the first low-priority index, or the length when there is none |
| ActionQueue.EvictOne | DockKitCamera/Views/MotorActions.swift:502-508 | one pass of the overflow loop removes exactly one entry and keeps the others in order (which entry is stated by OverflowRule) |
| ActionQueue.Evict | DockKitCamera/Views/MotorActions.swift:501-509 | afterwards fewer than 3 entries remain, exactly 2 if there were 3 or more, nothing changes otherwise, and nothing new appears |
| ActionQueue.InsertIndex | DockKitCamera/Views/MotorActions.swift:512-516 | every entry before the index has the same or higher priority; the entry at it has lower priority |
| ActionQueue.Insert | DockKitCamera/Views/MotorActions.swift:512-516 | one entry longer, the new entry at `InsertIndex` (the neighbours are stated by InsertShape, InsertPosition, InsertSorted and InsertMembers) |
| ActionQueue.SubsequenceMultiset | DockKitCamera/Views/MotorActions.swift:498-508 | a subsequence, as purging and eviction leave, holds no entry more often than the queue it came from |
| ActionQueue.DropOneSubsequence | DockKitCamera/Views/MotorActions.swift:502-506 | removing the entry at one index leaves the others in their order |
| ActionQueue.PurgeStaleAppend | DockKitCamera/Views/MotorActions.swift:498 | purging a concatenation purges each part in turn, so purging is a filter that keeps order and multiplicity |
| ActionQueue.PurgeStaleSingleton | DockKitCamera/Views/MotorActions.swift:498 | one entry survives iff it is not stale |
| ActionQueue.EvictSubsequence | DockKitCamera/Views/MotorActions.swift:501-509 | the eviction loop only removes entries: what remains is a subsequence, in the old order |
| ActionQueue.EnqueueKeepsOrder | DockKitCamera/Views/MotorActions.swift:495-517 | after an addition the new entry sits at `InsertIndex` and the remaining old entries are a subsequence of the old queue (equal priorities keep their arrival order); in a sorted queue every entry behind the new one has strictly lower priority, so it queues behind all of its own priority |
| ActionQueue.PurgeStaleSorted | DockKitCamera/Views/MotorActions.swift:497-498 | purging keeps priority order |
| ActionQueue.EvictOneSorted | DockKitCamera/Views/MotorActions.swift:502-508 | one eviction keeps priority order |
| ActionQueue.EvictSorted | DockKitCamera/Views/MotorActions.swift:501-509 | the eviction loop keeps priority order |
| ActionQueue.InsertShape | DockKitCamera/Views/MotorActions.swift:512-516 | insertion adds the new entry at its index and keeps the old entries, in order, around it |
| ActionQueue.InsertPosition | DockKitCamera/Views/MotorActions.swift:512-516 | the new entry goes after every entry of the same or higher priority (first come, first served) and, in a sorted queue, before every lower one |
| ActionQueue.InsertSorted | DockKitCamera/Views/MotorActions.swift:512-516 | insertion keeps priority order |
| ActionQueue.InsertMembers | DockKitCamera/Views/MotorActions.swift:512-516 | insertion adds exactly the new entry |
| ActionQueue.Enqueued | DockKitCamera/Views/MotorActions.swift:495-517 | the whole of `addToPendingQueue` (purge, overflow loop, insertion): 1 to 3 entries, the new one among them; its order, freshness and first-come-first-served properties are stated by EnqueueInvariants, EnqueueKeepsOrder and EnqueueWithoutOverflow |
| ActionQueue.EnqueueInvariants | DockKitCamera/Views/MotorActions.swift:495-517 | after an addition: 1 to 3 entries, priority order, the new entry present, every other entry previously queued and not stale |
| ActionQueue.EnqueueWithoutOverflow | DockKitCamera/Views/MotorActions.swift:495-517 | when fewer than 3 fresh entries remain, the queue is exactly those entries plus the new one (as a multiset) |
| ActionQueue.OverflowRule | DockKitCamera/Views/MotorActions.swift:502-508 | overflow removes the front-most low entry if any; otherwise it removes the front entry, which in a sorted queue has the highest priority |
| ActionQueue.OverflowExample | DockKitCamera/Views/MotorActions.swift:495-517 | queue [high, normal, normal] plus a normal entry loses the high one, although it is not the oldest |
| ActionQueue.MotorActionQueueManager.constructor | DockKitCamera/Views/MotorActions.swift:492-493 | starts empty |
| ActionQueue.MotorActionQueueManager.AddToPendingQueue | DockKitCamera/Views/MotorActions.swift:495-517 | the new queue is `Enqueued` of the old one; sortedness and the bound of 3 are kept |
| ActionQueue.MotorActionQueueManager.RemoveFirst | DockKitCamera/Views/MotorActions.swift:519-522 | nothing from an empty queue; otherwise returns the front entry and leaves the rest |
| ActionQueue.MotorActionQueueManager.RemoveAll | DockKitCamera/Views/MotorActions.swift:524-526 | the queue is empty |
| ActionQueue.MotorActionQueueManager.Count | DockKitCamera/Views/MotorActions.swift:528-530 | the queue length |
| ActionQueue.MotorActionQueueManager.IsEmpty | DockKitCamera/Views/MotorActions.swift:532-534 | true iff the queue is empty |
| MotorExecutor.ActionsOf | DockKitCamera/Views/MotorActions.swift:448-455 | the gestures of a queue, front first |
| MotorExecutor.DrainEvents | DockKitCamera/Views/MotorActions.swift:218-282 | the events of running a list of actions one after another: at least two per run (their counts are stated by DrainCompletions and DrainModeChanges) |
| MotorExecutor.DrainSingle | DockKitCamera/Views/MotorActions.swift:218-238 | draining a single action is exactly that action's run |
| MotorExecutor.DrainOneMore | DockKitCamera/Views/MotorActions.swift:448-455 | one more drained action appends exactly its run |
| MotorExecutor.DrainCompletions | DockKitCamera/Views/MotorActions.swift:218-238 | draining n actions fires the completion callback exactly n times, failed switches included |
| MotorExecutor.DrainModeChanges | DockKitCamera/Views/MotorActions.swift:241-282 | draining n actions makes n manual switches plus one restore per accepted switch |
| MotorExecutor.EnqueueKeepsQueueable | DockKitCamera/Views/MotorActions.swift:192-210 | queueing a low or normal request never lets a high or urgent entry into the queue |
| MotorExecutor.FastMotorActionExecutor.constructor | DockKitCamera/Views/MotorActions.swift:96-106 | idle, empty queue, system mode snapshot, empty trace |
| MotorExecutor.FastMotorActionExecutor.GetMotorActionForMood | DockKitCamera/Views/MotorActions.swift:128-177 | the gesture of `MotorActionForMood`, never absent |
| MotorExecutor.FastMotorActionExecutor.ExecuteMotorAction | DockKitCamera/Views/MotorActions.swift:181-215 | no controller: nothing changes; busy and below high: only enqueued, no event, snapshot mode kept; busy and high or urgent: queue cleared, the action runs alone and its snapshot (`inputs[0]`) is kept; idle: the action runs, then the whole queue drains, and the last run's snapshot is kept |
| MotorExecutor.FastMotorActionExecutor.PerformMotorActionInternal | DockKitCamera/Views/MotorActions.swift:218-238 | runs the action, then every queued action front first; the queue ends empty, the executor idle, the trace extended by exactly those runs, and the snapshot mode is the last run's |
| MotorExecutor.FastMotorActionExecutor.DrainQueue | DockKitCamera/Views/MotorActions.swift:448-455 | takes and runs front entries until the queue is empty, appending their runs in order; the snapshot mode ends as the last run's |
| MotorExecutor.FastMotorActionExecutor.PerformRun | DockKitCamera/Views/MotorActions.swift:218-238 | one run appends `RunEvents` and ends idle, with the snapshot mode recorded |
| MotorExecutor.FastMotorActionExecutor.ExecuteMotorActionCore | DockKitCamera/Views/MotorActions.swift:241-273 | snapshots the mode, switches to manual, stops on refusal; otherwise sends the steps unless cancelled, then restores |
| MotorExecutor.FastMotorActionExecutor.RestoreTrackingMode | DockKitCamera/Views/MotorActions.swift:276-282 | sends exactly the snapshot mode |
| MotorExecutor.FastMotorActionExecutor.ExecuteSteps | DockKitCamera/Views/MotorActions.swift:424-445 | sends one nudge per step in order, then the extra recentring nudges only when asked; it never checks cancellation |
| MotorExecutor.FastMotorActionExecutor.CancelAllPendingActions | DockKitCamera/Views/MotorActions.swift:458-463 | the queue is empty |
| MotorExecutor.FastMotorActionExecutor.PendingActionsCount | DockKitCamera/Views/MotorActions.swift:466-470 | the queue length |
| MotorExecutor.QuickNodScenario | DockKitCamera/Views/MotorActions.swift:181-282 | a happy face on an idle executor in system mode: manual, four nod nudges, system, callback |
| DataTypes.OrientationFromAngle | DockKitCamera/Model/DataTypes.swift:51-82 | 90 gives portrait and 270 portrait upside down for both cameras; 0 and 180 give left and right on the front camera and the reverse on the back camera; anything else is unknown |
| DataTypes.BackCameraMirrorsFront | DockKitCamera/Model/DataTypes.swift:51-82 | the back camera decodes every angle as the front one does, with the two landscapes exchanged |
| DataTypes.Percentage | DockKitCamera/Model/DataTypes.swift:110-115 | the stored percentage when available, 0 otherwise |
| DataTypes.Charging | DockKitCamera/Model/DataTypes.swift:117-122 | true iff available and charging |
| DataTypes.MoodRawValue | DockKitCamera/Model/DataTypes.swift:176-205 | a non-empty raw value for every mood |
| DataTypes.MoodFromRawValue | DockKitCamera/Model/DataTypes.swift:176-205 | a mood found for a string has that string as its raw value |
| DataTypes.MoodRawValueRoundTrip | DockKitCamera/Model/DataTypes.swift:176-205 | decoding a mood's raw value gives the mood back |
| DataTypes.MoodRawValueInjective | DockKitCamera/Model/DataTypes.swift:176-205 | distinct moods have distinct raw values |
| DataTypes.AllMoodsComplete | DockKitCamera/Model/DataTypes.swift:176-205 | the case list has 21 entries and holds every mood |
| DataTypes.DisplayName | DockKitCamera/Model/DataTypes.swift:209-233 | every mood has a name of one or two characters |
| DataTypes.DisplayNameInjective | DockKitCamera/Model/DataTypes.swift:209-233 | no two moods share a display name |
| DataTypes.MoodTint | DockKitCamera/Model/DataTypes.swift:236-260 | white exactly for normal, yellow exactly for happy and joy |
| DataTypes.DefaultFeatures | DockKitCamera/Model/DataTypes.swift:274-280 | all flags off, system tracking, automatic framing |
| DataTypes.RobotFaceState.constructor | DockKitCamera/Model/DataTypes.swift:165-174 | eyes at (0.5, 0.5), mood normal, not blinking, not tracking, not in manual mood mode |
| DockController.EyeTarget | DockKitCamera/Model/DockControllerModel.swift:187-198 | x within [0.2, 0.8] and y within [0.3, 0.7]; the mirrored centre x and the centre y are kept when already in range |
| DockController.ClampMonotone | DockKitCamera/Model/DockControllerModel.swift:197-198 | clamping is monotone |
| DockController.EyeTargetMirrors | DockKitCamera/Model/DockControllerModel.swift:187-198 | a face further right never moves the eyes right (mirror), a face lower never moves them up |
| DockController.LookingMood | DockKitCamera/Model/DockControllerModel.swift:204-212 | happy iff looking > 0.8, normal iff 0.5 < looking <= 0.8, sad iff looking <= 0.5 |
| DockController.FacePersons | DockKitCamera/Model/DockControllerModel.swift:253-271 | at most one person per object, none iff no face object; each has saliency 1, no speaking value and looking 0.8 |
| DockController.FacePersonsRects | DockKitCamera/Model/DockControllerModel.swift:253-271 | every face's bounds become some person's rectangle |
| DockController.FirstFaceLeads | DockKitCamera/Model/DockControllerModel.swift:253-271 | the first person is the first face object |
| DockController.DockControllerModel.constructor | DockKitCamera/Model/DockControllerModel.swift:25-49 | no persons, default features, no service calls, a fresh normal face that is not tracking |
| DockController.DockControllerModel.UpdateTrackingMode | DockKitCamera/Model/DockControllerModel.swift:65-79 | robot face: tracking on, tap-to-track and tracking summary on, true, no service call; any other mode: tracking off, delegated, the service's answer returned |
| DockController.DockControllerModel.SelectSubject | DockKitCamera/Model/DockControllerModel.swift:81-87 | false without a service call when tap-to-track is off and not overridden; otherwise delegated |
| DockController.DockControllerModel.SetRegionOfInterest | DockKitCamera/Model/DockControllerModel.swift:89-95 | false without a service call when region of interest is off and not overridden; otherwise delegated |
| DockController.DockControllerModel.UpdateRobotEyePositions | DockKitCamera/Model/DockControllerModel.swift:182-220 | nobody: not tracking, sleepy, eyes centred; otherwise both eyes at the first person's `EyeTarget`, tracking, and the `LookingMood` of its looking value (unchanged when absent) |
| DockController.DockControllerModel.ProcessFaceDetectionForRobotMode | DockKitCamera/Model/DockControllerModel.swift:253-272 | a face present: tracking, mood normal, eyes on the first face; none: sleepy and centred; never happy |
| DockController.DockControllerModel.Track | DockKitCamera/Model/DockControllerModel.swift:230-249 | robot-face mode reaches no service and never makes the face happy: with a face in the metadata both eyes look at `EyeTarget` of the first face and the mood is normal, with none the face stops tracking, looks ahead and gets sleepy; custom mode with a sample buffer delegates; in any other mode the face (mood, tracking, both eyes) is untouched |
| DockController.DockControllerModel.OnTrackedPersonsUpdate | DockKitCamera/Model/DockControllerModel.swift:169-175 | stores the persons; in robot-face mode an empty list stops tracking, centres both eyes and makes the face sleepy, and a non-empty one points both eyes at `EyeTarget` of the first person with the `LookingMood` of its confidence (the mood kept when unknown); in other modes the face (mood, tracking, both eyes) is untouched |
| VoiceClient.LowerChar | DockKitCamera/Audio/XiaozhiVoiceClient.swift:431 | capitals move to lower case, every other character is kept, no capital remains |
| VoiceClient.Lower | DockKitCamera/Audio/XiaozhiVoiceClient.swift:431 | same length, each character lowered |
| VoiceClient.LowerIdempotent | DockKitCamera/Audio/XiaozhiVoiceClient.swift:431 | lowering twice is lowering once |
| VoiceClient.LowerOfLowercase | DockKitCamera/Audio/XiaozhiVoiceClient.swift:431 | a string without capitals is unchanged |
| VoiceClient.MoodForWord | DockKitCamera/Audio/XiaozhiVoiceClient.swift:431-473 | never joy nor sadness; an unknown word gives normal |
| VoiceClient.MapEmotion | DockKitCamera/Audio/XiaozhiVoiceClient.swift:430-474 | never joy nor sadness; unrecognised words and neutral, normal, calm, default give normal |
| VoiceClient.MapEmotionCaseInsensitive | DockKitCamera/Audio/XiaozhiVoiceClient.swift:431 | a string and its lower case map to the same mood |
| VoiceClient.MoodNameIsLower | DockKitCamera/Model/DataTypes.swift:176-205 | every mood's raw value is already lower case |
| VoiceClient.MoodForName | DockKitCamera/Audio/XiaozhiVoiceClient.swift:432-473 | each mood's raw value maps to that mood, except joy to happy and sadness to sad |
| VoiceClient.MoodNamesMapBack | DockKitCamera/Audio/XiaozhiVoiceClient.swift:430-474 | the same through the case-insensitive mapping |
| VoiceClient.MessageNotices | DockKitCamera/Audio/XiaozhiVoiceClient.swift:178-207 | a parsed message is reported last, after its emotion when it carries one |
| VoiceClient.HandlerNotices | DockKitCamera/Audio/XiaozhiVoiceClient.swift:188-197 | a handler reports at most one thing, never an emotion or a message |
| VoiceClient.XiaozhiVoiceClient.constructor | DockKitCamera/Audio/XiaozhiVoiceClient.swift:60-96 | disconnected, no session, listen "stop", speech "idle", automatic mode, no socket, empty logs |
| VoiceClient.XiaozhiVoiceClient.SendMessage | DockKitCamera/Audio/XiaozhiVoiceClient.swift:343-375 | sent only when a socket exists |
| VoiceClient.XiaozhiVoiceClient.Connect | DockKitCamera/Audio/XiaozhiVoiceClient.swift:123-138 | nothing when connected; otherwise a socket is opened |
| VoiceClient.XiaozhiVoiceClient.Disconnect | DockKitCamera/Audio/XiaozhiVoiceClient.swift:140-150 | socket cancelled and dropped, disconnected, listen "stop", recorder stopped; the session id is kept |
| VoiceClient.XiaozhiVoiceClient.HandleDisconnection | DockKitCamera/Audio/XiaozhiVoiceClient.swift:274-284 | disconnected, listen "stop", recorder stopped, disconnection reported; the session id is kept |
| VoiceClient.XiaozhiVoiceClient.SendHello | DockKitCamera/Audio/XiaozhiVoiceClient.swift:377-393 | the hello carries opus, 24000 Hz, 1 channel, 100 ms frames |
| VoiceClient.XiaozhiVoiceClient.StartListening | DockKitCamera/Audio/XiaozhiVoiceClient.swift:288-308 | nothing unless connected with a session; then listen "start" is sent with the mode, and recording starts |
| VoiceClient.XiaozhiVoiceClient.StopListening | DockKitCamera/Audio/XiaozhiVoiceClient.swift:310-330 | nothing unless connected with a session; then listen "stop" is sent and recording stops |
| VoiceClient.XiaozhiVoiceClient.AbortCurrentTTS | DockKitCamera/Audio/XiaozhiVoiceClient.swift:332-339 | an abort is sent only while connected |
| VoiceClient.XiaozhiVoiceClient.SendAudioData | DockKitCamera/Audio/XiaozhiVoiceClient.swift:395-402 | the frame is sent only when a socket exists |
| VoiceClient.XiaozhiVoiceClient.HandleHello | DockKitCamera/Audio/XiaozhiVoiceClient.swift:225-241 | with a session id: stores it, connects, reports it, and in automatic mode starts listening and recording (in manual mode listening, the wire and the recorder are unchanged); without one: nothing changes |
| VoiceClient.XiaozhiVoiceClient.HandleTTS | DockKitCamera/Audio/XiaozhiVoiceClient.swift:243-256 | records and reports the state; a "stop" in automatic mode with a connection and a session restarts listening and recording; in every other case listening, the wire and the recorder are unchanged |
| VoiceClient.XiaozhiVoiceClient.HandleGoodbye | DockKitCamera/Audio/XiaozhiVoiceClient.swift:258-264 | clears the session exactly when the goodbye names the current one |
| VoiceClient.XiaozhiVoiceClient.HandleEmotion | DockKitCamera/Audio/XiaozhiVoiceClient.swift:266-272 | reports the emotion |
| VoiceClient.XiaozhiVoiceClient.HandleTextMessage | DockKitCamera/Audio/XiaozhiVoiceClient.swift:178-207 | unparsable: nothing changes, recorder included; otherwise the whole per-type effect of `DispatchOnType`, then the notices of `MessageNotices`; unknown types change no state, recorder included |
| VoiceClient.XiaozhiVoiceClient.ReportMessage | DockKitCamera/Audio/XiaozhiVoiceClient.swift:199-206 | after dispatch, reports the emotion (when the message carries one) and then the message itself, in that order; nothing else changes |
| VoiceClient.XiaozhiVoiceClient.DispatchOnType | DockKitCamera/Audio/XiaozhiVoiceClient.swift:188-197 | each handler's whole effect: a hello with a session id connects and, in automatic mode, starts listening and recording, and a hello without one changes nothing; a tts message records its state and restarts listening and recording only for a "stop" in automatic mode with a connection and a session, leaving listening, the wire and the recorder alone otherwise; a goodbye clears only a matching session and changes nothing else; other types change nothing |
| VoiceClient.XiaozhiVoiceClient.SetManualMode | DockKitCamera/Audio/XiaozhiVoiceClient.swift:413-425 | sets the mode; switching to automatic while connected with listening and speech stopped starts listening and recording; switching to manual while listening stops both; without a session, or in any other case, listening, the wire and the recorder are unchanged |
| VoiceClient.HelloStartsListening | DockKitCamera/Audio/XiaozhiVoiceClient.swift:225-241 | connect, hello, and a hello reply with session "s1" leave the client connected and listening in automatic mode |
| VoiceService.ListeningStatus | DockKitCamera/XiaozhiService.swift:121-124 | "listening" or "idle" |
| VoiceService.XiaozhiService.constructor | DockKitCamera/XiaozhiService.swift:14-36 | no client, disconnected, not listening, speech idle |
| VoiceService.XiaozhiService.StartService | DockKitCamera/XiaozhiService.swift:49-72 | nothing when a client exists; otherwise a fresh client in automatic mode, with no session, speech idle, no recorder or delegate activity, asked to connect; the service's connection, listening and speech state are unchanged either way |
| VoiceService.XiaozhiService.Connect | DockKitCamera/XiaozhiService.swift:82-90 | status "connecting" and the client connects: a socket is opened unless it is already connected, in which case its socket and wire are kept; the client's session, mode, listening, speech state, recorder and delegate reports are unchanged |
| VoiceService.XiaozhiService.Disconnect | DockKitCamera/XiaozhiService.swift:93-96 | the client disconnects: its socket is cancelled (when it had one) and dropped, listening stops, recording and playback stop, and its session, mode, speech state and delegate reports are kept; the service ends disconnected, not listening, speech idle |
| VoiceService.XiaozhiService.Cleanup | DockKitCamera/XiaozhiService.swift:99-104 | the client is disconnected as by Disconnect (socket cancelled, listening, recording and playback stopped, session kept) and then dropped; the service ends disconnected, status "disconnected" |
| VoiceService.XiaozhiService.UpdateConnectionState | DockKitCamera/XiaozhiService.swift:108-119 | records the state and status; losing the connection clears listening and idles speech; gaining it leaves both |
| VoiceService.XiaozhiService.UpdateListeningState | DockKitCamera/XiaozhiService.swift:121-124 | records the flag and reports its status |
| VoiceService.XiaozhiService.UpdateTTSState | DockKitCamera/XiaozhiService.swift:126-129 | records and reports the state |
| VoiceService.XiaozhiService.StartListening | DockKitCamera/XiaozhiService.swift:134-142 | nothing when not connected (wire, listen state and recorder unchanged); otherwise the client listens in manual mode and records if it has a connection and a session, and changes nothing if it has not; the client's mode, connection, session, socket, speech state and reports are never touched |
| VoiceService.XiaozhiService.StopListening | DockKitCamera/XiaozhiService.swift:145-153 | nothing when not connected (wire, listen state and recorder unchanged); otherwise the client stops listening and recording if it has a connection and a session, and changes nothing if it has not; the client's mode, connection, session, socket, speech state and reports are never touched |
| VoiceService.XiaozhiService.AbortTTS | DockKitCamera/XiaozhiService.swift:156-161 | nothing when not connected; otherwise the client sends an abort if it is connected; nothing else of the client changes |
| VoiceService.XiaozhiService.SetManualMode | DockKitCamera/XiaozhiService.swift:164-167 | passes the mode to the client, with the client's effects: the automatic-mode start, the manual-mode stop, and no change without a session or otherwise |
| VoiceService.XiaozhiService.Deliver | DockKitCamera/XiaozhiService.swift:199-256 | connecting and disconnecting update the connection state; speech states are recorded and leave the connection and listening state alone; listen messages set the listening flag and leave the rest alone; an emotion is forwarded as exactly `MapEmotion` of it |
| CaptureGeometry.ConvertToCorrected | DockKitCamera/CaptureService.swift:311-324 | identity for portrait and unknown; the size is kept upside down and swapped in landscape; a rectangle in the unit square stays in it |
| CaptureGeometry.ConvertFromCorrected | DockKitCamera/CaptureService.swift:328-341 | identity for portrait and unknown; a point in the unit square stays in it |
| CaptureGeometry.UpsideDownInvolution | DockKitCamera/CaptureService.swift:333 | the upside-down point map undoes itself |
| CaptureGeometry.FromCorrectedUndoesToCorrected | DockKitCamera/CaptureService.swift:311-341 | on a zero-size rectangle, the point map inverts the rectangle map in every orientation |
| CaptureGeometry.FromCorrectedMapsBack | DockKitCamera/CaptureService.swift:311-341 | every point of the corrected rectangle comes back inside the original |
| CaptureGeometry.CornersCorrespond | DockKitCamera/CaptureService.swift:311-341 | the corrected rectangle's corners come back as the original's corners |
| OpusConfig.ApplicationCode | DockKitCamera/Audio/OpusAudioCoder.swift:33-40 | the libopus application codes, 2048 to 2051 |
| OpusConfig.ApplicationCodesDistinct | DockKitCamera/Audio/OpusAudioCoder.swift:33-40 | distinct applications have distinct codes |
| OpusConfig.SampleRate | DockKitCamera/Audio/OpusAudioCoder.swift:20-27 | the custom value, or one of 16000, 24000, 48000 |
| OpusConfig.Channels | DockKitCamera/Audio/OpusAudioCoder.swift:29-31 | always 1 |
| OpusConfig.Application | DockKitCamera/Audio/OpusAudioCoder.swift:33-40 | VOIP iff voice chat or custom, AUDIO iff high quality, RESTRICTED_LOWDELAY iff low latency |
| OpusConfig.FrameSize | DockKitCamera/Audio/OpusAudioCoder.swift:42-49 | the custom value, or exactly sample rate × frame duration (20, 40, 10 ms) |
| OpusConfig.Bitrate | DockKitCamera/Audio/OpusAudioCoder.swift:51-58 | the custom value, or one of 32000, 64000, 128000 |
| OpusConfig.PresetTable | DockKitCamera/Audio/OpusAudioCoder.swift:20-58 | voice chat 16000/320/32000, high quality 48000/1920/128000, low latency 24000/240/64000 |
| OpusConfig.CustomRoundTrip | DockKitCamera/Audio/OpusAudioCoder.swift:25-56 | a custom configuration reports its three arguments |
| OpusCodec.ReadSample | DockKitCamera/Audio/OpusAudioEncoder.swift:70-81 | the `Int16` read from two bytes, low byte first: the low byte is the sample modulo 256, and the sample is negative iff the high byte has its top bit set (two's complement) |
| OpusCodec.SampleBytes | DockKitCamera/Audio/OpusAudioEncoder.swift:82-84 | two bytes per sample |
| OpusCodec.ReadWrittenSample | DockKitCamera/Audio/OpusAudioEncoder.swift:79-84 | writing a sample little-endian and reading it back gives the sample |
| OpusCodec.WriteReadSample | DockKitCamera/Audio/OpusAudioDecoder.swift:47-60 | reading two bytes and writing the sample gives the bytes |
| OpusCodec.Samples | DockKitCamera/Audio/OpusAudioEncoder.swift:69-81 | one sample per whole pair of bytes |
| OpusCodec.SamplesAt | DockKitCamera/Audio/OpusAudioEncoder.swift:69-81 | sample k is read from bytes 2k and 2k+1 |
| OpusCodec.Bytes | DockKitCamera/Audio/OpusAudioEncoder.swift:82-84 | two bytes per sample |
| OpusCodec.BytesAt | DockKitCamera/Audio/OpusAudioEncoder.swift:82-84 | sample k is written at bytes 2k and 2k+1, low byte first |
| OpusCodec.SamplesOfBytes | DockKitCamera/Audio/OpusAudioEncoder.swift:69-86 | writing samples and reading them back gives the samples |
| OpusCodec.BytesOfSamples | DockKitCamera/Audio/OpusAudioDecoder.swift:47-60 | reading an even-length buffer and writing it back gives the buffer |
| OpusCodec.BytesSnoc | DockKitCamera/Audio/OpusAudioEncoder.swift:79-86 | appending a sample appends its two bytes |
| OpusCodec.BytesAppend | DockKitCamera/Audio/OpusAudioDecoder.swift:50-60 | the bytes of a concatenation are the concatenation of the bytes |
| OpusCodec.EveryOther | DockKitCamera/Audio/OpusAudioEncoder.swift:79-86 | ⌈n/2⌉ samples, the k-th being input sample 2k |
| OpusCodec.Doubled | DockKitCamera/Audio/OpusAudioDecoder.swift:50-60 | 2n samples, positions 2k and 2k+1 both holding input sample k |
| OpusCodec.FrameSize | DockKitCamera/Audio/OpusAudioEncoder.swift:15-25 | 960 samples, i.e. 60 ms at 16 kHz |
| OpusCodec.CompressDataSafely | DockKitCamera/Audio/OpusAudioEncoder.swift:65-90 | the bytes of every other sample, starting with the first |
| OpusCodec.Encode | DockKitCamera/Audio/OpusAudioEncoder.swift:37-62 | nothing iff the buffer is empty or of odd length; otherwise `CompressDataSafely`'s output, of 2·⌈n/2⌉ bytes for n samples |
| OpusCodec.Decode | DockKitCamera/Audio/OpusAudioDecoder.swift:36-66 | always a result: each sample twice in order, 4·⌊count/2⌋ bytes |
| OpusCodec.DivisionBounds | DockKitCamera/Audio/OpusAudioDecoder.swift:85-86 | the quotient counts whole divisors |
| OpusCodec.FrameCount | DockKitCamera/Audio/OpusAudioDecoder.swift:84-91 | no buffer iff fewer bytes than one frame of all channels; otherwise the number of whole frames |
| OpusCodec.DoubledEveryOther | DockKitCamera/Audio/OpusAudioEncoder.swift:79-86 | doubling the kept samples puts each even-indexed sample back followed by a copy of it |
| OpusCodec.DecodeAfterEncode | DockKitCamera/Audio/OpusAudioDecoder.swift:50-60 | decoding an encoded buffer gives samples 2k and 2k+1 both equal to input sample 2k; an even sample count comes back at its own length, an odd one one sample longer |

## Left out

- Concurrency in the executor is not modelled: task creation and cancellation, the actor isolation of the queue manager, and the `Task.sleep` pauses. Each run is one sequential step. Its cancellation is the `cancelledAtCheck` input. The preempting request runs at once. The rest of the cancelled run is not recorded: its restore and its completion callback.
- The executor's busy branches are reached only by a concurrent call. The model lets `ExecuteMotorAction` be entered with `isPerformingMotorAction` already true, which stands for that call.
- `MotorExecutor.FastMotorActionExecutor.ExecuteMotorAction`: the preempting branch clears the queue before running. Entries queued concurrently while that run is in progress are not modelled.
- `MotorExecutor.FastMotorActionExecutor.CancelAllPendingActions`: the source also cancels the running gesture's task. The model does not change a run in progress here; that cancellation shows up only as the run's `cancelledAtCheck` input.
- The executor's `onActionCompleted` callback is optional in the source. The model takes it to be set and always records `Completed` at the end of a run.
- The simulator stand-in types for DockKit are not modelled. Neither are `getEnhancedMotorActionForMood` and `executeEnhancedMotorAction`, which only alias and dynamically cast the gesture path.
- The `currentTask` handle and the diagnostic printing are not modelled.
- `DockKitCamera/Model/DataTypes.swift` declares `TrackingMode` without the `robotFace` case that `DockControllerModel` uses. The model adds it.
- In `updateTrackingMode`, the robot-face branch never stores `robotFace` as the current tracking mode. No code assigns `dockAccessoryFeatures.trackingMode` at all: the property is `private(set)` in `DockControllerModel.swift`, and the mode is only ever read. It therefore stays `.system`. Three things follow. The robot-face and custom branches of `track` cannot be reached. The robot-face branch of the tracked-persons observer cannot be reached. The executor's `previousTrackingMode` snapshot is always `.system`. The model keeps `dockAccessoryFeatures` an assignable field and takes the mode as it finds it, so that these branches can still be stated and proved.
- The overflow rule removes the front entry when no low entry exists. That is the highest-priority one, although the code's comment speaks of the oldest. The model follows the code (see `ActionQueue.OverflowRule` and `ActionQueue.OverflowExample`).
- The DockKit service (`DockControlService`), its asynchronous observation streams, and the UIKit width/height swap for landscape devices are external. They are not modelled: the service's answers are parameters, and the service calls are recorded in a ghost log.
- `VoiceClient.Lower`: lower-cases ASCII letters only. Swift's `lowercased()` also folds other Unicode letters; none occurs in the recognised words.
- Real numbers stand in for `CGFloat` and `Double`. Floating-point rounding is not modelled.
- The WebSocket, `URLSession`, JSON encoding and parsing are not modelled. Parsed messages arrive as `Incoming` values, and outgoing messages are recorded in a ghost log. `handleAudioMessage` (decoding and playback), the recorder/player internals and the test helpers (`testEmotionMapping`, `simulateEmotionMessage`) are left out.
- The client's delegate is held weakly and the recorder/player is optional. The model assumes both are present.
- The `XiaozhiService` forwarding of decoded audio and its test helpers are not modelled.
- OpusCodec.ReadSample: the source reads samples in the host's byte order (`bindMemory(to: Int16.self)`) and writes them little-endian (`.littleEndian`). The model reads them little-endian too, which agrees with the source only on a little-endian host. Every Apple target is one; a big-endian host would swap the bytes of each sample on decoding.
- The real Opus codec (`OpusEncoder` and `OpusDecoder` over libopus), audio quality metrics, and the Int16-to-Float conversion and format handling of `createAudioBuffer` are not modelled. Only its frame-count guard is.
- `DataTypes.DisplayName`: states only that names are short and pairwise distinct, not each name's text. The colours of `color` are a plain enumeration, and `DataTypes.MoodTint` states only the white and yellow cases.
- The views, animations, capture session, camera model and device lookup are user interface or platform plumbing and are not part of this model.
