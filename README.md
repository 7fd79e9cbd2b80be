# Message reconciliation of the private chat form

This project models the state machine inside the `MyMqttForm` chat component. The
component publishes text, images and voice clips to an MQTT broker. It subscribes to
`chatroom/#` and keeps a log of the messages it renders. The model covers:

- **Inbound path.** A message event arrives. If its payload equals the last payload this
  client sent and logged (the *echo fingerprint*), it is dropped. Otherwise one record is
  appended to the log. The record's sender is the topic's second `/`-segment. Its kind is
  `audio`, `image` or `text`, from the payload's `data:audio` / `data:image` prefix.
- **Outbound path.** The send button runs two independent paths. The text path publishes
  the typed text. Only when the publish callback reports no error does it log the text,
  make it the fingerprint and clear the input. The image path publishes the chosen
  image's data URI. In the model it then logs the image and makes it the fingerprint
  without looking at any delivery report. The code as written throws while building that
  record (see below).
- **Recording session.** Starting needs microphone access: it creates a recorder and sets
  the recording flag. Chunks are collected in arrival order. Stopping assembles them into
  one clip, and the clip's data URI is published. It is not logged and does not become
  the fingerprint.

Modules (one per component, all in this directory):

- `wrappers.dfy`, module `Wrappers`: `Option`, which stands for JavaScript's `undefined`/`null`.
- `payload.dfy`, module `Payload`: `StartsWith` (JavaScript's `startsWith`) and the classifier `Classify`.
- `topic.dfy`, module `Topic`: `Split`/`Join` (JavaScript's `split`/`join` on one character) and `Sender`.
- `audio.dfy`, module `Audio`: the `Recorder` class (a `MediaRecorder` with its `chunks` array) and `Assemble` (`new Blob(chunks)`).
- `session.dfy`, module `Session`: the `ChatSession` class. It has one field per piece of
  component state and one method per handler. The state fields are the `messages` log,
  `lastSentMessage`, `message`, `imageToUpload`, `mediaRecorder`, `isRecording`, and a
  `connected` flag for `client != null`. An `outbox` field records each `client.publish`
  call in order, so that publishing without logging can be stated.
- `scenarios.dfy`, module `Scenarios`: end-to-end runs of a session, proved from the
  handlers' contracts alone.

Asynchronous completions are parameters of the handler they complete: the publish
callback's error (`Delivery`), the file reader's data URI, the microphone permission
(`MicAccess`) and the timestamp. Each handler's state updates are applied at once, in
source order. The send button's text completion is applied before its image completion.

## Model

| member | source | states |
|---|---|---|
| `Payload.StartsWith` | src/mymqttform.jsx:42-43 | `startsWith` is true exactly when the prefix is no longer than the string and equals the string's first characters |
| `Payload.MarkersExclusive` | src/mymqttform.jsx:42-43 | no payload starts with both the audio and the image marker |
| `Payload.Classify` | src/mymqttform.jsx:42-43 | the kind is audio iff the payload starts with `data:audio`, image iff it starts with `data:image`, and text iff it starts with neither; exactly one kind for every payload |
| `Payload.ClassifyByPrefix` | src/mymqttform.jsx:42-43 | two payloads that agree on their first ten characters get the same kind |
| `Payload.ClassifyIgnoresSuffix` | src/mymqttform.jsx:42-43 | appending to a payload of ten or more characters never changes its kind |
| `Payload.ClassifyDataUri` | src/mymqttform.jsx:42-43 | every `data:audio…` payload is audio and every `data:image…` payload is image |
| `Payload.ShortPayloadIsText` | src/mymqttform.jsx:42-43 | a payload shorter than the markers is text |
| `Topic.Split` | src/mymqttform.jsx:35 | `split('/')` always yields at least one part |
| `Topic.SplitParts` | src/mymqttform.jsx:35 | no part contains the separator, and there is a single part exactly when the string has no separator |
| `Topic.JoinSplit` | src/mymqttform.jsx:35 | joining the parts with the separator gives back the original topic |
| `Topic.SplitJoin` | src/mymqttform.jsx:35 | splitting the join of separator-free parts gives back those parts, so `Split` is the unique such decomposition |
| `Topic.SplitAfterRun` | src/mymqttform.jsx:35 | a separator-free run followed by the separator splits off as the first part |
| `Topic.SplitRun` | src/mymqttform.jsx:35 | a separator-free string is a single part |
| `Topic.Sender` | src/mymqttform.jsx:35 | `topic.split('/')[1]` is undefined exactly when the topic has no `/`; a defined sender has no `/` |
| `Topic.SenderOf` | src/mymqttform.jsx:35 | the sender of `first/second` and of `first/second/…` is `second` |
| `Audio.Assemble` | src/mymqttform.jsx:96 | `new Blob(chunks)`: the chunks' bytes laid end to end in arrival order; the clip is as long as all chunks together and starts with the first chunk |
| `Audio.AssembleAppend` | src/mymqttform.jsx:96 | the blob of two runs of chunks is the first run's bytes followed by the second's |
| `Audio.AssemblePush` | src/mymqttform.jsx:94-96 | a chunk pushed last ends the blob |
| `Audio.AssembleAt` | src/mymqttform.jsx:96 | chunk `i` occupies the blob bytes right after chunks `0..i-1`, so the blob keeps the arrival order |
| `Audio.Recorder.Start` | src/mymqttform.jsx:91-92 | a new recorder is active and has no chunks |
| `Audio.Recorder.DataAvailable` | src/mymqttform.jsx:94 | while the recorder is active, the chunk is pushed onto the end of `chunks`, and the blob grows by exactly that chunk |
| `Audio.Recorder.Stop` | src/mymqttform.jsx:95-96 | the recorder becomes inactive; an active recorder yields the blob of all its chunks, an inactive one yields nothing |
| `Session.OwnTopicSender` | src/mymqttform.jsx:9 | the sender derived from the publish topic `chatroom/mugil` is `mugil`, the name on locally logged records |
| `Session.ChatSession.constructor` | src/mymqttform.jsx:7-15 | initial state: no client, topic `chatroom/mugil`, empty input, empty log, no recorder, not recording, no image, empty fingerprint, nothing published |
| `Session.ChatSession.AttachClient` | src/mymqttform.jsx:51 | the client is set |
| `Session.ChatSession.TypeMessage` | src/mymqttform.jsx:188 | the pending text becomes what was typed |
| `Session.ChatSession.OnMessage` | src/mymqttform.jsx:31-48 | accepted iff the payload differs from the fingerprint; an accepted event appends exactly one record (sender from the topic, kind from the classifier, the payload, the time) after the unchanged old log, and a dropped one leaves the log unchanged |
| `Session.ChatSession.PublishText` | src/mymqttform.jsx:57-69 | a publish is issued iff there is a client, a topic and non-empty text; only if it is issued and delivered is one `mugil`/text record appended, the fingerprint set to the text and the input cleared; otherwise log, fingerprint and input are unchanged |
| `Session.ChatSession.PublishImage` | src/mymqttform.jsx:71-86 | with an image chosen, a client and a topic, the data URI is published, one `mugil`/image record is appended, the fingerprint becomes the data URI and the image is cleared, whatever the broker reports; otherwise nothing changes |
| `Session.ChatSession.HandlePublish` | src/mymqttform.jsx:56-87 | the image path's guard depends only on the chosen image, the client and the topic, never on the text path; the new log is the old log plus the text record (if delivered), then the image record (if sent); when both are sent the image is the fingerprint |
| `Session.ChatSession.StartRecording` | src/mymqttform.jsx:89-110 | with access granted, a fresh recorder with no chunks becomes current and the flag is set; with access denied, recorder and flag are unchanged |
| `Session.ChatSession.StopRecording` | src/mymqttform.jsx:112-117 | without a recorder nothing changes; otherwise the flag is cleared and the recorder stays current; a running recorder yields the blob of its chunks, whose data URI is published (with a client and topic) and neither logged nor made the fingerprint |
| `Session.ChatSession.HandleImageUpload` | src/mymqttform.jsx:119-122 | the first chosen file becomes the pending image; with no file the pending image is unchanged |
| `Scenarios.EchoSuppressed` | src/mymqttform.jsx:31-67 | a delivered "hi" is logged once and is the fingerprint; its echo is dropped; a peer's image that follows is logged as the peer's image |
| `Scenarios.PublishRejected` | src/mymqttform.jsx:59-68 | a rejected publish was issued, but the log stays empty, the fingerprint stays empty and the text stays in the input |
| `Scenarios.OwnAudioLoggedFromEcho` | src/mymqttform.jsx:89-117 | chunks `[1,2]`, `[3]` stop into the clip `[1,2,3]`; the clip is published and not logged, so its echo from the broker is logged as audio from `mugil` |
| `Scenarios.TextEchoAfterImage` | src/mymqttform.jsx:56-87 | sending text and image together logs both and leaves the image as the fingerprint, so the text's echo is logged a second time |
| `Scenarios.TypedMarkerStaysText` | src/mymqttform.jsx:59-64 | typed text that starts with `data:image` is logged as text although it classifies as image |
| `Scenarios.StopWhileIdle` | src/mymqttform.jsx:112-117 | a stop without a recorder, and a stop after a refused start, yield no clip, leave the flag down and publish nothing |
| `Scenarios.EmptyPayloadDroppedAtStart` | src/mymqttform.jsx:15 | the fingerprint starts as the empty string, so an empty inbound payload is dropped before anything has been sent |

## Where the code differs from what a chat log would be expected to do

The model follows the code in each case.

- **Audio logging.** A chat log would be expected to show a sent voice clip at once, as it
  does a sent text or image. The code only publishes the clip (lines 99-103): it neither
  logs it nor makes it the fingerprint. So a clip reaches the log only through its own
  echo (`Scenarios.OwnAudioLoggedFromEcho`).
- **Image publish errors.** A chat log would be expected to leave out an image whose publish
  failed. The image path passes no callback to `publish` (line 77), so it never learns of a
  failure. Lines 78-83 then go on to update the log, the fingerprint and the chosen image.
  As written, though, the record built at line 80 reads `timestamp`, and no `timestamp` is
  in scope there: the only ones are the `const` in the message handler (line 36) and the
  `const` inside the text branch's block (line 58). So when the `setMessages` updater is
  applied, building the record throws a `ReferenceError`. The code as written never
  appends the image record. The model appends it, with a time given as a parameter.
- **Reclassifying stored records.** A log entry's kind would be expected to match its payload's
  prefix. That holds for received records only. Own text is stored as text whatever it
  starts with (`Scenarios.TypedMarkerStaysText`).
- **Stopping and starting.** A recording session would be expected to release its recorder on
  stop and to refuse a second start. The code never resets `mediaRecorder`, and
  `stopRecording` tests `mediaRecorder`, not `isRecording`. A later stop calls `stop()` on
  an inactive recorder, which yields no clip. `startRecording` has no guard: a second start
  replaces the current recorder, and the old one is left running.
- **Echo suppression.** Every echo of this client's own messages would be expected to be
  dropped. There is only one fingerprint, so a text sent together with an image is not
  recognised when it echoes back (`Scenarios.TextEchoAfterImage`).

## Left out

- Connecting, subscribing, error logging and the effect's teardown and reconnect on every
  fingerprint change (lines 21-29, 50, 53-54): this is network I/O and effect lifecycle.
  The inbound handler always compares against the current fingerprint. Messages lost
  between a teardown and the next subscription are not modelled.
- `getFormattedTime` (lines 17-19): it depends on the clock and the locale. Every time is a parameter.
- `message.toString()` (line 32): the UTF-8 decoding of the broker payload. The payload is taken as a string.
- `FileReader`, base64 encoding and `MediaRecorder`/`getUserMedia` internals (lines 72-74,
  90-91, 96-98): these are browser APIs. The data URIs and the permission outcome are
  parameters, and a failed read (a `null` result) is not modelled.
- Asynchrony: the order between a text publish callback and an image read completing, React's
  batching of state updates, and the stale closures that capture `client` and `pubTopic`. For
  example, a recorder's stop handler sees the values from when recording started. Updates
  are applied at once, in source order, against current state.
- `subTopic` (line 8): it is used only by the subscription.
- Rendering, icons and layout (lines 124-203), including the commented-out block (lines 132-151).
- Session.ChatSession.PublishImage: the image record's time is a parameter, and the record is
  appended. In the code as written the record cannot be built: line 80 reads a `timestamp`
  that is not in scope there, which throws a `ReferenceError` when the `setMessages`
  updater (lines 78-81) is applied. The code as written therefore never appends an image
  record. The model does not capture that throw.
- Session.ChatSession.HandlePublish: its `imageTime` parameter has the same gap. It stands for
  the out-of-scope `timestamp` of line 80. Where the model appends the image record, the
  code as written throws.
- Audio.Recorder.DataAvailable: `recorder.start()` is called without a timeslice (line 107).
  So the browser delivers the recording as a single chunk, from `stop()` itself, just before
  `onstop` runs. The model represents that chunk as `DataAvailable` calls made while the
  recorder is active, before `StopRecording`. It does not model when the browser delivers
  chunks.
