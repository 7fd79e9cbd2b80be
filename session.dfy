/**
 * The message-reconciliation state of the chat form component: the message log, the
 * echo fingerprint, the pending text and image, and the two-state recording session.
 * Each handler of the component is a method; asynchronous completions (the publish
 * callback, the file reader's result, the microphone permission) are its parameters,
 * and a handler's state updates are applied at once, in the order the source issues them.
 */
module Session {
  import opened Wrappers
  import opened Payload
  import opened Topic
  import opened Audio

  /** A rendered message `{topic, type, content, time}`; its `topic` field holds the sender. */
  datatype Record = Record(sender: Option<string>, kind: Kind, content: string, time: string)

  /** One call of `client.publish(topic, payload)`. */
  datatype Publication = Publication(topic: string, payload: string)

  /** What the broker client reports to a publish callback: no error, or an error. */
  datatype Delivery = Delivered | Failed

  /** The outcome of asking for the microphone (`getUserMedia({ audio: true })`). */
  datatype MicAccess = Granted | Denied

  /** A file chosen in the file picker; its contents reach the model only as a data URI. */
  datatype MediaFile = MediaFile(name: string)

  /** The name every record of this client's own messages carries. */
  const SelfName: string := "mugil"

  /** The topic the component publishes to; it is never changed after mount. */
  const DefaultPubTopic: string := "chatroom/mugil"

  /**
   * An echo of this client's own publish arrives on the publish topic, whose second
   * segment is the same name its locally logged records carry.
   */
  lemma OwnTopicSender()
    ensures Sender(DefaultPubTopic) == Some(SelfName)
  {
    assert DefaultPubTopic == "chatroom" + [Separator] + SelfName + [];
    SenderOf("chatroom", SelfName, []);
  }

  class ChatSession {
    /** `client != null`: the broker connection has been handed to the component. */
    var connected: bool
    const pubTopic: string
    /** The text input's pending contents. */
    var message: string
    /** The message log, in append order. */
    var messages: seq<Record>
    var mediaRecorder: Recorder?
    var isRecording: bool
    var imageToUpload: Option<MediaFile>
    /** The echo fingerprint: the payload this client published (and logged) last. */
    var lastSentMessage: string
    /** Every `client.publish` call issued, in order. */
    var outbox: seq<Publication>

    /** The recording flag mirrors the state of the current recorder. */
    ghost predicate Valid()
      reads this, mediaRecorder
    {
      (isRecording ==> mediaRecorder != null) &&
      (mediaRecorder != null ==> mediaRecorder.active == isRecording)
    }

    /** The component's initial state. */
    constructor ()
      ensures Valid()
      ensures !connected && pubTopic == DefaultPubTopic
      ensures message == "" && messages == [] && lastSentMessage == "" && outbox == []
      ensures mediaRecorder == null && !isRecording && imageToUpload == None
    {
      connected := false;
      pubTopic := DefaultPubTopic;
      message := "";
      messages := [];
      mediaRecorder := null;
      isRecording := false;
      imageToUpload := None;
      lastSentMessage := "";
      outbox := [];
    }

    /** `setClient(mqttClient)` once the effect has created the broker client. */
    method AttachClient()
      requires Valid()
      modifies this`connected
      ensures Valid() && connected
    {
      connected := true;
    }

    /** The text input's `onChange`: the pending text becomes what was typed. */
    method TypeMessage(text: string)
      requires Valid()
      modifies this`message
      ensures Valid() && message == text
    {
      message := text;
    }

    /**
     * The broker's `message` event. A payload equal to the fingerprint is an echo and is
     * dropped; any other payload is appended as one record whose sender is the topic's
     * second segment and whose kind comes from the payload's prefix.
     */
    method OnMessage(topic: string, payload: string, time: string) returns (accepted: bool)
      requires Valid()
      modifies this`messages
      ensures Valid()
      ensures accepted <==> payload != lastSentMessage
      ensures messages == if accepted
        then old(messages) + [Record(Sender(topic), Classify(payload), payload, time)]
        else old(messages)
    {
      if payload == lastSentMessage {
        return false;
      }
      var sender := Sender(topic);
      messages := messages + [Record(sender, Classify(payload), payload, time)];
      accepted := true;
    }

    /**
     * The text path of `handlePublish`: nothing happens without a client, a topic and a
     * non-empty text. Otherwise the text is published, and only when the callback reports
     * no error is it logged, made the fingerprint and cleared from the input.
     */
    method PublishText(delivery: Delivery, time: string) returns (issued: bool)
      requires Valid()
      modifies this`messages, this`lastSentMessage, this`message, this`outbox
      ensures Valid()
      ensures issued <==> connected && pubTopic != "" && old(message) != ""
      ensures outbox == if issued then old(outbox) + [Publication(pubTopic, old(message))] else old(outbox)
      ensures if issued && delivery == Delivered then
          messages == old(messages) + [Record(Some(SelfName), Text, old(message), time)] &&
          lastSentMessage == old(message) && message == ""
        else
          messages == old(messages) && lastSentMessage == old(lastSentMessage) && message == old(message)
    {
      issued := connected && pubTopic != "" && message != "";
      if issued {
        var text := message;
        outbox := outbox + [Publication(pubTopic, text)];
        if delivery == Delivered {
          messages := messages + [Record(Some(SelfName), Text, text, time)];
          lastSentMessage := text;
          message := "";
        }
      }
    }

    /**
     * The image path of `handlePublish`, once the file reader has produced the data URI
     * `imageData`: with a chosen image, a client and a topic, the data URI is published,
     * logged as an image without waiting for any delivery report, made the fingerprint,
     * and the chosen image is cleared.
     */
    method PublishImage(imageData: string, time: string) returns (sent: bool)
      requires Valid()
      modifies this`messages, this`lastSentMessage, this`imageToUpload, this`outbox
      ensures Valid()
      ensures sent <==> old(imageToUpload).Some? && connected && pubTopic != ""
      ensures if sent then
          outbox == old(outbox) + [Publication(pubTopic, imageData)] &&
          messages == old(messages) + [Record(Some(SelfName), Image, imageData, time)] &&
          lastSentMessage == imageData && imageToUpload == None
        else
          outbox == old(outbox) && messages == old(messages) &&
          lastSentMessage == old(lastSentMessage) && imageToUpload == old(imageToUpload)
    {
      sent := false;
      if imageToUpload.Some? {
        if connected && pubTopic != "" {
          outbox := outbox + [Publication(pubTopic, imageData)];
          messages := messages + [Record(Some(SelfName), Image, imageData, time)];
          lastSentMessage := imageData;
          imageToUpload := None;
          sent := true;
        }
      }
    }

    /**
     * The send button: the text path, then the image path. The image path runs on its
     * own guard whatever the text path did, so both can log a record, and when both do
     * the image's data URI is the fingerprint left behind.
     */
    method HandlePublish(delivery: Delivery, textTime: string, imageData: string, imageTime: string)
      returns (textIssued: bool, imageSent: bool)
      requires Valid()
      modifies this`messages, this`lastSentMessage, this`message, this`imageToUpload, this`outbox
      ensures Valid()
      ensures textIssued <==> connected && pubTopic != "" && old(message) != ""
      ensures imageSent <==> old(imageToUpload).Some? && connected && pubTopic != ""
      ensures var textLogged := textIssued && delivery == Delivered;
        messages == old(messages)
          + (if textLogged then [Record(Some(SelfName), Text, old(message), textTime)] else [])
          + (if imageSent then [Record(Some(SelfName), Image, imageData, imageTime)] else []) &&
        lastSentMessage == (if imageSent then imageData else if textLogged then old(message) else old(lastSentMessage)) &&
        message == (if textLogged then "" else old(message))
      ensures outbox == old(outbox)
        + (if textIssued then [Publication(pubTopic, old(message))] else [])
        + (if imageSent then [Publication(pubTopic, imageData)] else [])
      ensures imageToUpload == if imageSent then None else old(imageToUpload)
    {
      textIssued := PublishText(delivery, textTime);
      imageSent := PublishImage(imageData, imageTime);
    }

    /**
     * `startRecording`: only once the microphone is granted is a fresh recorder, with no
     * chunks yet, started and made current, and the flag raised; a refusal changes
     * nothing. There is no guard against a recorder that is already running: it is
     * replaced (and keeps running, unreferenced).
     */
    method StartRecording(access: MicAccess)
      requires Valid()
      modifies this`mediaRecorder, this`isRecording
      ensures Valid()
      ensures access == Granted ==>
        mediaRecorder != null && fresh(mediaRecorder) && mediaRecorder.chunks == [] && isRecording
      ensures access == Denied ==>
        mediaRecorder == old(mediaRecorder) && isRecording == old(isRecording)
    {
      if access == Granted {
        var recorder := new Recorder.Start();
        mediaRecorder := recorder;
        isRecording := true;
      }
    }

    /**
     * `stopRecording`: a no-op while there has never been a recorder. Otherwise the current
     * recorder is stopped and the flag lowered; a recorder that was running yields the clip
     * of all its chunks in order, whose data URI `audioData` is published and neither
     * logged nor made the fingerprint. The recorder stays current after it stops.
     */
    method StopRecording(audioData: string) returns (clip: Option<seq<bv8>>)
      requires Valid()
      modifies this`isRecording, this`outbox, mediaRecorder
      ensures Valid()
      ensures mediaRecorder == old(mediaRecorder)
      ensures old(mediaRecorder) == null ==> isRecording == old(isRecording)
      ensures old(mediaRecorder) != null ==>
        !isRecording && mediaRecorder.chunks == old(mediaRecorder.chunks)
      ensures clip == if old(isRecording) then Some(Assemble(old(mediaRecorder.chunks))) else None
      ensures outbox == if clip.Some? && connected && pubTopic != ""
        then old(outbox) + [Publication(pubTopic, audioData)]
        else old(outbox)
      ensures messages == old(messages) && lastSentMessage == old(lastSentMessage)
    {
      clip := None;
      if mediaRecorder != null {
        clip := mediaRecorder.Stop();
        if clip.Some? && connected && pubTopic != "" {
          outbox := outbox + [Publication(pubTopic, audioData)];
        }
        isRecording := false;
      }
    }

    /** The file picker's `onChange`: the first chosen file, if any, becomes the pending image. */
    method HandleImageUpload(files: seq<MediaFile>)
      requires Valid()
      modifies this`imageToUpload
      ensures Valid()
      ensures imageToUpload == if |files| > 0 then Some(files[0]) else old(imageToUpload)
    {
      if |files| > 0 {
        imageToUpload := Some(files[0]);
      }
    }
  }
}
