/**
 * End-to-end runs of the chat session, each proved from the handlers' contracts alone.
 * Topics and data URIs are built from parameters: `chatroom/<peer>` for a peer's topic,
 * a media marker followed by anything for an encoded image or clip.
 */
module Scenarios {
  import opened Wrappers
  import opened Payload
  import opened Topic
  import opened Audio
  import opened Session

  /** Topics of the component's own room: `chatroom/<name>` has sender `<name>`. */
  lemma RoomSender(name: string)
    requires Separator !in name
    ensures Sender("chatroom/" + name) == Some(name)
  {
    assert "chatroom/" + name == "chatroom" + [Separator] + name + [];
    SenderOf("chatroom", name, []);
  }

  /**
   * A delivered "hi" is logged once as this client's text and becomes the fingerprint;
   * its echo is dropped, while a peer's image arriving next is logged as an image.
   */
  method EchoSuppressed(peer: string, imageRest: string)
    returns (log: seq<Record>, fingerprint: string, echoAccepted: bool)
    requires Separator !in peer
    ensures log == [
      Record(Some(SelfName), Text, "hi", "10:00 AM"),
      Record(Some(peer), Image, ImageMarker + imageRest, "10:01 AM")]
    ensures fingerprint == "hi" && !echoAccepted
  {
    var s := new ChatSession();
    s.AttachClient();
    s.TypeMessage("hi");
    assert s.pubTopic != "";
    var textIssued, imageSent := s.HandlePublish(Delivered, "10:00 AM", "", "");
    assert textIssued && !imageSent;
    assert s.lastSentMessage == "hi";
    echoAccepted := s.OnMessage(s.pubTopic, "hi", "10:00 AM");
    assert s.messages == [Record(Some(SelfName), Text, "hi", "10:00 AM")];
    RoomSender(peer);
    ClassifyDataUri(imageRest);
    assert ImageMarker + imageRest != "hi" by {
      assert |ImageMarker + imageRest| >= 10;
    }
    var peerAccepted := s.OnMessage("chatroom/" + peer, ImageMarker + imageRest, "10:01 AM");
    log, fingerprint := s.messages, s.lastSentMessage;
  }

  /** A publish the broker rejects leaves the log and the fingerprint alone and keeps the text. */
  method PublishRejected() returns (log: seq<Record>, fingerprint: string, pending: string, published: seq<Publication>)
    ensures log == [] && fingerprint == "" && pending == "hi"
    ensures published == [Publication(DefaultPubTopic, "hi")]
  {
    var s := new ChatSession();
    s.AttachClient();
    s.TypeMessage("hi");
    assert s.pubTopic != "";
    var textIssued, imageSent := s.HandlePublish(Failed, "10:00 AM", "", "");
    assert textIssued && !imageSent;
    log, fingerprint, pending, published := s.messages, s.lastSentMessage, s.message, s.outbox;
  }

  /**
   * A recorded clip is published but not logged, so it does not become the fingerprint;
   * its echo from the broker is therefore logged, as audio under this client's own name.
   */
  method OwnAudioLoggedFromEcho(audioRest: string)
    returns (clip: Option<seq<bv8>>, log: seq<Record>, published: seq<Publication>)
    ensures clip == Some([1, 2, 3])
    ensures published == [Publication(DefaultPubTopic, AudioMarker + audioRest)]
    ensures log == [Record(Some(SelfName), Audio, AudioMarker + audioRest, "10:02 AM")]
  {
    var s := new ChatSession();
    s.AttachClient();
    assert s.pubTopic != "";
    s.StartRecording(Granted);
    var recorder := s.mediaRecorder;
    recorder.DataAvailable([1, 2]);
    assert s.Valid() && s.outbox == [] && s.messages == [];
    recorder.DataAvailable([3]);
    assert s.Valid() && s.outbox == [] && s.messages == [];
    assert Assemble([[1, 2], [3]]) == [1, 2, 3] by {
      AssemblePush([[1, 2]], [3]);
      AssemblePush([], [1, 2]);
    }
    assert recorder.chunks == [[1, 2], [3]];
    clip := s.StopRecording(AudioMarker + audioRest);
    assert clip == Some([1, 2, 3]);
    assert s.outbox == [Publication(DefaultPubTopic, AudioMarker + audioRest)];
    assert s.messages == [] && s.lastSentMessage == "";
    OwnTopicSender();
    ClassifyDataUri(audioRest);
    assert AudioMarker + audioRest != "" by {
      assert |AudioMarker + audioRest| >= 10;
    }
    var accepted := s.OnMessage(s.pubTopic, AudioMarker + audioRest, "10:02 AM");
    log, published := s.messages, s.outbox;
  }

  /**
   * Sending a text and an image with one press logs both, but only the image can be the
   * fingerprint: the text's echo is not recognised and is logged a second time.
   */
  method TextEchoAfterImage(imageRest: string) returns (log: seq<Record>, fingerprint: string)
    ensures log == [
      Record(Some(SelfName), Text, "hi", "10:03 AM"),
      Record(Some(SelfName), Image, ImageMarker + imageRest, "10:03 AM"),
      Record(Some(SelfName), Text, "hi", "10:04 AM")]
    ensures fingerprint == ImageMarker + imageRest
  {
    var s := new ChatSession();
    s.AttachClient();
    s.TypeMessage("hi");
    s.HandleImageUpload([MediaFile("cat.png")]);
    assert s.pubTopic != "";
    var textIssued, imageSent := s.HandlePublish(Delivered, "10:03 AM", ImageMarker + imageRest, "10:03 AM");
    assert textIssued && imageSent;
    assert s.messages == [
      Record(Some(SelfName), Text, "hi", "10:03 AM"),
      Record(Some(SelfName), Image, ImageMarker + imageRest, "10:03 AM")];
    assert s.lastSentMessage == ImageMarker + imageRest;
    OwnTopicSender();
    ShortPayloadIsText("hi");
    assert "hi" != ImageMarker + imageRest by {
      assert |ImageMarker + imageRest| >= 10;
    }
    var accepted := s.OnMessage(s.pubTopic, "hi", "10:04 AM");
    log, fingerprint := s.messages, s.lastSentMessage;
  }

  /**
   * Typed text is logged as text even when it starts with a media marker: own records
   * are not classified, so such a record's kind differs from its payload's classification.
   */
  method TypedMarkerStaysText(rest: string) returns (log: seq<Record>)
    ensures log == [Record(Some(SelfName), Text, ImageMarker + rest, "10:06 AM")]
    ensures Classify(log[0].content) == Image
  {
    var s := new ChatSession();
    s.AttachClient();
    s.TypeMessage(ImageMarker + rest);
    assert s.pubTopic != "" && s.message != "";
    var textIssued := s.PublishText(Delivered, "10:06 AM");
    assert textIssued;
    ClassifyDataUri(rest);
    log := s.messages;
  }

  /**
   * Stopping before any recording changes nothing; a refused microphone keeps the session
   * idle, so a stop afterwards is still a no-op.
   */
  method StopWhileIdle(audioData: string) returns (clip: Option<seq<bv8>>, recording: bool, published: seq<Publication>)
    ensures clip == None && !recording && published == []
  {
    var s := new ChatSession();
    s.AttachClient();
    var first := s.StopRecording(audioData);
    s.StartRecording(Denied);
    clip := s.StopRecording(audioData);
    recording, published := s.isRecording, s.outbox;
  }

  /** An empty inbound payload is dropped while nothing has been sent: the fingerprint starts empty. */
  method EmptyPayloadDroppedAtStart(topic: string) returns (log: seq<Record>, accepted: bool)
    ensures log == [] && !accepted
  {
    var s := new ChatSession();
    accepted := s.OnMessage(topic, "", "10:05 AM");
    log := s.messages;
  }
}
