/**
 * The unseal view of `features/receiver/Receiver.tsx`: take an image by drop
 * or file dialog, preview it, ask for the password in a modal, post both to
 * the unsealing service, and show (and speak) the decrypted message.
 *
 * As in the seal view, state and refs form one immutable record and every
 * asynchronous resumption is an event: the `FileReader` finishing, the
 * 100 ms timer that opens the modal, the service's reply, the end of speech.
 */
module UnsealFlow {
  import opened Common

  const ImagePrefix := "image/"
  const NotAnImage := "Please upload a valid image file"
  const EmptyPassword := "Password cannot be empty"
  const NoImage := "No image file found"
  const Decrypted := "Message decrypted successfully!"
  const DecryptFailed := "Failed to decrypt"
  const ConnectionFailed := "Connection failed. Is the backend running?"

  /** A selected `File`: its MIME `type` and contents. */
  datatype File = File(name: string, mimeType: string, bytes: seq<Byte>)

  datatype UnsealState = UnsealState(
    message: string,
    loading: bool,
    imagePreview: Option<File>,     // the file whose data URL `imagePreview` holds
    showPasswordModal: bool,
    password: string,
    isDragging: bool,
    isSpeaking: bool,
    toast: Option<Toast>,
    pendingFile: Option<File>,      // `pendingFile.current`
    readers: seq<File>,             // `FileReader`s started and not yet loaded
    modalOpens: nat)                // 100 ms timers that will open the modal

  const Initial := UnsealState("", false, None, false, "", false, false, None, None, [], 0)

  /** The multipart body posted to `/unseal`. */
  datatype UnsealRequest = UnsealRequest(image: File, password: string)

  /**
   * How the request settles: a JSON body whose `message` and `error` fields
   * may be strings, or a thrown exception (network failure, a body that is
   * not JSON).
   */
  datatype UnsealResponse = Body(message: Option<string>, error: Option<string>) | Exception

  /** `file.type.startsWith('image/')`. */
  predicate IsImage(f: File)
    ensures IsImage(f) <==> exists subtype :: f.mimeType == ImagePrefix + subtype
  {
    if StartsWith(f.mimeType, ImagePrefix) then
      assert f.mimeType == ImagePrefix + f.mimeType[|ImagePrefix|..];
      true
    else
      false
  }

  /** `processFile`: clear the previous message and password, start reading a preview, keep the file. */
  function ProcessFile(s: UnsealState, f: File): (r: UnsealState)
    ensures r.message == "" && r.password == "" && r.pendingFile == Some(f)
    ensures r.readers == s.readers + [f]
    ensures r.imagePreview == s.imagePreview && r.showPasswordModal == s.showPasswordModal
    ensures r.loading == s.loading && r.toast == s.toast
  {
    s.(message := "", password := "", readers := s.readers + [f], pendingFile := Some(f))
  }

  /** `handleDrop`: only a present file with an image MIME type goes on to `processFile`. */
  function Drop(s: UnsealState, file: Option<File>): (r: UnsealState)
    ensures !r.isDragging
    ensures file.Some? && IsImage(file.value) ==> r == ProcessFile(s.(isDragging := false), file.value)
    ensures !(file.Some? && IsImage(file.value)) ==>
      r == s.(isDragging := false, toast := Some(Toast(NotAnImage, Error)))
  {
    var s1 := s.(isDragging := false);
    if file.Some? && IsImage(file.value) then ProcessFile(s1, file.value)
    else s1.(toast := Some(Toast(NotAnImage, Error)))
  }

  /** `handleFileSelect`: the dialog's file goes to `processFile` whatever its type. */
  function FileSelected(s: UnsealState, file: Option<File>): (r: UnsealState)
    ensures file.Some? ==> r == ProcessFile(s, file.value)
    ensures file.None? ==> r == s
  {
    if file.Some? then ProcessFile(s, file.value) else s
  }

  /** A `FileReader`'s `onload`: show the preview and schedule the modal 100 ms later. */
  function ReaderLoaded(s: UnsealState, i: nat): (r: UnsealState)
    ensures i < |s.readers| ==> r.imagePreview == Some(s.readers[i]) && r.modalOpens == s.modalOpens + 1
    ensures i < |s.readers| ==> |r.readers| == |s.readers| - 1 && r.pendingFile == s.pendingFile
    ensures i >= |s.readers| ==> r == s
  {
    if i < |s.readers| then
      s.(imagePreview := Some(s.readers[i]), readers := s.readers[..i] + s.readers[i + 1..], modalOpens := s.modalOpens + 1)
    else s
  }

  /** The 100 ms timer: it opens the modal whatever happened meanwhile. */
  function ModalTimerFired(s: UnsealState): (r: UnsealState)
    ensures s.modalOpens > 0 ==> r.showPasswordModal && r.modalOpens == s.modalOpens - 1
    ensures s.modalOpens > 0 ==> r.pendingFile == s.pendingFile && r.imagePreview == s.imagePreview
    ensures s.modalOpens == 0 ==> r == s
  {
    if s.modalOpens > 0 then s.(showPasswordModal := true, modalOpens := s.modalOpens - 1) else s
  }

  function PasswordChanged(s: UnsealState, p: string): (r: UnsealState)
    ensures r.password == p && r.(password := s.password) == s
  {
    s.(password := p)
  }

  /** The first, synchronous half of `handlePasswordSubmit`: validate, close the modal, start loading. */
  function SubmitPassword(s: UnsealState): (r: (UnsealState, Option<UnsealRequest>))
    ensures IsBlank(s.password) ==> r == (s.(toast := Some(Toast(EmptyPassword, Warning))), None)
    ensures !IsBlank(s.password) && s.pendingFile.None? ==> r == (s.(toast := Some(Toast(NoImage, Error))), None)
    ensures r.1.Some? <==> !IsBlank(s.password) && s.pendingFile.Some?
    ensures r.1.Some? ==>
      && r.1.value == UnsealRequest(s.pendingFile.value, s.password)
      && r.0 == s.(showPasswordModal := false, loading := true)
  {
    TrimEmptyIffBlank(s.password);
    if Trim(s.password) == "" then (s.(toast := Some(Toast(EmptyPassword, Warning))), None)
    else if s.pendingFile.None? then (s.(toast := Some(Toast(NoImage, Error))), None)
    else (s.(showPasswordModal := false, loading := true), Some(UnsealRequest(s.pendingFile.value, s.password)))
  }

  /** The reply counts as a decrypted message when its `message` field is a non-empty string. */
  predicate Decoded(reply: UnsealResponse) {
    reply.Body? && reply.message.Some? && Truthy(reply.message.value)
  }

  /** `data.error || 'Failed to decrypt'`. */
  function FailureText(error: Option<string>): (t: string)
    ensures error.Some? && Truthy(error.value) ==> t == error.value
    ensures error.None? || error.value == "" ==> t == DecryptFailed
  {
    if error.Some? && Truthy(error.value) then error.value else DecryptFailed
  }

  /** The second half of `handlePasswordSubmit`: the reply's branch, then `finally`. */
  function CompleteSubmit(s: UnsealState, reply: UnsealResponse): (r: UnsealState)
    ensures !r.loading && r.password == ""
    ensures Decoded(reply) ==>
      && r.message == reply.message.value && r.isSpeaking
      && r.toast == Some(Toast(Decrypted, Success))
      && r.imagePreview == s.imagePreview && r.pendingFile == s.pendingFile
    ensures !Decoded(reply) ==>
      && r.imagePreview.None? && r.pendingFile.None?
      && r.message == s.message && r.isSpeaking == s.isSpeaking
    ensures reply.Body? && !Decoded(reply) ==> r.toast == Some(Toast(FailureText(reply.error), Error))
    ensures reply.Exception? ==> r.toast == Some(Toast(ConnectionFailed, Error))
    ensures r.showPasswordModal == s.showPasswordModal
  {
    var settled :=
      if Decoded(reply) then
        s.(message := reply.message.value, toast := Some(Toast(Decrypted, Success)), isSpeaking := true)
      else
        var text := if reply.Exception? then ConnectionFailed else FailureText(reply.error);
        s.(toast := Some(Toast(text, Error)), imagePreview := None, pendingFile := None);
    settled.(loading := false, password := "")
  }

  /** `handlePasswordSubmit` run to completion against a given reply. */
  function HandlePasswordSubmit(s: UnsealState, reply: UnsealResponse): (r: (UnsealState, Option<UnsealRequest>))
    ensures r.1.None? ==> r.0.pendingFile == s.pendingFile && r.0.password == s.password && r.0.loading == s.loading
    ensures r.1.Some? <==> !IsBlank(s.password) && s.pendingFile.Some?
    ensures r.1.Some? ==> !r.0.loading && r.0.password == "" && !r.0.showPasswordModal
  {
    var (submitted, request) := SubmitPassword(s);
    if request.None? then (submitted, None) else (CompleteSubmit(submitted, reply), request)
  }

  /** `utterance.onend`. */
  function SpeechEnded(s: UnsealState): (r: UnsealState)
    ensures !r.isSpeaking && r.(isSpeaking := s.isSpeaking) == s
  {
    s.(isSpeaking := false)
  }

  /** `resetState` (the preview's close button and "Decrypt Another"). */
  function ResetState(s: UnsealState): (r: UnsealState)
    ensures r.imagePreview.None? && r.message == "" && r.password == "" && r.pendingFile.None?
    ensures r.loading == s.loading && r.showPasswordModal == s.showPasswordModal && r.toast == s.toast
  {
    s.(imagePreview := None, message := "", password := "", pendingFile := None)
  }

  /** The modal's `onClose` (backdrop, close button, Escape): the pending file stays. */
  function CloseModal(s: UnsealState): (r: UnsealState)
    ensures !r.showPasswordModal && r.password == "" && r.imagePreview.None?
    ensures r.pendingFile == s.pendingFile && r.message == s.message
  {
    s.(showPasswordModal := false, password := "", imagePreview := None)
  }

  /** The modal's Cancel button: like `onClose`, and it also drops the pending file. */
  function CancelModal(s: UnsealState): (r: UnsealState)
    ensures !r.showPasswordModal && r.password == "" && r.imagePreview.None? && r.pendingFile.None?
    ensures r.message == s.message
  {
    s.(showPasswordModal := false, password := "", imagePreview := None, pendingFile := None)
  }

  /** The upload zone is rendered only when there is neither a preview nor a message. */
  predicate UploadZoneVisible(s: UnsealState)
    ensures UploadZoneVisible(s) <==> s.imagePreview.None? && s.message == ""
  {
    s.imagePreview.None? && !Truthy(s.message)
  }

  /** A click on the upload zone opens the file dialog unless the modal is open or a request is loading. */
  function UploadZoneClick(s: UnsealState): (opensDialog: bool)
    ensures opensDialog <==> UploadZoneVisible(s) && !s.showPasswordModal && !s.loading
  {
    UploadZoneVisible(s) && !s.showPasswordModal && !s.loading
  }

  /**
   * A dropped image that is read, shown, and submitted with a non-blank
   * password ends with the decoded message shown and the upload zone hidden
   * when the service decodes it, and with the preview and pending file
   * dropped and the upload zone back when it does not.
   */
  lemma DropToReply(s: UnsealState, f: File, p: string, reply: UnsealResponse)
    requires IsImage(f) && !IsBlank(p)
    ensures var r := DropFlow(s, f, p, reply);
      && !r.loading && r.password == "" && !r.showPasswordModal
      && (Decoded(reply) ==> r.message == reply.message.value && r.pendingFile == Some(f) && !UploadZoneVisible(r))
      && (!Decoded(reply) ==> r.pendingFile.None? && UploadZoneVisible(r))
  {
  }

  /** The steps `DropToReply` speaks about. */
  function DropFlow(s: UnsealState, f: File, p: string, reply: UnsealResponse): UnsealState {
    var dropped := Drop(s, Some(f));
    var loaded := ReaderLoaded(dropped, |s.readers|);
    var shown := ModalTimerFired(loaded);
    HandlePasswordSubmit(PasswordChanged(shown, p), reply).0
  }

  /**
   * A non-image drop only raises the toast: a file pending from before stays
   * pending, and a submit right after sends that earlier file with the
   * password already typed. With no file pending, nothing is sent.
   */
  lemma NonImageDropKeepsPending(s: UnsealState, f: File, reply: UnsealResponse)
    requires !IsImage(f)
    ensures Drop(s, Some(f)).pendingFile == s.pendingFile
    ensures var sent := HandlePasswordSubmit(Drop(s, Some(f)), reply).1;
      && (sent.Some? <==> s.pendingFile.Some? && !IsBlank(s.password))
      && (sent.Some? ==> sent.value == UnsealRequest(s.pendingFile.value, s.password))
  {
  }
}
