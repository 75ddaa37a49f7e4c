/**
 * Client runs of the component, written against the handlers' contracts
 * only: each method builds a fresh store and screen, drives them through
 * the user's steps, and states what the user ends up with.
 */
module Scenarios {
  import opened Wrappers
  import opened App
  import ChatSlice

  /** Choosing "chatgpt" without a secret, then uploading: nothing is sent and the secret error shows. */
  method MissingSecretBlocksUpload(picked: PdfFile, reply: Reply<string>)
    returns (sent: Option<UploadRequest>, errors: FieldErrors, sessionId: Option<string>)
    ensures sent == None
    ensures errors == FieldErrors(false, false, true)
    ensures sessionId == None
  {
    var store := new ChatSlice.ChatStore(None);
    var screen := new Screen(store);
    screen.HandleProviderChange("chatgpt");
    screen.HandleFileChange(Some(picked));
    ghost var form := screen.Form();
    assert Satisfies(ProviderRequired, form) && Satisfies(FileRequired, form);
    assert !Satisfies(SecretRequired, form);
    sent := screen.HandleUpload(reply);
    assert Flag(screen.errors, ProviderRequired) == false && Flag(screen.errors, FileRequired) == false;
    assert Flag(screen.errors, SecretRequired);
    errors, sessionId := screen.errors, store.sessionId;
  }

  /**
   * A successful upload, two answered questions, then a successful end of chat:
   * the transcript shows the second pair first, and ending the chat leaves the
   * store and its storage slot empty.
   */
  method UploadAskAskEnd(picked: PdfFile, id: string, a1: string, a2: string)
    returns (transcript: seq<ChatSlice.Message>, afterEnd: ChatSlice.ChatState, slot: Option<ChatSlice.ChatState>)
    ensures transcript == [ChatSlice.Message("Why?", a2), ChatSlice.Message("What is the answer?", a1)]
    ensures afterEnd == ChatSlice.Initial && slot == None
  {
    var q1, q2 := "What is the answer?", "Why?";
    var store := new ChatSlice.ChatStore(Some(ChatSlice.Initial));
    var screen := new Screen(store);
    screen.HandleProviderChange("gemini");
    screen.HandleFileChange(Some(picked));
    var up := screen.HandleUpload(Ok(id));
    assert up == Some(UploadRequest(picked, None));
    screen.ChangeQuestion(q1);
    assert q1[0] == 'W';
    var ask1 := screen.HandleAsk(Ok(a1));
    screen.ChangeQuestion(q2);
    assert q2[0] == 'W';
    var ask2 := screen.HandleAsk(Ok(a2));
    transcript := store.messages;
    var end := screen.HandleEndChat(Ok(()));
    afterEnd, slot := store.State(), store.persisted;
  }

  /** A rejected upload clears provider and secret but keeps the chosen file. */
  method RejectedUploadKeepsFile(picked: PdfFile)
    returns (provider: string, secretInput: string, file: Option<PdfFile>, uploading: bool)
    ensures provider == "" && secretInput == ""
    ensures file == Some(picked)
    ensures !uploading
  {
    var store := new ChatSlice.ChatStore(None);
    var screen := new Screen(store);
    var secret := "sk-1";
    screen.HandleProviderChange("chatgpt");
    screen.ChangeSecret(secret);
    assert secret[0] == 's';
    screen.HandleFileChange(Some(picked));
    var sent := screen.HandleUpload(Rejected);
    provider, secretInput, file, uploading := screen.selectedProvider, screen.secretInput, screen.file, screen.fileLoading;
  }
}
