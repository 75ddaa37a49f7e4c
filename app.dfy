/**
 * The `App` component with rendering stripped away: the upload form's
 * validation rules, the enablement of its buttons, and every event handler
 * as a state transition over the component's own state plus the chat
 * store. Each HTTP call is replaced by the request the handler would send
 * and a `Reply` parameter standing for the backend's answer.
 */
module App {
  import opened Wrappers
  import opened JsString
  import ChatSlice

  /** A file chosen in the file picker. */
  datatype PdfFile = PdfFile(name: string)

  /** The provider whose backend needs a secret code. */
  const CredentialProvider: string := "chatgpt"

  /** What the upload form holds when it is submitted. */
  datatype UploadForm = UploadForm(provider: string, file: Option<PdfFile>, secret: string)

  /** The three validation rules of the upload form. */
  datatype Rule = ProviderRequired | FileRequired | SecretRequired

  /**
   * Rule `r` holds of the form. The secret rule is the negation of the
   * source's test `provider === "chatgpt" && !secret.trim()`, and binds
   * only the credential provider.
   */
  predicate Satisfies(r: Rule, f: UploadForm)
    ensures r == SecretRequired ==>
              (Satisfies(r, f) <==> !(f.provider == CredentialProvider && Trim(f.secret) == ""))
    ensures r == SecretRequired && f.provider != CredentialProvider ==> Satisfies(r, f)
  {
    match r
    case ProviderRequired => f.provider != ""
    case FileRequired => f.file.Some?
    case SecretRequired => f.provider == CredentialProvider ==> !IsBlank(f.secret)
  }

  /** Every rule holds. */
  predicate Acceptable(f: UploadForm) {
    Satisfies(ProviderRequired, f) && Satisfies(FileRequired, f) && Satisfies(SecretRequired, f)
  }

  /** Per-field error flags shown under the form's inputs. */
  datatype FieldErrors = FieldErrors(provider: bool, file: bool, secret: bool)

  const NoErrors: FieldErrors := FieldErrors(false, false, false)

  /** The flag that reports a failure of rule `r`. */
  function Flag(e: FieldErrors, r: Rule): bool {
    match r
    case ProviderRequired => e.provider
    case FileRequired => e.file
    case SecretRequired => e.secret
  }

  /** What a JavaScript truthiness test on the session id sees. */
  predicate Truthy(id: Option<string>) {
    id.Some? && id.value != ""
  }

  /** The backend's answer to a request: `status` true with data, `status` false, or a thrown error. */
  datatype Reply<T> = Ok(data: T) | Rejected | TransportError

  /** The multipart body of `upload-file`; `secret_code` is attached only when non-empty. */
  datatype UploadRequest = UploadRequest(file: PdfFile, secretCode: Option<string>)
  /** The JSON body of `ask`. */
  datatype AskRequest = AskRequest(sessionId: Option<string>, question: string, platform: string)
  /** The JSON body of `end-chat`. */
  datatype EndChatRequest = EndChatRequest(sessionId: Option<string>)

  /**
   * The computation inside `validateFields`: every flag starts false and is
   * raised exactly when its own rule fails, and the form is valid exactly
   * when no rule fails.
   */
  method CheckFields(f: UploadForm) returns (valid: bool, newErrors: FieldErrors)
    ensures forall r :: Flag(newErrors, r) <==> !Satisfies(r, f)
    ensures valid <==> Acceptable(f)
    ensures valid <==> newErrors == NoErrors
  {
    valid := true;
    newErrors := NoErrors;
    if f.provider == "" {
      newErrors := newErrors.(provider := true);
      valid := false;
    }
    if f.file.None? {
      newErrors := newErrors.(file := true);
      valid := false;
    }
    if f.provider == CredentialProvider && Trim(f.secret) == "" {
      newErrors := newErrors.(secret := true);
      valid := false;
    }
  }

  /**
   * The upload button's `disabled` expression. It is enabled exactly when no
   * upload is in flight and every rule `validateFields` checks holds.
   */
  function UploadDisabled(fileLoading: bool, f: UploadForm): (disabled: bool)
    ensures !disabled <==> !fileLoading && Acceptable(f)
    ensures fileLoading ==> disabled
  {
    fileLoading || f.provider == "" || f.file.None?
      || (f.provider == CredentialProvider && Trim(f.secret) == "")
  }

  /** The ask button's `disabled` expression: enabled exactly when idle and the question is not blank. */
  function AskDisabled(loading: bool, question: string): (disabled: bool)
    ensures !disabled <==> !loading && !IsBlank(question)
  {
    loading || Trim(question) == ""
  }

  /** The component's state, with a reference to the chat store it dispatches to. */
  class Screen {
    const store: ChatSlice.ChatStore
    var file: Option<PdfFile>
    var question: string
    var loading: bool
    var fileLoading: bool
    var endChatLoading: bool
    var selectedProvider: string
    var secretInput: string
    var errors: FieldErrors

    function Form(): UploadForm
      reads this
    {
      UploadForm(selectedProvider, file, secretInput)
    }

    /** The chat view (not the upload form) is on screen. */
    predicate InSession()
      reads this, store
      ensures InSession() <==> store.sessionId != None && store.sessionId != Some("")
    {
      Truthy(store.sessionId)
    }

    /** A transcript exists only while a session is active. */
    predicate Consistent()
      reads this, store
    {
      store.messages != [] ==> InSession()
    }

    /** The state of a freshly mounted component. */
    constructor(store: ChatSlice.ChatStore)
      ensures this.store == store
      ensures file == None && question == "" && selectedProvider == "" && secretInput == ""
      ensures !loading && !fileLoading && !endChatLoading
      ensures errors == NoErrors
    {
      this.store := store;
      file := None;
      question := "";
      loading, fileLoading, endChatLoading := false, false, false;
      selectedProvider, secretInput := "", "";
      errors := NoErrors;
    }

    /** `validateFields`: replaces every error flag, leaves the inputs alone. */
    method ValidateFields() returns (valid: bool)
      modifies this`errors
      ensures valid <==> Acceptable(Form())
      ensures forall r :: Flag(errors, r) <==> !Satisfies(r, Form())
    {
      valid, errors := CheckFields(Form());
    }

    /**
     * `handleUpload`. An invalid form only refreshes the error flags. A valid
     * one sends the file: on success the session id is stored; on `status`
     * false the provider and secret are cleared; on a transport error they
     * are kept; the upload flag ends false on every path past validation.
     */
    method HandleUpload(reply: Reply<string>) returns (sent: Option<UploadRequest>)
      modifies this, store
      ensures forall r :: Flag(errors, r) <==> !Satisfies(r, old(Form()))
      ensures file == old(file) && question == old(question)
      ensures loading == old(loading) && endChatLoading == old(endChatLoading)
      ensures store.messages == old(store.messages) && store.persisted == old(store.persisted)
      ensures !Acceptable(old(Form())) ==>
                sent == None && fileLoading == old(fileLoading)
                && store.sessionId == old(store.sessionId)
                && selectedProvider == old(selectedProvider) && secretInput == old(secretInput)
      ensures Acceptable(old(Form())) ==>
                sent == Some(UploadRequest(old(file).value,
                                           if old(secretInput) == "" then None else Some(old(secretInput))))
                && !fileLoading
      ensures Acceptable(old(Form())) && reply.Ok? ==>
                store.State() == ChatSlice.Reduce(old(store.State()), ChatSlice.SetSessionId(Some(reply.data)))
                && selectedProvider == old(selectedProvider) && secretInput == old(secretInput)
      ensures Acceptable(old(Form())) && reply.Rejected? ==>
                store.sessionId == old(store.sessionId) && selectedProvider == "" && secretInput == ""
      ensures Acceptable(old(Form())) && reply.TransportError? ==>
                store.sessionId == old(store.sessionId)
                && selectedProvider == old(selectedProvider) && secretInput == old(secretInput)
      ensures old(Consistent()) && !old(InSession()) ==> Consistent()
    {
      var valid := ValidateFields();
      if !valid {
        return None;
      }
      fileLoading := true;
      sent := Some(UploadRequest(file.value, if secretInput == "" then None else Some(secretInput)));
      match reply {
        case Ok(id) =>
          store.SetSessionId(Some(id));
          // the secret-code dispatch names no reducer of the slice: no state change
        case Rejected =>
          secretInput := "";
          selectedProvider := "";
        case TransportError =>
      }
      fileLoading := false;
    }

    /**
     * `handleAsk`. A blank question changes nothing and sends nothing. Otherwise
     * a successful reply puts the pair at the top of the transcript and
     * clears the question; a failed one keeps everything; the ask flag ends false.
     */
    method HandleAsk(reply: Reply<string>) returns (sent: Option<AskRequest>)
      modifies this, store
      ensures IsBlank(old(question)) ==> sent == None && unchanged(this, store)
      ensures !IsBlank(old(question)) ==>
                sent == Some(AskRequest(old(store.sessionId), old(question), old(selectedProvider)))
                && !loading
      ensures !IsBlank(old(question)) && reply.Ok? ==>
                store.State() == ChatSlice.Reduce(old(store.State()),
                                                  ChatSlice.AddMessage(ChatSlice.Message(old(question), reply.data)))
                && question == ""
      ensures !reply.Ok? ==> store.messages == old(store.messages) && question == old(question)
      ensures store.sessionId == old(store.sessionId) && store.persisted == old(store.persisted)
      ensures file == old(file) && selectedProvider == old(selectedProvider) && secretInput == old(secretInput)
      ensures errors == old(errors) && fileLoading == old(fileLoading) && endChatLoading == old(endChatLoading)
      ensures old(InSession()) ==> Consistent()
    {
      if Trim(question) == "" {
        return None;
      }
      loading := true;
      sent := Some(AskRequest(store.sessionId, question, selectedProvider));
      match reply {
        case Ok(answer) =>
          store.AddMessage(ChatSlice.Message(question, answer));
          question := "";
        case Rejected =>
        case TransportError =>
      }
      loading := false;
    }

    /**
     * `handleEndChat`. On success the store is reset (its storage slot
     * emptied) and the file, secret and provider are cleared; on failure
     * the session and transcript stay; the end-chat flag ends false.
     */
    method HandleEndChat(reply: Reply<()>) returns (sent: EndChatRequest)
      modifies this, store
      ensures sent == EndChatRequest(old(store.sessionId))
      ensures !endChatLoading
      ensures reply.Ok? ==>
                store.State() == ChatSlice.Initial && store.persisted == None
                && file == None && secretInput == "" && selectedProvider == ""
      ensures !reply.Ok? ==>
                store.State() == old(store.State()) && store.persisted == old(store.persisted)
                && file == old(file) && secretInput == old(secretInput)
                && selectedProvider == old(selectedProvider)
      ensures question == old(question) && errors == old(errors)
      ensures loading == old(loading) && fileLoading == old(fileLoading)
      ensures old(Consistent()) ==> Consistent()
    {
      endChatLoading := true;
      sent := EndChatRequest(store.sessionId);
      match reply {
        case Ok(_) =>
          store.ResetChat();
          file := None;
          secretInput := "";
          selectedProvider := "";
        case Rejected =>
        case TransportError =>
      }
      endChatLoading := false;
    }

    /** `handleProviderChange`: new provider, empty secret, provider and secret errors cleared. */
    method HandleProviderChange(value: string)
      modifies this`selectedProvider, this`secretInput, this`errors
      ensures selectedProvider == value && secretInput == ""
      ensures errors == old(errors).(provider := false, secret := false)
      ensures errors.file == old(errors.file)
    {
      selectedProvider := value;
      secretInput := "";
      errors := errors.(provider := false, secret := false);
    }

    /** `handleFileChange`: the picked file (none if the dialog was cancelled); only the file error cleared. */
    method HandleFileChange(picked: Option<PdfFile>)
      modifies this`file, this`errors
      ensures file == picked
      ensures errors == old(errors).(file := false)
    {
      file := picked;
      errors := errors.(file := false);
    }

    /** The secret field's `onChange`: a non-blank value clears the secret error, a blank one keeps it. */
    method ChangeSecret(value: string)
      modifies this`secretInput, this`errors
      ensures secretInput == value
      ensures errors == if IsBlank(value) then old(errors) else old(errors).(secret := false)
    {
      secretInput := value;
      if Trim(value) != "" {
        errors := errors.(secret := false);
      }
    }

    /** The question field's `onChange`. */
    method ChangeQuestion(value: string)
      modifies this`question
      ensures question == value
    {
      question := value;
    }
  }
}
