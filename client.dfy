/**
 * The browser client's session: the connection flag, the list of uploaded
 * documents and its copy in local storage, and the chat log. Every network
 * call is an input (the outcome the server or the transport produced), and
 * each operation runs to completion as one step.
 */
module Client {
  import opened Wrappers
  import opened Text

  datatype Origin = User | Bot | Error

  /**
   * A chat log entry. `id` stands for the identity of the rendered element:
   * it is what a later in-place rewrite of a placeholder refers to.
   */
  datatype Message = Message(id: nat, text: string, origin: Origin)

  /** An uploaded document; `uploadedAt` is an opaque clock reading. */
  datatype Document = Document(name: string, serverPath: string, uploadedAt: int)

  /** A file picked by the user; only its name matters to the session. */
  datatype File = File(name: string)

  datatype StatusKind = Plain | Uploading | UploadDone | UploadError
  datatype UploadStatus = UploadStatus(text: string, kind: StatusKind)

  /** A response body, parsed as JSON or failing to parse. */
  datatype Body<T> = Parsed(value: T) | Malformed(reason: string)

  /** What a fetch produced: a response with its status, or a rejected promise. */
  datatype Outcome<T> = Response(status: nat, body: Body<T>) | NetworkFailure(reason: string)

  datatype HealthReply = HealthReply
  datatype ChatReply = ChatReply(response: Option<string>)
  datatype UploadReply = UploadReply(filePath: string)
  datatype DeleteReply = DeleteReply(detail: Option<string>)

  /** The JSON body of POST /chat. */
  datatype ChatRequest = ChatRequest(message: string, documents: seq<string>)

  /** One selected file together with the clock reading and answer its upload gets. */
  datatype UploadAttempt = UploadAttempt(file: File, at: int, outcome: Outcome<UploadReply>)

  /** A started removal: the record it targeted and the placeholder message it showed. */
  datatype PendingRemoval = PendingRemoval(index: nat, name: string, serverPath: string, placeholder: nat)

  const VerifyingText: string := "Verificando conexión con el servidor..."
  const ConnectedText: string := "¡Conexión exitosa con el servidor FastAPI! ¿En qué puedo ayudarte?"
  const ProbeStatusPrefix: string := "El servidor respondió con un error. Código: "
  const UnreachableText: string :=
    "No se pudo conectar al servidor. Asegúrate de que FastAPI esté ejecutándose en 127.0.0.1:8000"
  const NotConnectedText: string := "No hay conexión con el servidor"
  const ChatErrorPrefix: string := "Error al conectar con el servidor: "
  const NoReplyText: string := "No recibí una respuesta válida del servidor"
  const RemovedPrefix: string := "He eliminado el documento: "
  const RemovalErrorPrefix: string := "Error al eliminar el documento "

  /** Whether fetch reports the status as ok: 200 to 299. */
  predicate IsOk(status: nat) {
    200 <= status <= 299
  }

  /** JavaScript truthiness of an optional string field. */
  predicate Truthy(s: Option<string>) {
    s.Some? && s.value != ""
  }

  /** The response was ok and its body parsed: the path that reaches the code after the awaits. */
  predicate Succeeded<T>(o: Outcome<T>) {
    o.Response? && IsOk(o.status) && o.body.Parsed?
  }

  /** The message of the error a failed chat or upload call throws. */
  function ThrownReason<T>(o: Outcome<T>): (r: string)
    requires !Succeeded(o)
    ensures o.NetworkFailure? ==> r == o.reason
    ensures o.Response? && !IsOk(o.status) ==>
              var prefix := "Error del servidor: ";
              |r| > |prefix| && r[..|prefix|] == prefix
              && AllDigits(r[|prefix|..]) && DigitsValue(r[|prefix|..]) == o.status
    ensures o.Response? && IsOk(o.status) ==> r == o.body.reason
  {
    match o
    case NetworkFailure(reason) => reason
    case Response(status, body) =>
      if !IsOk(status) then
        var digits := NatToString(status);
        NatToStringDenotes(status);
        assert ("Error del servidor: " + digits)[|"Error del servidor: "|..] == digits;
        "Error del servidor: " + digits
      else match body
        case Malformed(reason) => reason
        case Parsed(_) => ""
  }

  /** The message of the error a failed delete call throws; the body is parsed before the status is looked at. */
  function RemovalReason(o: Outcome<DeleteReply>): (r: string)
    requires !Succeeded(o)
    ensures o.NetworkFailure? ==> r == o.reason
    ensures o.Response? && o.body.Malformed? ==> r == o.body.reason
    ensures o.Response? && o.body.Parsed? && Truthy(o.body.value.detail) ==> r == o.body.value.detail.value
    ensures o.Response? && o.body.Parsed? && !Truthy(o.body.value.detail) ==>
              r == "Error " + NatToString(o.status) + " al eliminar el archivo" && !IsOk(o.status)
  {
    match o
    case NetworkFailure(reason) => reason
    case Response(status, body) =>
      match body
      case Malformed(reason) => reason
      case Parsed(reply) =>
        if Truthy(reply.detail) then reply.detail.value
        else "Error " + NatToString(status) + " al eliminar el archivo"
  }

  /** The error shown by a probe that did not succeed. */
  function ProbeErrorText(o: Outcome<HealthReply>): (r: string)
    ensures o.Response? && !IsOk(o.status) ==>
              |r| > |ProbeStatusPrefix| && r[..|ProbeStatusPrefix|] == ProbeStatusPrefix
              && AllDigits(r[|ProbeStatusPrefix|..]) && DigitsValue(r[|ProbeStatusPrefix|..]) == o.status
    ensures !(o.Response? && !IsOk(o.status)) ==> r == UnreachableText
  {
    if o.Response? && !IsOk(o.status) then
      var digits := NatToString(o.status);
      NatToStringDenotes(o.status);
      assert (ProbeStatusPrefix + digits)[|ProbeStatusPrefix|..] == digits;
      ProbeStatusPrefix + digits
    else UnreachableText
  }

  /** The text of the bot reply to a successful chat call. */
  function ReplyText(reply: ChatReply): (text: string)
    ensures text == (if Truthy(reply.response) then reply.response.value else NoReplyText)
    ensures text != ""
  {
    match reply.response
    case Some(r) => if r != "" then r else NoReplyText
    case None => NoReplyText
  }

  /** The log entries a probe adds, numbered from id. */
  function ProbeLog(o: Outcome<HealthReply>, id: nat): (r: seq<Message>)
    ensures |r| == (if Succeeded(o) then 1 else 2)
    ensures r[|r| - 1].id == id + 1 && (r[|r| - 1].origin == Bot <==> Succeeded(o))
    ensures !Succeeded(o) ==> r[0] == Message(id, VerifyingText, Bot) && r[1].text == ProbeErrorText(o)
    ensures !Succeeded(o) ==> r[1].origin == Error
    ensures Succeeded(o) ==> r[0].text == ConnectedText
  {
    if Succeeded(o) then [Message(id + 1, ConnectedText, Bot)]
    else [Message(id, VerifyingText, Bot), Message(id + 1, ProbeErrorText(o), Error)]
  }

  /** The entry a chat call adds. */
  function ChatNote(connected: bool, o: Outcome<ChatReply>, id: nat): (m: Message)
    ensures m.id == id && (m.origin == Bot <==> connected && Succeeded(o)) && m.origin != User
    ensures connected && Succeeded(o) ==> m.text == ReplyText(o.body.value)
    ensures !connected ==> m.text == NotConnectedText
    ensures connected && !Succeeded(o) ==> m.text == ChatErrorPrefix + ThrownReason(o)
  {
    if !connected then Message(id, NotConnectedText, Error)
    else if Succeeded(o) then Message(id, ReplyText(o.body.value), Bot)
    else Message(id, ChatErrorPrefix + ThrownReason(o), Error)
  }

  /** The record a successful upload appends, if it succeeded. */
  function NewRecords(a: UploadAttempt): (r: seq<Document>)
    ensures |r| <= 1
    ensures |r| == 1 <==> Succeeded(a.outcome)
    ensures |r| == 1 ==> r[0] == Document(a.file.name, a.outcome.body.value.filePath, a.at)
  {
    if Succeeded(a.outcome) then [Document(a.file.name, a.outcome.body.value.filePath, a.at)] else []
  }

  /** The entries an upload adds to the log. */
  function UploadLog(connected: bool, a: UploadAttempt, id: nat): (r: seq<Message>)
    ensures |r| <= 1 && (|r| == 1 <==> !connected || Succeeded(a.outcome))
    ensures |r| == 1 ==> r[0].id == id && (r[0].origin == User <==> connected)
    ensures !connected ==> r == [Message(id, NotConnectedText, Error)]
    ensures connected && Succeeded(a.outcome) ==> r[0].text == "He subido el documento: " + a.file.name
  {
    if !connected then [Message(id, NotConnectedText, Error)]
    else if Succeeded(a.outcome) then [Message(id, "He subido el documento: " + a.file.name, User)]
    else []
  }

  /** The upload status line a completed upload leaves. */
  function FinishedStatus(a: UploadAttempt): (st: UploadStatus)
    ensures st.kind == UploadDone <==> Succeeded(a.outcome)
    ensures st.kind == UploadDone || st.kind == UploadError
  {
    if Succeeded(a.outcome) then UploadStatus(a.file.name + " subido correctamente", UploadDone)
    else UploadStatus("Error al subir " + a.file.name + ": " + ThrownReason(a.outcome), UploadError)
  }

  /** The records a run of uploads appends, in order. */
  function Uploaded(attempts: seq<UploadAttempt>): (r: seq<Document>)
    ensures |r| <= |attempts|
    decreases |attempts|
  {
    if attempts == [] then []
    else Uploaded(attempts[..|attempts| - 1]) + NewRecords(attempts[|attempts| - 1])
  }

  /** The log entries a run of uploads adds, numbered from id. */
  function UploadsLog(connected: bool, attempts: seq<UploadAttempt>, id: nat): seq<Message>
    decreases |attempts|
  {
    if attempts == [] then []
    else
      var before := UploadsLog(connected, attempts[..|attempts| - 1], id);
      before + UploadLog(connected, attempts[|attempts| - 1], id + |before|)
  }

  /** The part of the page state that uploads change. */
  datatype UploadView = UploadView(
    documents: seq<Document>, mirror: Option<seq<Document>>,
    messages: seq<Message>, nextId: nat, status: UploadStatus)

  /** The state one upload leaves, started with the given connection flag. */
  function AfterUpload(connected: bool, v: UploadView, a: UploadAttempt): (w: UploadView)
    ensures v.nextId <= w.nextId <= v.nextId + 1 && |w.documents| <= |v.documents| + 1
    ensures !connected ==> w.documents == v.documents && w.mirror == v.mirror && w.status == v.status
  {
    var log := UploadLog(connected, a, v.nextId);
    if !connected then v.(messages := v.messages + log, nextId := v.nextId + |log|)
    else
      var documents := v.documents + NewRecords(a);
      UploadView(documents, if Succeeded(a.outcome) then Some(documents) else v.mirror,
                 v.messages + log, v.nextId + |log|, FinishedStatus(a))
  }

  /** The state a run of uploads leaves, one upload after the other. */
  function AfterUploads(connected: bool, v: UploadView, attempts: seq<UploadAttempt>): (w: UploadView)
    ensures v.nextId <= w.nextId && |w.documents| <= |v.documents| + |attempts|
    ensures !connected ==> w.documents == v.documents && w.mirror == v.mirror && w.status == v.status
    decreases |attempts|
  {
    if attempts == [] then v
    else AfterUpload(connected, AfterUploads(connected, v, attempts[..|attempts| - 1]), attempts[|attempts| - 1])
  }

  /** Loop helper for UploadFiles: the run up to upload i + 1 is the run up to i followed by upload i. */
  lemma UploadsStep(connected: bool, v: UploadView, attempts: seq<UploadAttempt>, i: nat)
    requires i < |attempts|
    ensures AfterUploads(connected, v, attempts[..i + 1])
         == AfterUpload(connected, AfterUploads(connected, v, attempts[..i]), attempts[i])
  {
    assert attempts[..i + 1][..i] == attempts[..i];
  }

  /**
   * What a run of uploads does: when connected, the successful uploads'
   * records are appended in order, the list is saved once one of them
   * succeeded and the status line shows the last upload; the log gains
   * each upload's entries in order, whether connected or not.
   */
  lemma {:induction false} AfterUploadsEffect(connected: bool, v: UploadView, attempts: seq<UploadAttempt>)
    ensures var w := AfterUploads(connected, v, attempts);
            && w.documents == v.documents + (if connected then Uploaded(attempts) else [])
            && w.mirror == (if connected && Uploaded(attempts) != [] then Some(w.documents) else v.mirror)
            && w.messages == v.messages + UploadsLog(connected, attempts, v.nextId)
            && w.nextId == v.nextId + |UploadsLog(connected, attempts, v.nextId)|
            && w.status == (if connected && attempts != [] then FinishedStatus(attempts[|attempts| - 1]) else v.status)
  {
    if connected {
      AfterUploadsRecords(v, attempts);
    }
    AfterUploadsLog(connected, v, attempts);
  }

  /** Connected uploads append the successful records and save the list once one succeeded. */
  lemma {:induction false} AfterUploadsRecords(v: UploadView, attempts: seq<UploadAttempt>)
    ensures var w := AfterUploads(true, v, attempts);
            && w.documents == v.documents + Uploaded(attempts)
            && w.mirror == (if Uploaded(attempts) != [] then Some(w.documents) else v.mirror)
            && w.status == (if attempts != [] then FinishedStatus(attempts[|attempts| - 1]) else v.status)
    decreases |attempts|
  {
    if attempts != [] {
      var init := attempts[..|attempts| - 1];
      AfterUploadsRecords(v, init);
      var added := NewRecords(attempts[|attempts| - 1]);
      assert Uploaded(attempts) == Uploaded(init) + added;
      assert v.documents + Uploaded(init) + added == v.documents + (Uploaded(init) + added);
      if added == [] {
        assert Uploaded(attempts) == Uploaded(init);
      }
    }
  }

  /** Uploads add their log entries in order, numbered on from the current id. */
  lemma {:induction false} AfterUploadsLog(connected: bool, v: UploadView, attempts: seq<UploadAttempt>)
    ensures var w := AfterUploads(connected, v, attempts);
            && w.messages == v.messages + UploadsLog(connected, attempts, v.nextId)
            && w.nextId == v.nextId + |UploadsLog(connected, attempts, v.nextId)|
    decreases |attempts|
  {
    if attempts != [] {
      var init := attempts[..|attempts| - 1];
      AfterUploadsLog(connected, v, init);
      var u := AfterUploads(connected, v, init);
      var before := UploadsLog(connected, init, v.nextId);
      var last := attempts[|attempts| - 1];
      var log := UploadLog(connected, last, u.nextId);
      var w := AfterUpload(connected, u, last);
      assert AfterUploads(connected, v, attempts) == w;
      assert w.messages == u.messages + log && w.nextId == u.nextId + |log|;
      assert UploadsLog(connected, attempts, v.nextId) == before + log;
      assert v.messages + before + log == v.messages + (before + log);
    }
  }

  /** When every upload of a run succeeds, the run appends one record per file, in file order. */
  lemma {:induction false} UploadedAllSucceeded(attempts: seq<UploadAttempt>)
    requires forall k :: 0 <= k < |attempts| ==> Succeeded(attempts[k].outcome)
    ensures |Uploaded(attempts)| == |attempts|
    ensures forall k :: 0 <= k < |attempts| ==>
              Succeeded(attempts[k].outcome) && Uploaded(attempts)[k] ==
              Document(attempts[k].file.name, attempts[k].outcome.body.value.filePath, attempts[k].at)
    decreases |attempts|
  {
    if attempts != [] {
      var init := attempts[..|attempts| - 1];
      UploadedAllSucceeded(init);
    }
  }

  /** Uploads that all fail append nothing. */
  lemma {:induction false} UploadedNoneSucceeded(attempts: seq<UploadAttempt>)
    requires forall k :: 0 <= k < |attempts| ==> !Succeeded(attempts[k].outcome)
    ensures Uploaded(attempts) == []
    decreases |attempts|
  {
    if attempts != [] {
      UploadedNoneSucceeded(attempts[..|attempts| - 1]);
    }
  }

  /** The records' server paths in list order, as the chat request sends them. */
  function ServerPaths(docs: seq<Document>): (paths: seq<string>)
    ensures |paths| == |docs|
    ensures forall k :: 0 <= k < |docs| ==> paths[k] == docs[k].serverPath
  {
    if docs == [] then [] else [docs[0].serverPath] + ServerPaths(docs[1..])
  }

  /** Array.prototype.splice(i, 1) on s: removes the element at i when there is one. */
  function Splice<T>(s: seq<T>, i: nat): (r: seq<T>)
    ensures i < |s| ==> |r| == |s| - 1
    ensures i < |s| ==> (forall k :: 0 <= k < i ==> r[k] == s[k]) && (forall k :: i <= k < |r| ==> r[k] == s[k + 1])
    ensures i >= |s| ==> r == s
  {
    if i < |s| then s[..i] + s[i + 1..] else s
  }

  /** Splice in range takes away exactly one occurrence of the element at i. */
  lemma SpliceRemovesOne<T>(s: seq<T>, i: nat)
    requires i < |s|
    ensures multiset(Splice(s, i)) + multiset{s[i]} == multiset(s)
  {
    assert s == s[..i] + [s[i]] + s[i + 1..];
  }

  /** The paths the next chat call sends follow splices of the list. */
  lemma ServerPathsSplice(docs: seq<Document>, i: nat)
    ensures ServerPaths(Splice(docs, i)) == Splice(ServerPaths(docs), i)
  {
  }

  /**
   * Positional removal with a stale index: once a removal at j has
   * completed, a removal started earlier at i > j takes away the record
   * that followed its target, and its target stays.
   */
  lemma StaleIndexRemovesNeighbour<T>(s: seq<T>, j: nat, i: nat)
    requires j < i && i + 1 < |s|
    ensures Splice(Splice(s, j), i) == s[..j] + s[j + 1..i + 1] + s[i + 2..]
    ensures Splice(Splice(s, j), i)[i - 1] == s[i]
  {
    var once := Splice(s, j);
    assert once[i + 1..] == s[i + 2..];
    assert once[..i] == s[..j] + s[j + 1..i + 1];
  }

  /** The log without its error-styled entries (what the reconnect button clears). */
  function WithoutErrors(s: seq<Message>): (r: seq<Message>)
    ensures |r| <= |s|
    ensures forall m :: m in r <==> m in s && m.origin != Error
    decreases |s|
  {
    if s == [] then []
    else
      var last := s[|s| - 1];
      WithoutErrors(s[..|s| - 1]) + (if last.origin == Error then [] else [last])
  }

  /** Rewrites, in place, the entry with the given id; an entry no longer in the log is left alone. */
  function Rewrite(s: seq<Message>, id: nat, text: string, toError: bool): (r: seq<Message>)
    ensures |r| == |s|
    ensures forall k :: 0 <= k < |s| ==> r[k].id == s[k].id
    ensures forall k :: 0 <= k < |s| && s[k].id != id ==> r[k] == s[k]
    ensures forall k :: 0 <= k < |s| && s[k].id == id ==>
              r[k].text == text && r[k].origin == (if toError then Error else s[k].origin)
  {
    seq(|s|, k requires 0 <= k < |s| =>
      if s[k].id == id then Message(id, text, if toError then Error else s[k].origin) else s[k])
  }

  predicate IdsIncreasing(s: seq<Message>) {
    forall i, j :: 0 <= i < j < |s| ==> s[i].id < s[j].id
  }

  predicate IdsBelow(s: seq<Message>, bound: nat) {
    forall k :: 0 <= k < |s| ==> s[k].id < bound
  }

  /** Clearing error entries keeps the log's numbering well formed. */
  lemma {:induction false} WithoutErrorsKeepsOrder(s: seq<Message>, bound: nat)
    requires IdsIncreasing(s) && IdsBelow(s, bound)
    ensures IdsIncreasing(WithoutErrors(s)) && IdsBelow(WithoutErrors(s), bound)
    decreases |s|
  {
    if s != [] {
      var init := s[..|s| - 1];
      var last := s[|s| - 1];
      WithoutErrorsKeepsOrder(init, last.id);
      var r := WithoutErrors(s);
      var head := WithoutErrors(init);
      forall k | 0 <= k < |head| ensures head[k].id < bound {
        assert head[k] in init;
      }
    }
  }

  /** The text and style a completed removal gives its placeholder. */
  function RemovalText(name: string, o: Outcome<DeleteReply>): (r: string)
    ensures |r| >= |RemovedPrefix| && (r[..|RemovedPrefix|] == RemovedPrefix <==> Succeeded(o))
    ensures Succeeded(o) ==> r[|RemovedPrefix|..] == name
    ensures !Succeeded(o) ==>
              |r| >= |RemovalErrorPrefix| + |name| && r[..|RemovalErrorPrefix|] == RemovalErrorPrefix
              && r[|RemovalErrorPrefix|..|RemovalErrorPrefix| + |name|] == name
              && r[|RemovalErrorPrefix| + |name|..] == ": " + RemovalReason(o)
  {
    if Succeeded(o) then RemovedPrefix + name
    else
      var r := RemovalErrorPrefix + name + ": " + RemovalReason(o);
      assert r[0] == 'E' && RemovedPrefix[0] == 'H';
      assert r[..|RemovalErrorPrefix|] == RemovalErrorPrefix;
      assert r[|RemovalErrorPrefix|..|RemovalErrorPrefix| + |name|] == name;
      assert r[|RemovalErrorPrefix| + |name|..] == ": " + RemovalReason(o);
      r
  }

  /** The session of one page: module-level state and the handlers that change it. */
  class Session {
    var isConnected: bool
    var documents: seq<Document>
    /** The "uploadedDocuments" entry of local storage, if present. */
    var mirror: Option<seq<Document>>
    var messages: seq<Message>
    var nextId: nat
    var uploadStatus: UploadStatus

    /** Local storage holds the list, or nothing while the list is still the initial empty one. */
    ghost predicate Persisted()
      reads this
    {
      mirror == Some(documents) || (mirror == None && documents == [])
    }

    ghost predicate LogWellFormed()
      reads this
    {
      IdsIncreasing(messages) && IdsBelow(messages, nextId)
    }

    ghost predicate Valid()
      reads this
    {
      Persisted() && LogWellFormed()
    }

    /** The fields an upload may change, as one value. */
    ghost function Uploads(): UploadView
      reads this
    {
      UploadView(documents, mirror, messages, nextId, uploadStatus)
    }

    /** Page start: restore the list from local storage when the entry exists. */
    constructor Load(saved: Option<seq<Document>>)
      ensures Valid()
      ensures documents == (if saved.Some? then saved.value else []) && mirror == saved
      ensures !isConnected && messages == [] && nextId == 0 && uploadStatus == UploadStatus("", Plain)
    {
      isConnected := false;
      documents := if saved.Some? then saved.value else [];
      mirror := saved;
      messages := [];
      nextId := 0;
      uploadStatus := UploadStatus("", Plain);
    }

    /** addMessage / showError: append one entry. */
    method Append(text: string, origin: Origin)
      requires LogWellFormed()
      modifies this`messages, this`nextId
      ensures LogWellFormed()
      ensures messages == old(messages) + [Message(old(nextId), text, origin)]
      ensures nextId == old(nextId) + 1
    {
      messages := messages + [Message(nextId, text, origin)];
      nextId := nextId + 1;
    }

    /**
     * checkServerConnection: a successful probe connects and replaces the
     * "verifying" entry by a greeting; any other outcome adds an error and
     * leaves the flag as it was.
     */
    method CheckServerConnection(outcome: Outcome<HealthReply>)
      requires Valid()
      modifies this
      ensures Valid()
      ensures isConnected == (old(isConnected) || Succeeded(outcome))
      ensures messages == old(messages) + ProbeLog(outcome, old(nextId))
      ensures nextId == old(nextId) + 2
      ensures documents == old(documents) && mirror == old(mirror) && uploadStatus == old(uploadStatus)
    {
      Append(VerifyingText, Bot);
      match outcome {
        case NetworkFailure(_) =>
          Append(UnreachableText, Error);
        case Response(status, body) =>
          if IsOk(status) {
            match body {
              case Malformed(_) =>
                Append(UnreachableText, Error);
              case Parsed(_) =>
                isConnected := true;
                if |messages| > 0 {
                  messages := messages[..|messages| - 1];
                }
                Append(ConnectedText, Bot);
            }
          } else {
            Append(ProbeStatusPrefix + NatToString(status), Error);
          }
      }
    }

    /** The reconnect button's first step: remove every error-styled entry. */
    method ClearErrorMessages()
      requires Valid()
      modifies this`messages
      ensures Valid()
      ensures messages == WithoutErrors(old(messages))
    {
      var kept: seq<Message> := [];
      var i := 0;
      while i < |messages|
        invariant 0 <= i <= |messages|
        invariant kept == WithoutErrors(messages[..i])
      {
        assert messages[..i + 1][..i] == messages[..i];
        if messages[i].origin != Error {
          kept := kept + [messages[i]];
        }
        i := i + 1;
      }
      assert messages[..i] == messages;
      WithoutErrorsKeepsOrder(messages, nextId);
      messages := kept;
    }

    /** The reconnect button: clear the errors, then probe again. */
    method Reconnect(outcome: Outcome<HealthReply>)
      requires Valid()
      modifies this
      ensures Valid()
      ensures isConnected == (old(isConnected) || Succeeded(outcome))
      ensures messages == WithoutErrors(old(messages)) + ProbeLog(outcome, old(nextId))
      ensures nextId == old(nextId) + 2
      ensures documents == old(documents) && mirror == old(mirror) && uploadStatus == old(uploadStatus)
    {
      ClearErrorMessages();
      CheckServerConnection(outcome);
    }

    /**
     * sendMessageToServer: without a connection nothing is sent and an error
     * is shown; otherwise the request carries the message and the server
     * paths of the list at call time, a success adds the bot's reply, and a
     * failure adds an error and disconnects.
     */
    method SendMessageToServer(message: string, outcome: Outcome<ChatReply>)
      returns (request: Option<ChatRequest>)
      requires Valid()
      modifies this
      ensures Valid()
      ensures request == (if old(isConnected) then Some(ChatRequest(message, ServerPaths(old(documents)))) else None)
      ensures isConnected == (old(isConnected) && Succeeded(outcome))
      ensures messages == old(messages) + [ChatNote(old(isConnected), outcome, old(nextId))]
      ensures nextId == old(nextId) + 1
      ensures documents == old(documents) && mirror == old(mirror) && uploadStatus == old(uploadStatus)
    {
      if !isConnected {
        Append(NotConnectedText, Error);
        return None;
      }
      request := Some(ChatRequest(message, ServerPaths(documents)));
      if Succeeded(outcome) {
        Append(ReplyText(outcome.body.value), Bot);
      } else {
        Append(ChatErrorPrefix + ThrownReason(outcome), Error);
        isConnected := false;
      }
    }

    /**
     * sendMessage: blank input does nothing; otherwise the trimmed text is
     * echoed as a user entry and that same text is sent.
     */
    method SendMessage(input: string, outcome: Outcome<ChatReply>) returns (request: Option<ChatRequest>)
      requires Valid()
      modifies this
      ensures Valid()
      ensures Trim(input) == "" ==>
                request == None && isConnected == old(isConnected)
                && messages == old(messages) && nextId == old(nextId)
      ensures Trim(input) != "" ==>
                && request == (if old(isConnected) then Some(ChatRequest(Trim(input), ServerPaths(old(documents)))) else None)
                && isConnected == (old(isConnected) && Succeeded(outcome))
                && messages == old(messages) + [Message(old(nextId), Trim(input), User),
                                                ChatNote(old(isConnected), outcome, old(nextId) + 1)]
                && nextId == old(nextId) + 2
      ensures documents == old(documents) && mirror == old(mirror) && uploadStatus == old(uploadStatus)
    {
      var message := Trim(input);
      request := None;
      if message != "" {
        request := SubmitMessage(message, outcome);
      }
    }

    /**
     * sendMessage past the blank check: the text is echoed as a user entry
     * and then handed to sendMessageToServer.
     */
    method SubmitMessage(message: string, outcome: Outcome<ChatReply>) returns (request: Option<ChatRequest>)
      requires Valid()
      modifies this
      ensures Valid()
      ensures request == (if old(isConnected) then Some(ChatRequest(message, ServerPaths(old(documents)))) else None)
      ensures isConnected == (old(isConnected) && Succeeded(outcome))
      ensures messages == old(messages) + [Message(old(nextId), message, User),
                                          ChatNote(old(isConnected), outcome, old(nextId) + 1)]
      ensures nextId == old(nextId) + 2
      ensures documents == old(documents) && mirror == old(mirror) && uploadStatus == old(uploadStatus)
    {
      ghost var before, id := messages, nextId;
      Append(message, User);
      ghost var echo := messages;
      request := SendMessageToServer(message, outcome);
      assert messages == echo + [ChatNote(old(isConnected), outcome, id + 1)];
      assert echo + [ChatNote(old(isConnected), outcome, id + 1)]
          == before + [Message(id, message, User), ChatNote(old(isConnected), outcome, id + 1)];
    }

    /**
     * uploadDocument: without a connection nothing is sent and an error is
     * shown; a successful upload appends one record, saves the list and
     * announces it; a failed one changes only the status line.
     */
    method UploadDocument(file: File, at: int, outcome: Outcome<UploadReply>) returns (requested: bool)
      requires Valid()
      modifies this
      ensures Valid()
      ensures requested == old(isConnected) && isConnected == old(isConnected)
      ensures var a := UploadAttempt(file, at, outcome);
              && documents == old(documents) + (if requested then NewRecords(a) else [])
              && mirror == (if requested && Succeeded(outcome) then Some(documents) else old(mirror))
              && messages == old(messages) + UploadLog(requested, a, old(nextId))
              && nextId == old(nextId) + |UploadLog(requested, a, old(nextId))|
              && uploadStatus == (if requested then FinishedStatus(a) else old(uploadStatus))
      ensures Uploads() == AfterUpload(old(isConnected), old(Uploads()), UploadAttempt(file, at, outcome))
    {
      if !isConnected {
        Append(NotConnectedText, Error);
        return false;
      }
      requested := true;
      uploadStatus := UploadStatus("Subiendo " + file.name + "...", Uploading);
      if Succeeded(outcome) {
        documents := documents + [Document(file.name, outcome.body.value.filePath, at)];
        mirror := Some(documents);
        uploadStatus := UploadStatus(file.name + " subido correctamente", UploadDone);
        Append("He subido el documento: " + file.name, User);
      } else {
        uploadStatus := UploadStatus("Error al subir " + file.name + ": " + ThrownReason(outcome), UploadError);
      }
    }

    /** The file input's change handler: upload every selected file, in order. */
    method UploadFiles(attempts: seq<UploadAttempt>)
      requires Valid()
      modifies this
      ensures Valid()
      ensures isConnected == old(isConnected)
      ensures documents == old(documents) + (if old(isConnected) then Uploaded(attempts) else [])
      ensures mirror == (if old(isConnected) && Uploaded(attempts) != [] then Some(documents) else old(mirror))
      ensures messages == old(messages) + UploadsLog(old(isConnected), attempts, old(nextId))
      ensures nextId == old(nextId) + |UploadsLog(old(isConnected), attempts, old(nextId))|
      ensures uploadStatus ==
                (if old(isConnected) && attempts != [] then FinishedStatus(attempts[|attempts| - 1])
                 else old(uploadStatus))
    {
      ghost var connected, v := isConnected, Uploads();
      var i := 0;
      while i < |attempts|
        invariant 0 <= i <= |attempts|
        invariant Valid() && isConnected == connected
        invariant Uploads() == AfterUploads(connected, v, attempts[..i])
      {
        var a := attempts[i];
        UploadsStep(connected, v, attempts, i);
        var _ := UploadDocument(a.file, a.at, a.outcome);
        i := i + 1;
      }
      assert attempts[..i] == attempts;
      AfterUploadsEffect(connected, v, attempts);
    }

    /**
     * removeDocument up to the request: an index outside the list does
     * nothing; otherwise the targeted record is read and a placeholder entry
     * is shown.
     */
    method BeginRemoval(index: int) returns (pending: Option<PendingRemoval>)
      requires Valid()
      modifies this
      ensures Valid()
      ensures !(0 <= index < |old(documents)|) ==> pending == None && messages == old(messages) && nextId == old(nextId)
      ensures 0 <= index < |old(documents)| ==>
                var doc := old(documents)[index];
                && pending == Some(PendingRemoval(index, doc.name, doc.serverPath, old(nextId)))
                && messages == old(messages) + [Message(old(nextId), "Eliminando documento: " + doc.name + "...", Bot)]
                && nextId == old(nextId) + 1
      ensures isConnected == old(isConnected) && documents == old(documents) && mirror == old(mirror)
      ensures uploadStatus == old(uploadStatus)
    {
      if 0 <= index < |documents| {
        var doc := documents[index];
        pending := Some(PendingRemoval(index, doc.name, doc.serverPath, nextId));
        Append("Eliminando documento: " + doc.name + "...", Bot);
      } else {
        pending := None;
      }
    }

    /**
     * removeDocument after the response: a success splices whatever now sits
     * at the captured index and saves the list; either way the placeholder
     * is rewritten in place, to a confirmation or to an error.
     */
    method CompleteRemoval(p: PendingRemoval, outcome: Outcome<DeleteReply>)
      requires Valid()
      modifies this
      ensures Valid()
      ensures documents == (if Succeeded(outcome) then Splice(old(documents), p.index) else old(documents))
      ensures mirror == (if Succeeded(outcome) then Some(documents) else old(mirror))
      ensures messages == Rewrite(old(messages), p.placeholder, RemovalText(p.name, outcome), !Succeeded(outcome))
      ensures isConnected == old(isConnected) && nextId == old(nextId) && uploadStatus == old(uploadStatus)
    {
      if Succeeded(outcome) {
        documents := Splice(documents, p.index);
        mirror := Some(documents);
        messages := Rewrite(messages, p.placeholder, RemovedPrefix + p.name, false);
      } else {
        messages := Rewrite(messages, p.placeholder,
                            RemovalErrorPrefix + p.name + ": " + RemovalReason(outcome), true);
      }
    }

    /**
     * removeDocument with nothing in between: an index outside the list
     * changes nothing and sends nothing; otherwise the request names the
     * record's server path, a success removes exactly that record, a
     * failure keeps the list, and the placeholder ends as the last entry.
     */
    method RemoveDocument(index: int, outcome: Outcome<DeleteReply>) returns (request: Option<string>)
      requires Valid()
      modifies this
      ensures Valid()
      ensures !(0 <= index < |old(documents)|) ==>
                request == None && documents == old(documents) && mirror == old(mirror)
                && messages == old(messages) && nextId == old(nextId)
      ensures 0 <= index < |old(documents)| ==>
                var doc := old(documents)[index];
                && request == Some(doc.serverPath)
                && documents == (if Succeeded(outcome) then old(documents)[..index] + old(documents)[index + 1..] else old(documents))
                && mirror == (if Succeeded(outcome) then Some(documents) else old(mirror))
                && messages == old(messages) + [Message(old(nextId), RemovalText(doc.name, outcome),
                                                        if Succeeded(outcome) then Bot else Error)]
                && nextId == old(nextId) + 1
      ensures isConnected == old(isConnected) && uploadStatus == old(uploadStatus)
    {
      var pending := BeginRemoval(index);
      if pending.None? {
        return None;
      }
      request := Some(pending.value.serverPath);
      CompleteRemoval(pending.value, outcome);
    }
  }

  /** Reloading the page restores exactly the list the session holds. */
  method Reload(s: Session) returns (t: Session)
    requires s.Valid()
    ensures fresh(t) && t.Valid()
    ensures t.documents == s.documents && t.mirror == s.mirror && !t.isConnected && t.messages == []
  {
    t := new Session.Load(s.mirror);
  }

  /** A successful probe at page start connects and greets. */
  method ScenarioConnect() {
    var s := new Session.Load(None);
    s.CheckServerConnection(Response(200, Parsed(HealthReply)));
    assert s.isConnected && s.messages == [Message(1, ConnectedText, Bot)];
  }

  /** Uploading "a.pdf" records the returned path, saves the list and announces the upload. */
  method ScenarioUpload() {
    var s := new Session.Load(None);
    s.CheckServerConnection(Response(200, Parsed(HealthReply)));
    var answer := Response(200, Parsed(UploadReply("/tmp/a.pdf")));
    var a := UploadAttempt(File("a.pdf"), 0, answer);
    assert Succeeded(answer) && NewRecords(a) == [Document("a.pdf", "/tmp/a.pdf", 0)];
    var sent := s.UploadDocument(File("a.pdf"), 0, answer);
    assert sent && s.documents == [Document("a.pdf", "/tmp/a.pdf", 0)] && s.mirror == Some(s.documents);
    assert s.messages[|s.messages| - 1] == Message(2, "He subido el documento: " + "a.pdf", User);
  }

  /** "hello" with no documents sends an empty path list and shows the reply "hi". */
  method ScenarioChat() {
    var s := new Session.Load(Some([]));
    s.CheckServerConnection(Response(200, Parsed(HealthReply)));
    TrimKeepsTrimmed("hello");
    assert !AllWhitespace("hello") by { assert !IsJsWhitespace("hello"[0]); }
    var chat := s.SendMessage("hello", Response(200, Parsed(ChatReply(Some("hi")))));
    assert chat == Some(ChatRequest("hello", []));
    assert s.messages[|s.messages| - 1] == Message(3, "hi", Bot);
  }

  /** A delete answered with status 500 and detail "locked" keeps the list and shows the detail. */
  method ScenarioDeleteFails() {
    var doc := Document("a.pdf", "/tmp/a.pdf", 0);
    var s := new Session.Load(Some([doc]));
    var answer := Response(500, Parsed(DeleteReply(Some("locked"))));
    assert !Succeeded(answer) && RemovalReason(answer) == "locked";
    var del := s.RemoveDocument(0, answer);
    assert del == Some("/tmp/a.pdf") && s.documents == [doc];
    assert RemovalText("a.pdf", answer) == "Error al eliminar el documento a.pdf: locked";
    assert s.messages == [Message(0, "Error al eliminar el documento a.pdf: locked", Error)];
  }

  /** A chat call that fails in transport disconnects; the next call is refused locally. */
  method ScenarioChatFailure() {
    var s := new Session.Load(None);
    s.CheckServerConnection(Response(200, Parsed(HealthReply)));
    var failure: Outcome<ChatReply> := NetworkFailure("Failed to fetch");
    assert !Succeeded(failure) && ThrownReason(failure) == "Failed to fetch";
    var chat := s.SendMessageToServer("hello", failure);
    assert chat.Some? && !s.isConnected;
    assert s.messages[1] == Message(2, ChatErrorPrefix + "Failed to fetch", Error);
    chat := s.SendMessageToServer("hello", Response(200, Parsed(ChatReply(Some("hi")))));
    assert chat == None && s.messages[2] == Message(3, NotConnectedText, Error);
  }
}
