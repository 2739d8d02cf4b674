/** Scenarios played on a fresh session: what the page does on a first question, with the
    run store down, on a model change, and with repeated URLs and PDFs. */
module Scenarios {
  import opened Wrappers
  import opened Messages
  import opened Streaming
  import opened SessionState
  import opened App

  const FirstModel := "llama3.2:1b"
  const SecondModel := "llama3:8b"

  /** A run of the script with no knowledge base, no storage and no button pressed. */
  function PlainEnv(model: string, createRun: Option<string>, history: seq<Message>,
                    prompt: Option<string>, stream: Stream): Env
  {
    Env(model, createRun, history, prompt, stream,
        false, false, None, false, [], None, [], false, false, None, false)
  }

  /** First visit, empty history, the user asks "hello": the transcript is the greeting, the
      question and the streamed answer. */
  method FirstQuestion(deltas: seq<string>) returns (end: TurnEnd, transcript: seq<Message>, trace: seq<Call>)
    ensures end == Completed
    ensures transcript == [Greeting, Message(UserRole, "hello"), Message(AssistantRole, Concat(deltas))]
    ensures trace == [MakeAssistant(FirstModel, None), CreateRun, ReadChatHistory, RunModel("hello")]
  {
    var s := new Session();
    end := s.Turn(PlainEnv(FirstModel, Some("run-1"), [], Some("hello"), Stream(deltas, None)));
    assert SetupTranscript([], Some("hello")) == [Greeting, Message(UserRole, "hello")];
    transcript := s.state.messages.value;
    trace := s.calls;
  }

  /** The stream raises after some fragments: the answer is the error text alone. */
  method BrokenStream(deltas: seq<string>, e: string) returns (transcript: seq<Message>)
    ensures transcript == [Greeting, Message(UserRole, "hello"), Message(AssistantRole, "Error: " + e)]
  {
    var s := new Session();
    var _ := s.Turn(PlainEnv(FirstModel, Some("run-1"), [], Some("hello"), Stream(deltas, Some(e))));
    assert SetupTranscript([], Some("hello")) == [Greeting, Message(UserRole, "hello")];
    transcript := s.state.messages.value;
  }

  /** The run store is down: `create_run` raises, the warning is shown, and no transcript is set. */
  method StoreDown() returns (end: TurnEnd, trace: seq<Call>, transcript: Option<seq<Message>>)
    ensures end == Aborted
    ensures trace == [MakeAssistant(FirstModel, None), CreateRun, Notify(DatabaseWarning)]
    ensures transcript == None
  {
    var s := new Session();
    end := s.Turn(PlainEnv(FirstModel, None, [], Some("hello"), Stream([], None)));
    trace := s.calls;
    transcript := s.state.messages;
  }

  /** After a completed run of the script, a different model is selected: the handle and
      the run id are dropped and the run of the script ends before anything else. */
  method SwitchModel() returns (end: TurnEnd, assistant: Slot<Handle>, runId: Slot<string>, model: Option<string>)
    ensures end == ModelSwitched
    ensures assistant == Null && runId == Null && model == Some(SecondModel)
  {
    var s := new Session();
    var _ := s.Turn(PlainEnv(FirstModel, Some("run-1"), [], None, Stream([], None)));
    end := s.Turn(PlainEnv(SecondModel, Some("run-2"), [], None, Stream([], None)));
    assistant, runId, model := s.state.assistant, s.state.runId, s.state.model;
  }

  /** A run of the script with a knowledge base, "Add URL" clicked with `url` and `file`
      uploaded; no prompt, no storage. */
  function IngestEnv(url: string, urlDocs: seq<Document>, file: string, pdfDocs: seq<Document>): Env
  {
    Env(FirstModel, Some("run-1"), [], None, Stream([], None),
        true, false, Some(url), true, urlDocs, Some(file), pdfDocs, false, false, None, false)
  }

  /** The calls of the URL branch of an `IngestEnv` run. */
  function UrlRead(url: string, urlDocs: seq<Document>): seq<Call>
  {
    [ReadWebsite(url), LoadOrNotify(urlDocs, WebsiteUnreadable)]
  }

  /** The calls of the PDF branch of an `IngestEnv` run that reads the file. */
  function PdfRead(file: string, pdfDocs: seq<Document>): seq<Call>
  {
    [ReadPdf(file), LoadOrNotify(pdfDocs, PdfUnreadable)]
  }

  /** A run of the script with an `IngestEnv` on a dictionary whose model is unset or the
      first one completes; it reads the URL, and reads the PDF unless its stem is flagged. */
  lemma IngestRunCalls(s: State, url: string, urlDocs: seq<Document>, file: string, pdfDocs: seq<Document>)
    requires WellTyped(s) && (s.model.None? || s.model == Some(FirstModel))
    requires PdfKey(file) != UrlFlagKey(url)
    ensures var r := ScriptRun(s, IngestEnv(url, urlDocs, file, pdfDocs));
      && r.end == Completed
      && r.calls == PrepareCalls(HoldsAssistant(s), FirstModel) + [ReadChatHistory] + UrlRead(url, urlDocs)
                    + (if PdfKey(file) in s.flags then [] else PdfRead(file, pdfDocs))
  {
    var env := IngestEnv(url, urlDocs, file, pdfDocs);
    assert ConverseCalls(env) == [ReadChatHistory] by {
      assert SetupTranscript([], None) == [Greeting];
    }
    assert !SwitchesRun(env) && SidebarCalls(env, false) == [];
    assert UrlFlags(env) == {UrlFlagKey(url)} && UrlCalls(env) == UrlRead(url, urlDocs);
    assert ReadsPdf(s.flags + UrlFlags(env), env) <==> PdfKey(file) !in s.flags;
    var pdf := if PdfKey(file) in s.flags then [] else PdfRead(file, pdfDocs);
    assert IngestCalls(s.flags, env) == UrlRead(url, urlDocs) + pdf;
  }

  /** After such a run the first model is stored, an assistant is held and the upload's
      stem is flagged. */
  lemma IngestRunState(s: State, url: string, urlDocs: seq<Document>, file: string, pdfDocs: seq<Document>)
    requires WellTyped(s) && (s.model.None? || s.model == Some(FirstModel))
    ensures var r := ScriptRun(s, IngestEnv(url, urlDocs, file, pdfDocs));
      r.state.model == Some(FirstModel) && HoldsAssistant(r.state) && PdfKey(file) in r.state.flags
  {
    var env := IngestEnv(url, urlDocs, file, pdfDocs);
    assert !SwitchesRun(env);
    var a := Answering(s, env);
    IngestedFlags(a, env);
    IngestedOnlyLedger(a, env);
  }

  /** The first run of `IngestTwice`: it builds the assistant, reads both sources and flags
      the PDF's stem. */
  method FirstIngest(url: string, urlDocs: seq<Document>, file: string, pdfDocs: seq<Document>) returns (s: Session)
    requires PdfKey(file) != UrlFlagKey(url)
    ensures fresh(s) && s.Valid()
    ensures s.state.model == Some(FirstModel) && HoldsAssistant(s.state) && PdfKey(file) in s.state.flags
    ensures s.calls == [MakeAssistant(FirstModel, None), CreateRun, ReadChatHistory]
                       + UrlRead(url, urlDocs) + PdfRead(file, pdfDocs)
  {
    var env := IngestEnv(url, urlDocs, file, pdfDocs);
    IngestRunCalls(EmptyState, url, urlDocs, file, pdfDocs);
    IngestRunState(EmptyState, url, urlDocs, file, pdfDocs);
    ghost var r := ScriptRun(EmptyState, env);
    var opening := [MakeAssistant(FirstModel, None), CreateRun, ReadChatHistory];
    assert PrepareCalls(HoldsAssistant(EmptyState), FirstModel) + [ReadChatHistory] == opening;
    assert r.calls == opening + UrlRead(url, urlDocs) + PdfRead(file, pdfDocs);
    s := new Session();
    var _ := s.Turn(env);
    assert s.calls == [] + r.calls;
  }

  /** Two runs of the script with the same URL clicked and the same PDF still uploaded: the
      website is read on both, the PDF on the first only. The URL's flag must differ from
      the file's, see `UrlShadowsPdf` for when it does not. */
  method IngestTwice(url: string, urlDocs: seq<Document>, file: string, pdfDocs: seq<Document>) returns (trace: seq<Call>)
    requires PdfKey(file) != UrlFlagKey(url)
    ensures trace == [MakeAssistant(FirstModel, None), CreateRun, ReadChatHistory]
                     + UrlRead(url, urlDocs) + PdfRead(file, pdfDocs)
                     + [CreateRun, ReadChatHistory] + UrlRead(url, urlDocs)
  {
    var s := FirstIngest(url, urlDocs, file, pdfDocs);
    IngestRunCalls(s.state, url, urlDocs, file, pdfDocs);
    var _ := s.Turn(IngestEnv(url, urlDocs, file, pdfDocs));
    trace := s.calls;
  }

  /** "Add URL" clicked twice with the same URL: the website is read both times. */
  method UrlClickedTwice(url: string, docs: seq<Document>) returns (trace: seq<Call>)
    ensures trace == [ReadWebsite(url), LoadOrNotify(docs, WebsiteUnreadable),
                      ReadWebsite(url), LoadOrNotify(docs, WebsiteUnreadable)]
  {
    var s := new Session();
    s.AddUrl(Some(url), true, docs);
    s.AddUrl(Some(url), true, docs);
    trace := s.calls;
  }

  /** The same two clicks with the guard on the key that is set: the website is read once. */
  method UrlClickedTwiceOnce(url: string, docs: seq<Document>) returns (trace: seq<Call>)
    ensures trace == [ReadWebsite(url), LoadOrNotify(docs, WebsiteUnreadable)]
  {
    var s := new Session();
    s.AddUrlOnce(Some(url), true, docs);
    FlagPresence(s.state, UrlFlagKey(url));
    s.AddUrlOnce(Some(url), true, docs);
    trace := s.calls;
  }

  /** The same PDF uploaded twice: read once; when the first read gave nothing, the second
      upload is not read either. */
  method PdfUploadedTwice(name: string, first: seq<Document>, second: seq<Document>) returns (trace: seq<Call>)
    ensures trace == [ReadPdf(name), LoadOrNotify(first, PdfUnreadable)]
  {
    var s := new Session();
    s.AddPdf(Some(name), first);
    FlagPresence(s.state, PdfKey(name));
    s.AddPdf(Some(name), second);
    trace := s.calls;
  }

  /** Clearing the knowledge base keeps the flags: a PDF uploaded again afterwards is not read. */
  method PdfAfterClear(name: string, docs: seq<Document>) returns (trace: seq<Call>)
    ensures trace == [ReadPdf(name), LoadOrNotify(docs, PdfUnreadable), DeleteVectorDb, Notify(KnowledgeBaseCleared)]
  {
    var s := new Session();
    s.AddPdf(Some(name), docs);
    s.ClearKnowledgeBase(true);
    FlagPresence(s.state, PdfKey(name));
    s.AddPdf(Some(name), docs);
    trace := s.calls;
  }

  /** Two different files with the same stem: the second one is never read. */
  method SameStem(first: seq<Document>, second: seq<Document>) returns (trace: seq<Call>)
    ensures trace == [ReadPdf("notes.v1.pdf"), LoadOrNotify(first, PdfUnreadable)]
  {
    StemUnique("notes.v1.pdf", "notes");
    StemUnique("notes.v2.pdf", "notes");
    var s := new Session();
    s.AddPdf(Some("notes.v1.pdf"), first);
    FlagPresence(s.state, PdfKey("notes.v2.pdf"));
    s.AddPdf(Some("notes.v2.pdf"), second);
    trace := s.calls;
  }

  /** URL flags and PDF flags share one namespace: after the URL "notes" was added, the file
      "notes.pdf" is never read. */
  method UrlShadowsPdf(urlDocs: seq<Document>, pdfDocs: seq<Document>) returns (trace: seq<Call>)
    ensures trace == [ReadWebsite("notes"), LoadOrNotify(urlDocs, WebsiteUnreadable)]
  {
    StemUnique("notes.pdf", "notes");
    var s := new Session();
    s.AddUrl(Some("notes"), true, urlDocs);
    FlagPresence(s.state, PdfKey("notes.pdf"));
    s.AddPdf(Some("notes.pdf"), pdfDocs);
    trace := s.calls;
  }
}
