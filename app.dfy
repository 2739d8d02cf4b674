/** One run of the page script against one connection's session: model selection, assistant
    and run setup, the transcript, the streamed answer, the ingestion ledger, clearing the
    knowledge base, switching runs and starting a new run. */
module App {
  import opened Wrappers
  import opened Messages
  import opened Streaming
  import opened SessionState

  /** A document produced by a reader; the page passes it on to the knowledge base unchanged. */
  type Document = string

  /** The alerts the page raises. */
  datatype Notice = DatabaseWarning | WebsiteUnreadable | PdfUnreadable | KnowledgeBaseCleared

  /** A call from the page into code outside it, in the order the page makes them. */
  datatype Call =
    | MakeAssistant(model: string, runId: Option<string>)
    | CreateRun
    | ReadChatHistory
    | RunModel(question: string)
    | ReadWebsite(url: string)
    | ReadPdf(fileName: string)
    | LoadDocuments(docs: seq<Document>)
    | DeleteVectorDb
    | ListRunIds
    | Notify(notice: Notice)

  /** After a reader returned `docs`: load them when there are any, raise the alert otherwise. */
  function LoadOrNotify(docs: seq<Document>, unreadable: Notice): Call
  {
    if |docs| > 0 then LoadDocuments(docs) else Notify(unreadable)
  }

  /** Everything a run of the script receives from the widgets and from the code it calls. */
  datatype Env = Env(
    model: string,                // the model select box
    createRun: Option<string>,    // the run id `create_run` returns; None when it raises
    chatHistory: seq<Message>,    // the assistant memory's chat history
    prompt: Option<string>,       // the chat input
    stream: Stream,               // what `run(question)` yields
    hasKnowledgeBase: bool,       // the assistant has a knowledge base
    hasVectorDb: bool,            // ... and that knowledge base has a vector store
    urlInput: Option<string>,     // the URL text input; an empty field is Some(""), which is
                                  // read and flagged like any URL, and None is never produced
    addUrlClicked: bool,          // the "Add URL" button
    websiteDocs: seq<Document>,   // what the website reader returns
    uploadedFile: Option<string>, // the name of the uploaded PDF
    pdfDocs: seq<Document>,       // what the PDF reader returns
    clearClicked: bool,           // the "Clear Knowledge Base" button
    hasStorage: bool,             // the assistant has run storage
    selectedRunId: Option<string>, // the run id select box over the stored run ids
    newRunClicked: bool)          // the "New Run" button

  /** Why the run of the script ended; all but Completed and Aborted are `st.rerun()`. */
  datatype TurnEnd = ModelSwitched | Aborted | RunSwitched | NewRun | Completed

  /** The assistant held after the assistant set-up step of `main`: the stored one, or one
      built for the model. */
  function SetUpAssistant(s: State, model: string): Slot<Handle>
  {
    if HoldsAssistant(s) then s.assistant else Set(Handle(model, None))
  }

  /** The calls of the assistant set-up and run creation steps: the assistant is built
      unless one is held, then the run is created. */
  function PrepareCalls(held: bool, model: string): seq<Call>
  {
    (if held then [] else [MakeAssistant(model, None)]) + [CreateRun]
  }

  /** The calls of the transcript and answer steps: the chat history is read, and the model
      is asked when the transcript ends with the user. */
  function ConverseCalls(env: Env): seq<Call>
  {
    var t := SetupTranscript(env.chatHistory, env.prompt);
    [ReadChatHistory] + if Last(t).role == UserRole then [RunModel(Last(t).content)] else []
  }

  /** The URL branch goes ahead on a click with a URL, whatever the flags hold. */
  predicate ReadsUrl(env: Env)
  {
    env.hasKnowledgeBase && env.addUrlClicked && env.urlInput.Some?
  }

  /** The flag the URL branch sets. */
  function UrlFlags(env: Env): set<string>
  {
    if ReadsUrl(env) then {UrlFlagKey(env.urlInput.value)} else {}
  }

  /** The calls of the URL branch. */
  function UrlCalls(env: Env): seq<Call>
  {
    if ReadsUrl(env) then [ReadWebsite(env.urlInput.value), LoadOrNotify(env.websiteDocs, WebsiteUnreadable)] else []
  }

  /** The PDF branch reads the upload when its stem key is not among the flags it sees. */
  predicate ReadsPdf(flags: set<string>, env: Env)
  {
    env.hasKnowledgeBase && env.uploadedFile.Some? && PdfKey(env.uploadedFile.value) !in flags
  }

  /** The flag the PDF branch sets. */
  function PdfFlags(flags: set<string>, env: Env): set<string>
  {
    if ReadsPdf(flags, env) then {PdfKey(env.uploadedFile.value)} else {}
  }

  /** The calls of the PDF branch. */
  function PdfCalls(flags: set<string>, env: Env): seq<Call>
  {
    if ReadsPdf(flags, env) then [ReadPdf(env.uploadedFile.value), LoadOrNotify(env.pdfDocs, PdfUnreadable)] else []
  }

  /** The calls of the ingestion step, given the flags before them: the PDF branch sees the URL
      branch's flag. */
  function IngestCalls(flags: set<string>, env: Env): seq<Call>
  {
    UrlCalls(env) + PdfCalls(flags + UrlFlags(env), env)
  }

  /** A widget-generation counter after `if key not in st.session_state: ... = start`. */
  function Created(counter: Option<int>, start: int): Option<int>
  {
    if counter.Some? then counter else Some(start)
  }

  /** The flags a run of the script may add: the URL branch's and the PDF branch's. */
  predicate MayFlag(env: Env, k: string)
  {
    || (ReadsUrl(env) && k == UrlFlagKey(env.urlInput.value))
    || (env.hasKnowledgeBase && env.uploadedFile.Some? && k == PdfKey(env.uploadedFile.value))
  }

  /** The dictionary after the ingestion step: with a knowledge base, both counters are created
      when missing, the URL flag is set after a click with a URL and the PDF flag after a read
      of the upload. */
  function Ingested(s: State, env: Env): State
  {
    if !env.hasKnowledgeBase then s
    else
      var flags := s.flags + UrlFlags(env);
      s.(urlCounter := Created(s.urlCounter, UrlCounterStart),
         fileCounter := Created(s.fileCounter, FileCounterStart),
         flags := flags + PdfFlags(flags, env))
  }

  /** Ingestion keeps the invariant and only grows the ledger. */
  lemma IngestedKeepsInvariant(s: State, env: Env)
    requires WellTyped(s)
    ensures WellTyped(Ingested(s, env)) && LedgerGrows(s, Ingested(s, env))
  {
    if env.hasKnowledgeBase {
      var flags := s.flags + UrlFlags(env);
      if ReadsUrl(env) {
        FlagKeys(env.urlInput.value);
      }
      assert forall k :: k in flags ==> IsFlagKey(k);
      if env.uploadedFile.Some? {
        FlagKeys(env.uploadedFile.value);
      }
      var all := flags + PdfFlags(flags, env);
      assert forall k :: k in all ==> IsFlagKey(k);
      assert Ingested(s, env) == s.(urlCounter := Created(s.urlCounter, UrlCounterStart),
                                    fileCounter := Created(s.fileCounter, FileCounterStart),
                                    flags := all);
    }
  }

  /** Ingestion touches only the ledger, and nothing at all without a knowledge base; with
      one, both counters exist afterwards. */
  lemma IngestedOnlyLedger(s: State, env: Env)
    ensures var r := Ingested(s, env);
      && r.model == s.model && r.assistant == s.assistant && r.runId == s.runId && r.messages == s.messages
      && (env.hasKnowledgeBase ==> r.urlCounter.Some? && r.fileCounter.Some?)
      && (!env.hasKnowledgeBase ==> r == s)
  {
  }

  /** After ingestion the clicked URL's flag and the upload's stem flag are set, the latter
      whether or not the upload was read this time, and every new flag is one of the two. */
  lemma IngestedFlags(s: State, env: Env)
    ensures var r := Ingested(s, env);
      && (ReadsUrl(env) ==> UrlFlagKey(env.urlInput.value) in r.flags)
      && (env.hasKnowledgeBase && env.uploadedFile.Some? ==> PdfKey(env.uploadedFile.value) in r.flags)
      && (forall k :: k in r.flags && k !in s.flags ==> MayFlag(env, k))
  {
  }

  /** Ingesting the same inputs a second time reads the URL again but not the PDF. */
  lemma ReingestReadsOnlyUrl(s: State, env: Env)
    ensures IngestCalls(Ingested(s, env).flags, env) == UrlCalls(env)
  {
    if env.hasKnowledgeBase && env.uploadedFile.Some? {
      var r := Ingested(s, env);
      assert PdfKey(env.uploadedFile.value) in r.flags;
    }
  }

  /** The calls of the sidebar step: clearing, listing the stored runs, building the assistant of
      another run. */
  function SidebarCalls(env: Env, switched: bool): seq<Call>
  {
    (if env.hasKnowledgeBase && env.hasVectorDb && env.clearClicked
     then [DeleteVectorDb, Notify(KnowledgeBaseCleared)] else [])
    + (if env.hasStorage then [ListRunIds] else [])
    + (if switched then [MakeAssistant(env.model, env.selectedRunId)] else [])
  }

  /** Calls appended one group at a time form the trace that appends all the groups. */
  lemma AppendInOrder(before: seq<Call>, a: seq<Call>, b: seq<Call>, c: seq<Call>, d: seq<Call>)
    ensures before + a + b + c + d == before + (a + b + c + d)
  {
  }

  /** How one run of the script ended, the dictionary it left and the calls it made. */
  datatype Outcome = Outcome(end: TurnEnd, state: State, calls: seq<Call>)

  /** The dictionary after the model, assistant, run and transcript steps, when the model is
      kept and `create_run` succeeds. */
  function Answering(s: State, env: Env): State
    requires env.createRun.Some?
  {
    s.(model := Some(env.model),
       assistant := SetUpAssistant(s, env.model),
       runId := Set(env.createRun.value),
       messages := Some(Answered(SetupTranscript(env.chatHistory, env.prompt), env.stream)))
  }

  /** The run id select box moves to another run. */
  predicate SwitchesRun(env: Env)
    requires env.createRun.Some?
  {
    env.hasStorage && Set(env.createRun.value) != RunIdValue(env.selectedRunId)
  }

  /** One run of `main` on the dictionary `s`. */
  function ScriptRun(s: State, env: Env): Outcome
    requires WellTyped(s) && env.model in Models
  {
    if s.model.Some? && s.model != Some(env.model) then
      Outcome(ModelSwitched, Restarted(s.(model := Some(env.model))), [])
    else
      var prepared := PrepareCalls(HoldsAssistant(s), env.model);
      if env.createRun.None? then
        Outcome(Aborted, s.(model := Some(env.model), assistant := SetUpAssistant(s, env.model)),
                prepared + [Notify(DatabaseWarning)])
      else
        var ingested := Ingested(Answering(s, env), env);
        var calls := prepared + ConverseCalls(env) + IngestCalls(s.flags, env) + SidebarCalls(env, SwitchesRun(env));
        if SwitchesRun(env) then
          Outcome(RunSwitched, ingested.(assistant := Set(Handle(env.model, env.selectedRunId))), calls)
        else if env.newRunClicked then
          IngestedKeepsInvariant(Answering(s, env), env);
          Outcome(NewRun, Restarted(ingested), calls)
        else
          Outcome(Completed, ingested, calls)
  }

  /** A run of the script keeps the invariant. */
  lemma ScriptRunKeepsInvariant(s: State, env: Env)
    requires WellTyped(s) && env.model in Models
    ensures WellTyped(ScriptRun(s, env).state)
  {
    if !(s.model.Some? && s.model != Some(env.model)) && env.createRun.Some? {
      var a := Answering(s, env);
      assert WellTyped(a);
      IngestedKeepsInvariant(a, env);
      IngestedOnlyLedger(a, env);
      var i := Ingested(a, env);
      if SwitchesRun(env) {
        assert ScriptRun(s, env).state == i.(assistant := Set(Handle(env.model, env.selectedRunId)));
      }
    }
  }

  /** A run of the script never removes a flag nor lowers a counter, and leaves the selected
      model stored. */
  lemma ScriptRunGrowsLedger(s: State, env: Env)
    requires WellTyped(s) && env.model in Models
    ensures LedgerGrows(s, ScriptRun(s, env).state) && ScriptRun(s, env).state.model == Some(env.model)
  {
    var r := ScriptRun(s, env);
    if !(s.model.Some? && s.model != Some(env.model)) && env.createRun.Some? {
      var a := Answering(s, env);
      assert LedgerGrows(s, a);
      IngestedKeepsInvariant(a, env);
      IngestedOnlyLedger(a, env);
      var i := Ingested(a, env);
      assert LedgerGrows(s, i);
      if SwitchesRun(env) {
        assert r.state == i.(assistant := Set(Handle(env.model, env.selectedRunId)));
      } else if env.newRunClicked {
        assert r.state == Restarted(i);
      } else {
        assert r.state == i;
      }
    }
  }

  /** The only flags a run of the script adds are the clicked URL's and the upload's. */
  lemma ScriptRunFlags(s: State, env: Env)
    requires WellTyped(s) && env.model in Models
    ensures var r := ScriptRun(s, env);
      forall k :: k in r.state.flags && k !in s.flags ==> MayFlag(env, k)
  {
    if !(s.model.Some? && s.model != Some(env.model)) && env.createRun.Some? {
      var a := Answering(s, env);
      IngestedFlags(a, env);
      IngestedKeepsInvariant(a, env);
      assert ScriptRun(s, env).state.flags == Ingested(a, env).flags;
    }
  }

  /** The run ends at the model switch exactly when a stored model differs from the selected
      one; nothing is called then and the dictionary is restarted. Otherwise it ends early
      exactly when `create_run` raises, with the run id, the transcript and the ledger as
      they were. */
  lemma ScriptRunEarlyEnds(s: State, env: Env)
    requires WellTyped(s) && env.model in Models
    ensures var r := ScriptRun(s, env);
      && (r.end == ModelSwitched <==> s.model.Some? && s.model != Some(env.model))
      && (r.end == ModelSwitched ==> r.calls == [] && r.state.assistant == Null && r.state.runId == Null)
      && (r.end != ModelSwitched ==> (r.end == Aborted <==> env.createRun.None?))
      && (r.end == Aborted ==>
            && r.state.runId == s.runId && r.state.messages == s.messages && r.state.flags == s.flags
            && r.state.urlCounter == s.urlCounter && r.state.fileCounter == s.fileCounter
            && r.calls[|r.calls| - 1] == Notify(DatabaseWarning))
  {
  }

  /** When the run gets past `create_run`, the transcript holds the set-up transcript with
      the streamed answer appended when it ended with the user, the model is asked exactly
      then, and the run id is the new run's unless another run is selected or a new run is
      started. */
  lemma ScriptRunConverses(s: State, env: Env)
    requires WellTyped(s) && env.model in Models
    ensures var r := ScriptRun(s, env);
      r.end != ModelSwitched && r.end != Aborted ==>
        && r.state.messages == Some(Answered(SetupTranscript(env.chatHistory, env.prompt), env.stream))
        && r.calls[..|PrepareCalls(HoldsAssistant(s), env.model)| + |ConverseCalls(env)|]
           == PrepareCalls(HoldsAssistant(s), env.model) + ConverseCalls(env)
        && (r.end == RunSwitched || r.end == Completed ==> r.state.runId == Set(env.createRun.value))
  {
    var r := ScriptRun(s, env);
    if r.end != ModelSwitched && r.end != Aborted {
      var head := PrepareCalls(HoldsAssistant(s), env.model) + ConverseCalls(env);
      assert r.calls == head + (IngestCalls(s.flags, env) + SidebarCalls(env, SwitchesRun(env)));
      IngestedOnlyLedger(Answering(s, env), env);
    }
  }

  /** After the transcript, the run ends on a switch of run exactly when storage exists and
      the selected run id differs from the new one, with the assistant built for it; else on
      "New Run" exactly when it was clicked, with the assistant and run id None; else it
      completes, with the assistant set up at the start still held. */
  lemma ScriptRunSidebarEnds(s: State, env: Env)
    requires WellTyped(s) && env.model in Models
    ensures var r := ScriptRun(s, env);
      r.end != ModelSwitched && r.end != Aborted ==>
        && (r.end == RunSwitched <==> SwitchesRun(env))
        && (r.end == NewRun <==> !SwitchesRun(env) && env.newRunClicked)
        && (r.end == RunSwitched ==> r.state.assistant == Set(Handle(env.model, env.selectedRunId)))
        && (r.end == NewRun ==> r.state.assistant == Null && r.state.runId == Null)
        && (r.end == Completed ==> r.state.assistant == SetUpAssistant(s, env.model))
  {
    if !(s.model.Some? && s.model != Some(env.model)) && env.createRun.Some? {
      IngestedOnlyLedger(Answering(s, env), env);
    }
  }

  /** One client connection: its session dictionary and the calls the page made for it. */
  class Session {
    var state: State
    var calls: seq<Call>

    ghost predicate Valid()
      reads this
    {
      WellTyped(state)
    }

    constructor ()
      ensures Valid() && state == EmptyState && calls == []
    {
      state := EmptyState;
      calls := [];
    }

    /** `restart_assistant`, up to the rerun that follows it. */
    method RestartAssistant()
      requires Valid()
      modifies this
      ensures Valid()
      ensures state == Restarted(old(state)) && calls == old(calls)
    {
      state := state.(assistant := Null);
      state := state.(runId := Null);
      if state.urlCounter.Some? {
        state := state.(urlCounter := Some(state.urlCounter.value + 1));
      }
      if state.fileCounter.Some? {
        state := state.(fileCounter := Some(state.fileCounter.value + 1));
      }
    }

    /** The first selection is stored; a different one is stored and restarts the assistant,
        which ends the run of the script; the same one changes nothing. */
    method SelectModel(model: string) returns (switched: bool)
      requires Valid() && model in Models
      modifies this
      ensures Valid() && LedgerGrows(old(state), state) && calls == old(calls)
      ensures old(state).model.None? ==> !switched && state == old(state).(model := Some(model))
      ensures old(state).model == Some(model) ==> !switched && state == old(state)
      ensures old(state).model.Some? && old(state).model != Some(model) ==>
                switched && state == Restarted(old(state).(model := Some(model)))
    {
      switched := false;
      if !Has(state, ModelKey) {
        state := state.(model := Some(model));
      } else if state.model.value != model {
        state := state.(model := Some(model));
        RestartAssistant();
        switched := true;
      }
    }

    /** Reuse the stored assistant, or build one for the model and store it. */
    method SetupAssistant(model: string) returns (h: Handle)
      requires Valid()
      modifies this
      ensures Valid() && LedgerGrows(old(state), state)
      ensures state.assistant == Set(h)
      ensures HoldsAssistant(old(state)) ==>
                h == old(state).assistant.value && state == old(state) && calls == old(calls)
      ensures !HoldsAssistant(old(state)) ==>
                h == Handle(model, None) && state == old(state).(assistant := Set(h)) &&
                calls == old(calls) + [MakeAssistant(model, None)]
    {
      if !Has(state, AssistantKey) || state.assistant.Null? {
        h := Handle(model, None);
        calls := calls + [MakeAssistant(model, None)];
        state := state.(assistant := Set(h));
      } else {
        h := state.assistant.value;
      }
    }

    /** `create_run`: its run id is stored; when it raises, the warning is shown, nothing is
        stored and the run of the script ends. */
    method StartRun(outcome: Option<string>) returns (ok: bool)
      requires Valid()
      modifies this
      ensures Valid() && LedgerGrows(old(state), state)
      ensures ok == outcome.Some?
      ensures ok ==> state == old(state).(runId := Set(outcome.value)) && calls == old(calls) + [CreateRun]
      ensures !ok ==> state == old(state) && calls == old(calls) + [CreateRun, Notify(DatabaseWarning)]
    {
      calls := calls + [CreateRun];
      if outcome.Some? {
        state := state.(runId := Set(outcome.value));
        ok := true;
      } else {
        calls := calls + [Notify(DatabaseWarning)];
        ok := false;
      }
    }

    /** The chat history is read; the transcript becomes that history, or the greeting alone
        when it is empty. */
    method LoadTranscript(history: seq<Message>)
      requires Valid()
      modifies this
      ensures Valid() && LedgerGrows(old(state), state) && calls == old(calls) + [ReadChatHistory]
      ensures state == old(state).(messages := Some(if |history| > 0 then history else [Greeting]))
    {
      calls := calls + [ReadChatHistory];
      if |history| > 0 {
        state := state.(messages := Some(history));
      } else {
        state := state.(messages := Some([Greeting]));
      }
    }

    /** A submitted prompt is appended to the transcript as a user message. */
    method SubmitPrompt(prompt: Option<string>)
      requires Valid() && state.messages.Some?
      modifies this
      ensures Valid() && LedgerGrows(old(state), state) && calls == old(calls)
      ensures Submitted(prompt) ==>
                state == old(state).(messages := Some(old(state).messages.value + [Message(UserRole, prompt.value)]))
      ensures !Submitted(prompt) ==> state == old(state)
    {
      if Submitted(prompt) {
        state := state.(messages := Some(state.messages.value + [Message(UserRole, prompt.value)]));
      }
    }

    /** When the last message is the user's, ask the model and append its streamed answer. */
    method AnswerLastUser(stream: Stream) returns (answered: bool)
      requires Valid() && state.messages.Some?
      modifies this
      ensures Valid() && LedgerGrows(old(state), state)
      ensures var t := old(state).messages.value;
              && answered == (Last(t).role == UserRole)
              && state == old(state).(messages := Some(Answered(t, stream)))
              && calls == old(calls) + (if answered then [RunModel(Last(t).content)] else [])
    {
      var t := state.messages.value;
      var last := t[|t| - 1];
      answered := last.role == UserRole;
      if answered {
        calls := calls + [RunModel(last.content)];
        var response := Respond(stream);
        state := state.(messages := Some(t + [Message(AssistantRole, response)]));
      }
    }

    /** The URL widget's generation counter is created at 0 when it is missing. */
    method InitUrlCounter()
      requires Valid()
      modifies this
      ensures Valid() && LedgerGrows(old(state), state) && calls == old(calls)
      ensures old(state).urlCounter.Some? ==> state == old(state)
      ensures old(state).urlCounter.None? ==> state == old(state).(urlCounter := Some(UrlCounterStart))
    {
      if !Has(state, UrlCounterKey) {
        state := state.(urlCounter := Some(UrlCounterStart));
      }
    }

    /** The file widget's generation counter is created at 100 when it is missing. */
    method InitFileCounter()
      requires Valid()
      modifies this
      ensures Valid() && LedgerGrows(old(state), state) && calls == old(calls)
      ensures old(state).fileCounter.Some? ==> state == old(state)
      ensures old(state).fileCounter.None? ==> state == old(state).(fileCounter := Some(FileCounterStart))
    {
      if !Has(state, FileCounterKey) {
        state := state.(fileCounter := Some(FileCounterStart));
      }
    }

    /** The "Add URL" branch as the page has it: the guard tests "<url>_scraped", which is
        never set, so a click with a URL always reads the website, then sets "<url>_uploaded"
        whether or not anything was read. */
    method AddUrl(url: Option<string>, clicked: bool, docs: seq<Document>)
      requires Valid()
      modifies this
      ensures Valid() && LedgerGrows(old(state), state)
      ensures clicked && url.Some? ==>
                && state == old(state).(flags := old(state).flags + {UrlFlagKey(url.value)})
                && calls == old(calls) + [ReadWebsite(url.value), LoadOrNotify(docs, WebsiteUnreadable)]
      ensures !(clicked && url.Some?) ==> state == old(state) && calls == old(calls)
    {
      if clicked && url.Some? {
        var u := url.value;
        ScrapedKeyNeverPresent(state, u);
        if !Has(state, UrlCheckKey(u)) {
          calls := calls + [ReadWebsite(u)];
          if |docs| > 0 {
            calls := calls + [LoadDocuments(docs)];
          } else {
            calls := calls + [Notify(WebsiteUnreadable)];
          }
          state := state.(flags := state.flags + {UrlFlagKey(u)});
        }
      }
    }

    /** The "Add URL" branch with its guard testing the key it sets: a URL already flagged
        is not read again. */
    method AddUrlOnce(url: Option<string>, clicked: bool, docs: seq<Document>)
      requires Valid()
      modifies this
      ensures Valid() && LedgerGrows(old(state), state)
      ensures clicked && url.Some? && !Has(old(state), UrlFlagKey(url.value)) ==>
                && state == old(state).(flags := old(state).flags + {UrlFlagKey(url.value)})
                && calls == old(calls) + [ReadWebsite(url.value), LoadOrNotify(docs, WebsiteUnreadable)]
      ensures !(clicked && url.Some? && !Has(old(state), UrlFlagKey(url.value))) ==>
                state == old(state) && calls == old(calls)
    {
      if clicked && url.Some? {
        var u := url.value;
        if !Has(state, UrlFlagKey(u)) {
          calls := calls + [ReadWebsite(u)];
          if |docs| > 0 {
            calls := calls + [LoadDocuments(docs)];
          } else {
            calls := calls + [Notify(WebsiteUnreadable)];
          }
          state := state.(flags := state.flags + {UrlFlagKey(u)});
        }
      }
    }

    /** The PDF branch: a file whose stem is already flagged is neither read nor loaded;
        otherwise it is read, loaded when the read gave documents, and its stem flagged
        either way. */
    method AddPdf(file: Option<string>, docs: seq<Document>)
      requires Valid()
      modifies this
      ensures Valid() && LedgerGrows(old(state), state)
      ensures file.Some? && !Has(old(state), PdfKey(file.value)) ==>
                && state == old(state).(flags := old(state).flags + {PdfKey(file.value)})
                && calls == old(calls) + [ReadPdf(file.value), LoadOrNotify(docs, PdfUnreadable)]
      ensures !(file.Some? && !Has(old(state), PdfKey(file.value))) ==> state == old(state) && calls == old(calls)
    {
      if file.Some? {
        var key := PdfKey(file.value);
        if !Has(state, key) {
          calls := calls + [ReadPdf(file.value)];
          if |docs| > 0 {
            calls := calls + [LoadDocuments(docs)];
          } else {
            calls := calls + [Notify(PdfUnreadable)];
          }
          state := state.(flags := state.flags + {key});
        }
      }
    }

    /** "Clear Knowledge Base" deletes the vector store and leaves every flag in place. */
    method ClearKnowledgeBase(clicked: bool)
      requires Valid()
      modifies this
      ensures Valid() && state == old(state)
      ensures calls == old(calls) + (if clicked then [DeleteVectorDb, Notify(KnowledgeBaseCleared)] else [])
    {
      if clicked {
        calls := calls + [DeleteVectorDb, Notify(KnowledgeBaseCleared)];
      }
    }

    /** The stored run ids are listed; a selected run id other than the stored one replaces
        the assistant with one built for that run, which ends the run of the script. */
    method SwitchRun(model: string, selected: Option<string>) returns (switched: bool)
      requires Valid() && Has(state, RunIdKey)
      modifies this
      ensures Valid() && LedgerGrows(old(state), state)
      ensures switched == (old(state).runId != RunIdValue(selected))
      ensures switched ==>
                && state == old(state).(assistant := Set(Handle(model, selected)))
                && calls == old(calls) + [ListRunIds, MakeAssistant(model, selected)]
      ensures !switched ==> state == old(state) && calls == old(calls) + [ListRunIds]
    {
      calls := calls + [ListRunIds];
      switched := state.runId != RunIdValue(selected);
      if switched {
        calls := calls + [MakeAssistant(model, selected)];
        state := state.(assistant := Set(Handle(model, selected)));
      }
    }

    /** The first steps of `main`: the model selection, the assistant and the run. The result
        says how the run of the script ended, or None when it goes on. */
    method Prepare(env: Env) returns (end: Option<TurnEnd>)
      requires Valid() && env.model in Models
      modifies this
      ensures Valid() && LedgerGrows(old(state), state)
      ensures end == Some(ModelSwitched) <==> old(state).model.Some? && old(state).model != Some(env.model)
      ensures end == Some(ModelSwitched) ==>
                state == Restarted(old(state).(model := Some(env.model))) && calls == old(calls)
      ensures end != Some(ModelSwitched) ==>
                && (end == Some(Aborted) <==> env.createRun.None?)
                && (end.None? <==> env.createRun.Some?)
                && state == old(state).(model := Some(env.model),
                                        assistant := SetUpAssistant(old(state), env.model),
                                        runId := if env.createRun.Some? then Set(env.createRun.value) else old(state).runId)
                && calls == old(calls) + PrepareCalls(HoldsAssistant(old(state)), env.model)
                                       + (if env.createRun.None? then [Notify(DatabaseWarning)] else [])
    {
      var switched := SelectModel(env.model);
      if switched {
        return Some(ModelSwitched);
      }
      var _ := SetupAssistant(env.model);
      var ok := StartRun(env.createRun);
      if !ok {
        return Some(Aborted);
      }
      return None;
    }

    /** The transcript step of `main`: the transcript is set up, a submitted prompt appended,
        and the streamed answer appended when the last message is the user's. */
    method Converse(env: Env)
      requires Valid()
      modifies this
      ensures Valid() && LedgerGrows(old(state), state)
      ensures state == old(state).(messages := Some(Answered(SetupTranscript(env.chatHistory, env.prompt), env.stream)))
      ensures calls == old(calls) + ConverseCalls(env)
    {
      LoadTranscript(env.chatHistory);
      SubmitPrompt(env.prompt);
      var _ := AnswerLastUser(env.stream);
    }

    /** The URL half of the ingestion step: the URL widget counter is created when missing and the
        "Add URL" branch runs. */
    method IngestUrl(env: Env)
      requires Valid() && env.hasKnowledgeBase
      modifies this
      ensures Valid() && LedgerGrows(old(state), state)
      ensures state == old(state).(urlCounter := Created(old(state).urlCounter, UrlCounterStart),
                                   flags := old(state).flags + UrlFlags(env))
      ensures calls == old(calls) + UrlCalls(env)
    {
      InitUrlCounter();
      AddUrl(env.urlInput, env.addUrlClicked, env.websiteDocs);
    }

    /** The PDF half of the ingestion step: the file widget counter is created when missing and
        the PDF branch runs. */
    method IngestPdf(env: Env)
      requires Valid() && env.hasKnowledgeBase
      modifies this
      ensures Valid() && LedgerGrows(old(state), state)
      ensures state == old(state).(fileCounter := Created(old(state).fileCounter, FileCounterStart),
                                   flags := old(state).flags + PdfFlags(old(state).flags, env))
      ensures calls == old(calls) + PdfCalls(old(state).flags, env)
    {
      InitFileCounter();
      if env.uploadedFile.Some? {
        FlagKeys(env.uploadedFile.value);
        FlagPresence(state, PdfKey(env.uploadedFile.value));
      }
      AddPdf(env.uploadedFile, env.pdfDocs);
    }

    /** The ingestion step of `main`: with a knowledge base, the URL and the PDF branches run. Only
        the ledger changes. */
    method Ingest(env: Env)
      requires Valid()
      modifies this
      ensures Valid() && LedgerGrows(old(state), state)
      ensures state == Ingested(old(state), env)
      ensures calls == old(calls) + IngestCalls(old(state).flags, env)
    {
      if env.hasKnowledgeBase {
        IngestUrl(env);
        IngestPdf(env);
      }
    }

    /** The sidebar step of `main`: clearing the knowledge base, the run id select box and the
        "New Run" button. */
    method Sidebar(env: Env) returns (end: TurnEnd)
      requires Valid() && Has(state, RunIdKey)
      modifies this
      ensures Valid() && LedgerGrows(old(state), state)
      ensures end == RunSwitched || end == NewRun || end == Completed
      ensures end == RunSwitched <==> env.hasStorage && old(state).runId != RunIdValue(env.selectedRunId)
      ensures end == NewRun <==> end != RunSwitched && env.newRunClicked
      ensures end == RunSwitched ==> state == old(state).(assistant := Set(Handle(env.model, env.selectedRunId)))
      ensures end == NewRun ==> state == Restarted(old(state))
      ensures end == Completed ==> state == old(state)
      ensures calls == old(calls) + SidebarCalls(env, end == RunSwitched)
    {
      if env.hasKnowledgeBase && env.hasVectorDb {
        ClearKnowledgeBase(env.clearClicked);
      }
      if env.hasStorage {
        var moved := SwitchRun(env.model, env.selectedRunId);
        if moved {
          return RunSwitched;
        }
      }
      if env.newRunClicked {
        RestartAssistant();
        return NewRun;
      }
      return Completed;
    }

    /** One run of `main`. */
    method Turn(env: Env) returns (end: TurnEnd)
      requires Valid() && env.model in Models
      modifies this
      ensures Valid()
      ensures var r := ScriptRun(old(state), env);
                end == r.end && state == r.state && calls == old(calls) + r.calls
    {
      var stop := Prepare(env);
      if stop.Some? {
        return stop.value;
      }
      ghost var prepared := PrepareCalls(HoldsAssistant(old(state)), env.model);
      assert calls == old(calls) + prepared;
      Converse(env);
      assert state == Answering(old(state), env) && state.flags == old(state).flags;
      Ingest(env);
      end := Sidebar(env);
      assert end == RunSwitched <==> SwitchesRun(env);
      AppendInOrder(old(calls), prepared, ConverseCalls(env), IngestCalls(old(state).flags, env),
                    SidebarCalls(env, SwitchesRun(env)));
    }
  }
}
