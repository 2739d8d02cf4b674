# Local RAG page: session orchestration and ingestion ledger

This project models the Streamlit page `app.py` of a local retrieval-augmented chat
application. Its subject is the part of `main` that works on the per-connection session
dictionary (`st.session_state`). One run of the page script does the following:

- It selects the model. The first selection is stored. A change of model restarts the
  assistant and ends the run.
- It reuses the stored assistant or builds one, then creates a run. When `create_run`
  raises, a warning is shown and the run ends.
- It sets the transcript from the stored chat history, or to a greeting when that history
  is empty, and appends a submitted prompt.
- When the last message is the user's, it streams the model's answer and appends it as one
  assistant message. If the stream raises, the message is `"Error: <e>"`.
- With a knowledge base, it ingests a URL and a PDF, guarded by flags kept in the session
  dictionary.
- It clears the knowledge base, switches to another stored run, or starts a new run.

Modules:

- `Messages` (messages.dfy): messages, the transcript after setup, and what is rendered.
- `Streaming` (streaming.dfy): the stream of fragments and the fold that turns it into one
  answer (`Respond`, a loop proved against `Concat`).
- `SessionState` (session_state.dfy): the session dictionary. It is a record with one field
  per key the page names, plus the set of string-built flag keys. `Has` is the dictionary's
  `in` test over every key. This module also holds the invariant `WellTyped`, the key
  builders (`UrlCheckKey`, `UrlFlagKey`, `PdfKey`, `Stem`) and `Restarted`.
- `App` (app.dfy): the class `Session`. Its field `state` is the dictionary. Its field
  `calls` is the ordered trace of calls the page makes into code it does not own: assistant
  construction, `create_run`, `get_chat_history`, `run`, the readers, `load_documents`,
  `delete`, `get_all_run_ids` and the alerts. The methods change the dictionary key by key,
  as the page does. `Turn` is one run of `main`, proved equal to the pure function
  `ScriptRun`, which gives how the run ends, the new dictionary and the calls made. The
  `ScriptRun...` and `Ingested...` lemmas state what a run promises. Everything that code
  outside the page decides reaches the model through an `Env` value: widget values,
  `create_run`'s result, the chat history, the stream, reader results, and which
  collaborators are configured.
- `Scenarios` (scenarios.dfy): runs on a fresh session that show what a user sees.

## Where the code departs from its evident intent

The model follows the code in every case below.

- The PDF branch tests and sets the same key, `"<stem>_uploaded"` (app.py:134, app.py:145).
  The URL branch tests `"<url>_scraped"` (app.py:111) but sets `"<url>_uploaded"`
  (app.py:121), and nothing in the page ever sets a `_scraped` key. So the URL guard never
  skips, and a URL is read again on every click. See Findings.
- Both branches set the flag after a reader returned nothing (app.py:121, app.py:145). A
  PDF whose read came back empty is therefore not read again in the same session. A URL is
  read again on every click anyway (see above); its flag only blocks a PDF with that stem
  (`UrlShadowsPdf`). A reader or load that raises never reaches the flag; see Left out.
- The first model selection only stores the model (app.py:32-33). Only a later, different
  selection restarts the assistant (app.py:35-37).
- With an empty chat history, the transcript starts with the greeting message
  (app.py:57-59). A first question gives [greeting, user, assistant].
- Selecting another run id stores an assistant built for that run and ends the run of the
  script (app.py:157-160). The transcript is not reloaded at that point; the next run of
  the script reads that assistant's history at app.py:53.
- Ingestion returns no outcome value. The page raises alerts instead; these are modelled as
  `Notify` calls.

## Model

| member | source | states |
|---|---|---|
| Messages.SetupTranscript | app.py:53-62 | the transcript is the stored history when it is non-empty, else exactly the greeting; a submitted non-empty prompt is then the last element, with role user, and nothing else is added |
| Messages.Visible | app.py:64-68 | a message is rendered iff it is in the transcript and its role is not "system"; never more messages than the transcript |
| Messages.VisibleAppend | app.py:64-68 | rendering visits messages in order: rendering a + b is rendering a followed by rendering b |
| Messages.VisibleWithoutSystem | app.py:64-68 | a transcript with no system message is rendered exactly as it is |
| Streaming.Respond | app.py:74-94 | the answer is the in-order concatenation of all fragments ("" for an empty stream), or, when the stream raises, exactly "Error: " + the description, whatever partial text came before |
| Streaming.ConcatAppend | app.py:79-87 | folding fragments by concatenation distributes over splitting the fragment sequence |
| Streaming.ConcatPrefix | app.py:87-89 | every intermediate render is a prefix of the concatenation of all fragments, which is the answer when the stream does not raise |
| Streaming.FragmentInPlace | app.py:79-87 | fragment i appears in the answer right after the fragments before it, so none is dropped or reordered |
| Streaming.Answered | app.py:70-96 | the transcript only grows; exactly one assistant message holding the stream's answer is appended iff the last message has role user |
| SessionState.Stem | app.py:133 | the stem is a prefix of the file name, contains no dot, and stops at the first dot or at the end |
| SessionState.StemUnique | app.py:133 | any prefix with those three properties is the stem, so `Stem` is `split(".")[0]` |
| SessionState.PdfKeyIsStem | app.py:133-134 | two file names share one PDF flag iff their stems are equal |
| SessionState.FixedKeysAreNotFlags | app.py:121 | none of the six named keys ends in "_uploaded" |
| SessionState.FlagPresence | app.py:134-145 | a key ending in "_uploaded" is in the dictionary iff it is among the flags |
| SessionState.ScrapedKeyNeverPresent | app.py:111 | in every well-typed dictionary the URL guard's key "<url>_scraped" is absent, so the guard never skips |
| SessionState.Restarted | app.py:18-24 | assistant and run id become None; each counter that exists goes up by exactly 1 and an absent one stays absent; model, messages and flags unchanged; the invariant holds and the ledger grows |
| SessionState.RestartedKeys | app.py:18-24 | after a restart the dictionary holds exactly the keys it held plus the assistant and run id keys |
| SessionState.FlagKeys | app.py:121-145 | both keys the ingestion branches set, "<url>_uploaded" and "<stem>_uploaded", end in "_uploaded" |
| App.Session.RestartAssistant | app.py:18-25 | the dictionary becomes `Restarted` of the old one, updated key by key; no call is made |
| App.Session.SelectModel | app.py:32-37 | first selection stored without restart; a different one stored and then restarted, ending the run; the same one changes nothing |
| App.Session.SetupAssistant | app.py:39-45 | a held assistant is reused with no call; otherwise one is built for the model, with no run id, and stored |
| App.Session.StartRun | app.py:47-51 | on success the run id is stored; on failure the dictionary is unchanged and the database warning follows the attempt |
| App.Session.LoadTranscript | app.py:53-59 | the chat history is read once; messages become the history, or the greeting alone when the history is empty |
| App.Session.SubmitPrompt | app.py:61-62 | a submitted non-empty prompt is appended as a user message; otherwise nothing changes |
| App.Session.AnswerLastUser | app.py:70-96 | the model is asked with the last message's content iff its role is user, and the transcript becomes `Answered` of it |
| App.Session.InitUrlCounter | app.py:101-102 | the URL widget counter is created at 0 only when missing |
| App.Session.InitFileCounter | app.py:125-126 | the file widget counter is created at 100 only when missing |
| App.Session.AddUrl | app.py:108-122 | a click with a URL reads the website every time, whether or not it was added before; the documents are loaded when the read returned any, else the alert is raised; "<url>_uploaded" is set in both cases; no click or no URL changes nothing |
| App.Session.AddUrlOnce | app.py:108-122 | with the guard on the key that is set: a URL already flagged is neither read nor loaded |
| App.Session.AddPdf | app.py:131-146 | a file whose "<stem>_uploaded" key is present is neither read nor loaded; otherwise it is read, loaded only when documents came back, and flagged either way |
| App.Session.ClearKnowledgeBase | app.py:148-152 | the vector store is deleted and the dictionary, flags included, is unchanged |
| App.Session.SwitchRun | app.py:154-160 | the stored run ids are listed; a selected run id different from the stored one replaces the assistant with one built for that run and ends the run; an equal one changes nothing more |
| App.Session.Prepare | app.py:32-51 | a model switch ends the run with the restarted dictionary and no call; otherwise the model is stored, the assistant is the held one or a new one built for the model, and a successful `create_run` stores its id and goes on while a failing one ends the run with the warning and the run id unchanged; the whole new dictionary and the calls are given |
| App.Session.Converse | app.py:53-96 | messages become the set-up transcript with the streamed answer appended when it ends with the user, and the model is asked exactly then |
| App.Session.IngestUrl | app.py:99-122 | the URL counter is created at 0 when missing, the clicked URL's "<url>_uploaded" flag is added, and the read and load or alert calls are made; nothing else changes |
| App.Session.IngestPdf | app.py:124-146 | the file counter is created at 100 when missing; an upload whose stem flag is absent is read, loaded or alerted, and flagged; a flagged one makes no call; nothing else changes |
| App.Session.Ingest | app.py:99-146 | the dictionary becomes `Ingested` of the old one and the calls are the URL branch's followed by the PDF branch's, the latter seeing the URL's flag; without a knowledge base nothing happens |
| App.IngestedKeepsInvariant | app.py:99-146 | ingestion keeps the invariant and never removes a flag or lowers a counter |
| App.IngestedOnlyLedger | app.py:99-146 | ingestion leaves the model, assistant, run id and transcript unchanged; with a knowledge base both counters exist afterwards; without one nothing changes |
| App.IngestedFlags | app.py:108-146 | after ingestion the clicked URL's flag and the upload's stem flag are set, the latter whether or not it was read this time, and every new flag is one of those two |
| App.ReingestReadsOnlyUrl | app.py:108-146 | ingesting the same inputs again makes exactly the URL branch's calls again and none for the PDF |
| App.Session.Sidebar | app.py:148-163 | the run switches iff storage exists and the selected run id differs, leaving the dictionary with only the new assistant; otherwise "New Run" gives exactly `Restarted` of the dictionary; otherwise the dictionary is unchanged; the calls are clearing, listing runs and building the switched assistant, each exactly when it happens |
| App.Session.Turn | app.py:28-163 | one run of `main` ends as `ScriptRun` says, leaves the dictionary `ScriptRun` gives, and appends exactly its calls; the invariant holds |
| App.ScriptRunKeepsInvariant | app.py:28-163 | every run of the script keeps the invariant |
| App.ScriptRunGrowsLedger | app.py:28-163 | a run of the script never removes a flag nor lowers or drops a counter, and leaves the selected model stored |
| App.ScriptRunFlags | app.py:99-146 | the only flags a run of the script adds are the clicked URL's and the upload's |
| App.ScriptRunEarlyEnds | app.py:32-51 | the run ends at the model switch iff a stored model differs from the selected one, with no call and assistant and run id None; otherwise it ends early iff `create_run` raises, with run id, transcript, flags and counters unchanged and the warning as last call |
| App.ScriptRunConverses | app.py:47-96 | past `create_run`, the transcript is the set-up one with the streamed answer appended when it ended with the user; the calls begin with the setup calls, the history read and the model call exactly then; the run id is the new run's unless a new run was started |
| App.ScriptRunSidebarEnds | app.py:148-163 | past the transcript, the run ends on a run switch iff storage exists and the selected id differs, with the assistant built for it; on "New Run" iff clicked otherwise, with assistant and run id None; else it completes holding the assistant set up at the start |
| Scenarios.FirstQuestion | app.py:40-96 | first visit asking "hello": transcript is greeting, question, streamed answer; calls are build assistant, create run, read history, ask model |
| Scenarios.BrokenStream | app.py:77-96 | a stream that raises leaves exactly "Error: " + e as the answer |
| Scenarios.StoreDown | app.py:40-51 | with the run store down the run ends after the warning and no transcript is set |
| Scenarios.SwitchModel | app.py:32-37 | changing model after a completed run drops the assistant and run id and stores the new model |
| Scenarios.FirstIngest | app.py:28-163 | a first run of the script with a clicked URL and an upload holds an assistant, flags the PDF and makes the setup, history, URL and PDF calls in order |
| Scenarios.IngestRunCalls | app.py:28-163 | a run of the script with a clicked URL and an upload completes and makes the setup, history and URL calls, then the PDF calls only when its stem flag was absent |
| Scenarios.IngestRunState | app.py:99-146 | after that run the model is stored, an assistant is held and the upload's stem flag is set |
| Scenarios.IngestTwice | app.py:108-146 | two runs of the script with the same URL click and upload read the URL in both and the PDF only in the first |
| Scenarios.UrlClickedTwice | app.py:108-122 | the same URL added twice is read twice |
| Scenarios.UrlClickedTwiceOnce | app.py:108-122 | with the corrected guard, the same URL added twice is read once |
| Scenarios.PdfUploadedTwice | app.py:131-146 | the same PDF uploaded twice is read once, even when the first read gave nothing |
| Scenarios.PdfAfterClear | app.py:131-152 | after clearing the knowledge base, re-uploading a PDF does not read it |
| Scenarios.SameStem | app.py:133-134 | "notes.v2.pdf" after "notes.v1.pdf" is never read |
| Scenarios.UrlShadowsPdf | app.py:111-145 | after the URL "notes" was added, "notes.pdf" is never read |

## Findings

| source | as written | input that shows it | evidently intended | confidence | as-written member | corrected member |
|---|---|---|---|---|---|---|
| app.py:111 | the guard tests `"<url>_scraped"`, a key nothing ever sets, while app.py:121 sets `"<url>_uploaded"` | click "Add URL" twice with the same URL: the website is read and its documents loaded twice | test the key that is set, so a URL is read at most once per session | high; not executed | Scenarios.UrlClickedTwice | App.Session.AddUrlOnce |

`Turn` keeps the page's own URL branch (`AddUrl`), because the model describes the page as
it runs. `AddUrlOnce` is the corrected branch, and `UrlClickedTwiceOnce` shows its
deduplication.

## Left out

- Rendering and widgets are not modelled. This covers page configuration, chat bubbles,
  `st.write`, the response placeholder and the "Processing ..." info alerts. The warning,
  error and success alerts are kept as `Notify` calls.
- Intermediate `markdown` renders of the partial answer are not recorded as calls.
  `ConcatPrefix` states what each of them shows.
- `st.rerun()` is modelled as the end of the run of the script, not as re-execution.
- `get_rag_assistant` and the assistant class are represented by `Handle`, the arguments
  the factory was called with; `assistant.py` is not part of this model. Whether the
  assistant has a knowledge base, a vector store or storage comes in through `Env` and is
  not tied to the handle. The same holds for its chat history and for `create_run`'s
  result.
- The language model, the PDF and website readers, the vector database and run storage
  are abstract inputs. The stream is a fragment sequence with an optional failure after
  it. Reader results are document sequences.
- AddUrl, AddPdf, Turn: the readers, `load_documents`, `get_rag_assistant`,
  `get_chat_history`, `vector_db.delete` and `get_all_run_ids` are assumed to return.
  `create_run` and the stream are the only foreign calls whose raising is modelled. In the
  page, a reader or load that raises ends `main` before the flag is set, so that source is
  read again on a later run; the model does not capture that path.
- `str(delta)`: fragments are modelled as strings already.
- The run id select box is an input. It is not tied to `get_all_run_ids()`.
- Streamlit's own widget-state entries in the session dictionary are not modelled, such
  as the entries stored under the integer widget keys. `Has` covers the keys the page
  itself writes.
- Flag values are not stored: the page only ever writes True, so a flag is a member of a
  set.
- `messages` is stored as a value. Any sharing of that list with the assistant's memory
  is not modelled.
- Logging and the unused `index` counter are left out.
- Persistence across connections and concurrency are left out. The page handles neither.
