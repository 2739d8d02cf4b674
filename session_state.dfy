/** The per-connection session dictionary (`st.session_state`): the keys the page uses, the
    invariant it keeps on them, and the pure transformations it applies to them. */
module SessionState {
  import opened Wrappers
  import opened Messages

  /** The assistant object the page holds, identified by the arguments `get_rag_assistant`
      was called with. */
  datatype Handle = Handle(model: string, runId: Option<string>)

  /** A dictionary entry that may be missing, hold None, or hold a value. */
  datatype Slot<T> = Absent | Null | Set(value: T)

  /** The session dictionary, one field per key the page uses by name; `flags` holds every
      string-built key the page has set to True. */
  datatype State = State(
    model: Option<string>,           // "rag_model"
    assistant: Slot<Handle>,         // "rag_assistant"
    runId: Slot<string>,             // "rag_assistant_run_id"
    urlCounter: Option<int>,         // "url_scrape_key"
    fileCounter: Option<int>,        // "file_uploader_key"
    messages: Option<seq<Message>>,  // "messages"
    flags: set<string>)

  /** The dictionary of a new connection. */
  const EmptyState := State(None, Absent, Absent, None, None, None, {})

  /** The options of the model select box. */
  const Models: seq<string> := ["llama3.2:1b", "llama3:8b", "openhermes", "llama2"]

  const ModelKey := "rag_model"
  const AssistantKey := "rag_assistant"
  const RunIdKey := "rag_assistant_run_id"
  const UrlCounterKey := "url_scrape_key"
  const FileCounterKey := "file_uploader_key"
  const MessagesKey := "messages"

  /** Initial values of the two widget-generation counters. */
  const UrlCounterStart := 0
  const FileCounterStart := 100

  const UploadedSuffix := "_uploaded"
  const ScrapedSuffix := "_scraped"

  predicate EndsWith(s: string, suffix: string)
  {
    |suffix| <= |s| && s[|s| - |suffix|..] == suffix
  }

  predicate IsFixedKey(k: string)
  {
    k == ModelKey || k == AssistantKey || k == RunIdKey ||
    k == UrlCounterKey || k == FileCounterKey || k == MessagesKey
  }

  /** Ingestion flags are keys that end in "_uploaded". */
  predicate IsFlagKey(k: string)
  {
    EndsWith(k, UploadedSuffix)
  }

  /** The key the URL branch tests. */
  function UrlCheckKey(url: string): string
  {
    url + ScrapedSuffix
  }

  /** The key the URL branch sets. */
  function UrlFlagKey(url: string): string
  {
    url + UploadedSuffix
  }

  /** `name.split(".")[0]`: the file name up to its first dot, or all of it when it has none. */
  function Stem(name: string): (stem: string)
    ensures stem <= name
    ensures '.' !in stem
    ensures |stem| == |name| || name[|stem|] == '.'
  {
    if name == [] || name[0] == '.' then [] else [name[0]] + Stem(name[1..])
  }

  /** The key the PDF branch both tests and sets. */
  function PdfKey(name: string): string
  {
    Stem(name) + UploadedSuffix
  }

  /** Python's `key in st.session_state`. */
  predicate Has(s: State, key: string)
  {
    || (key == ModelKey && s.model.Some?)
    || (key == AssistantKey && !s.assistant.Absent?)
    || (key == RunIdKey && !s.runId.Absent?)
    || (key == UrlCounterKey && s.urlCounter.Some?)
    || (key == FileCounterKey && s.fileCounter.Some?)
    || (key == MessagesKey && s.messages.Some?)
    || key in s.flags
  }

  /** What the page keeps true of the dictionary between any two of its steps. */
  predicate WellTyped(s: State)
  {
    && (s.model.Some? ==> s.model.value in Models)
    && (s.urlCounter.Some? ==> s.urlCounter.value >= UrlCounterStart)
    && (s.fileCounter.Some? ==> s.fileCounter.value >= FileCounterStart)
    && (s.messages.Some? ==> |s.messages.value| > 0)
    && (forall k :: k in s.flags ==> IsFlagKey(k))
  }

  /** Between an earlier and a later dictionary: no ingestion flag was removed and neither
      widget-generation counter went down or disappeared. */
  predicate LedgerGrows(s: State, s': State)
  {
    && s.flags <= s'.flags
    && (s.urlCounter.Some? ==> s'.urlCounter.Some? && s.urlCounter.value <= s'.urlCounter.value)
    && (s.fileCounter.Some? ==> s'.fileCounter.Some? && s.fileCounter.value <= s'.fileCounter.value)
  }

  /** Character i of a suffix sits at position |s| - |suffix| + i of a string ending in it. */
  lemma SuffixCharAt(s: string, suffix: string, i: nat)
    requires i < |suffix|
    ensures EndsWith(s, suffix) ==> s[|s| - |suffix| + i] == suffix[i]
  {
  }

  /** None of the fixed keys ends in "_uploaded", so a flag never lands on one of them. */
  lemma FixedKeysAreNotFlags(k: string)
    requires IsFixedKey(k)
    ensures !IsFlagKey(k)
  {
    SuffixCharAt(k, UploadedSuffix, |UploadedSuffix| - 1);
    SuffixCharAt(k, UploadedSuffix, |UploadedSuffix| - 2);
    assert ModelKey[|ModelKey| - 1] != 'd' && AssistantKey[|AssistantKey| - 1] != 'd';
    assert RunIdKey[|RunIdKey| - 2] != 'e' && MessagesKey[|MessagesKey| - 1] != 'd';
    assert UrlCounterKey[|UrlCounterKey| - 1] != 'd' && FileCounterKey[|FileCounterKey| - 1] != 'd';
  }

  /** Both keys the ingestion branches set end in "_uploaded". */
  lemma FlagKeys(name: string)
    ensures IsFlagKey(PdfKey(name)) && IsFlagKey(UrlFlagKey(name))
  {
    var p, u := PdfKey(name), UrlFlagKey(name);
    assert p[|p| - |UploadedSuffix|..] == UploadedSuffix;
    assert u[|u| - |UploadedSuffix|..] == UploadedSuffix;
  }

  /** For a key ending in "_uploaded", being in the dictionary is being in `flags`. */
  lemma FlagPresence(s: State, k: string)
    requires IsFlagKey(k)
    ensures Has(s, k) <==> k in s.flags
  {
    FixedKeysAreNotFlags(ModelKey);
    FixedKeysAreNotFlags(AssistantKey);
    FixedKeysAreNotFlags(RunIdKey);
    FixedKeysAreNotFlags(UrlCounterKey);
    FixedKeysAreNotFlags(FileCounterKey);
    FixedKeysAreNotFlags(MessagesKey);
  }

  /** A key built as `<url>_scraped` is never in the dictionary: it is none of the fixed keys
      and does not end in "_uploaded". */
  lemma ScrapedKeyNeverPresent(s: State, url: string)
    requires WellTyped(s)
    ensures !Has(s, UrlCheckKey(url))
  {
    var k := UrlCheckKey(url);
    assert k[|k| - 3] == ScrapedSuffix[5] == 'p';
    SuffixCharAt(k, UploadedSuffix, 6);
    assert UploadedSuffix[6] == 'd';
    assert !IsFlagKey(k);
    assert ModelKey[|ModelKey| - 3] != 'p' && AssistantKey[|AssistantKey| - 3] != 'p';
    assert RunIdKey[|RunIdKey| - 3] != 'p' && MessagesKey[|MessagesKey| - 3] != 'p';
    assert UrlCounterKey[|UrlCounterKey| - 3] != 'p' && FileCounterKey[|FileCounterKey| - 3] != 'p';
    assert !IsFixedKey(k);
  }

  /** Two file names share a flag exactly when their stems agree. */
  lemma PdfKeyIsStem(a: string, b: string)
    ensures PdfKey(a) == PdfKey(b) <==> Stem(a) == Stem(b)
  {
    if PdfKey(a) == PdfKey(b) {
      assert Stem(a) == PdfKey(a)[..|PdfKey(a)| - |UploadedSuffix|];
      assert Stem(b) == PdfKey(b)[..|PdfKey(b)| - |UploadedSuffix|];
    }
  }

  /** The stem is the only prefix of the name that has no dot and stops at a dot or at the end. */
  lemma StemUnique(name: string, p: string)
    requires p <= name && '.' !in p
    requires |p| == |name| || name[|p|] == '.'
    ensures p == Stem(name)
  {
    var s := Stem(name);
    assert forall i :: 0 <= i < |p| ==> name[i] != '.';
    assert forall i :: 0 <= i < |s| ==> name[i] != '.';
    assert p == name[..|p|] && s == name[..|s|];
  }

  function Incremented(counter: Option<int>): Option<int>
  {
    if counter.Some? then Some(counter.value + 1) else None
  }

  /** `restart_assistant`: the assistant handle and the run id become None, each widget
      counter that exists goes up by one, and no other key changes. */
  function Restarted(s: State): (r: State)
    requires WellTyped(s)
    ensures WellTyped(r) && LedgerGrows(s, r)
    ensures r.assistant == Null && r.runId == Null
    ensures r.urlCounter.Some? <==> s.urlCounter.Some?
    ensures r.urlCounter.Some? ==> r.urlCounter.value == s.urlCounter.value + 1
    ensures r.fileCounter.Some? <==> s.fileCounter.Some?
    ensures r.fileCounter.Some? ==> r.fileCounter.value == s.fileCounter.value + 1
    ensures r.model == s.model && r.messages == s.messages && r.flags == s.flags
  {
    s.(assistant := Null, runId := Null,
       urlCounter := Incremented(s.urlCounter), fileCounter := Incremented(s.fileCounter))
  }

  /** After a restart the dictionary holds the keys it held, plus the assistant and run id
      keys; no key disappears. */
  lemma RestartedKeys(s: State)
    requires WellTyped(s)
    ensures forall k :: Has(Restarted(s), k) <==> Has(s, k) || k == AssistantKey || k == RunIdKey
  {
  }

  /** The page holds an assistant: the key is present and not None. */
  predicate HoldsAssistant(s: State)
  {
    s.assistant.Set?
  }

  /** A selected run id as the value it is compared with: None or a string. */
  function RunIdValue(selected: Option<string>): Slot<string>
  {
    if selected.Some? then Set(selected.value) else Null
  }
}
