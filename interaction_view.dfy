/** The interaction panel of a relation (`InteractionView.jsx`): the interaction history it
    loads, and the draft (text, file, summary) that is summarised, saved or cancelled. */
module InteractionView {
  import opened Wrappers
  import opened Json
  import opened Web
  import opened Strings
  import Api

  const LoadFailed := "Could not load interaction history."
  const SaveFailed := "Failed to save interaction. Please try again."

  const FileSummaryTail := ". This is an AI-generated summary of the document's key points and insights. "
    + "In a real implementation, this would contain a detailed analysis of the document's content using AI tools."

  /** The placeholder summary of an uploaded file, which names the file. */
  function FileSummary(name: string): (r: string)
    ensures r != [] && OccursAt(r, name, 17)
  {
    var r := "Summary of file: " + name + FileSummaryTail;
    assert r[17..17 + |name|] == name;
    r
  }

  /** The history shown after a load, and the error: in development a relation that carries its
      own interactions shows those; otherwise the fetched data (an empty list for null or
      undefined data) or, when the fetch fails or there is no relation, an empty list and a
      fixed error. */
  function Loaded(development: bool, relation: Json, fetched: Result<Json, Error>): (r: (Json, Option<string>))
    ensures r.1.Some? ==> r.1 == Some(LoadFailed) && r.0 == JArr([])
    ensures relation == JNull ==> r.1 == Some(LoadFailed)
    ensures development && JsTruthyAt(relation, "interactions") ==> r == (Get(relation, "interactions").value, None)
    ensures relation != JNull && !(development && JsTruthyAt(relation, "interactions")) ==>
              (r.1.None? <==> fetched.Success?)
    ensures relation != JNull && !(development && JsTruthyAt(relation, "interactions")) && fetched.Success? ==>
              (JsTruthy(fetched.value) ==> r.0 == fetched.value) && (!JsTruthy(fetched.value) ==> r.0 == JArr([]))
  {
    if relation == JNull then (JArr([]), Some(LoadFailed))
    else if development && JsTruthyAt(relation, "interactions") then (Get(relation, "interactions").value, None)
    else
      match fetched
      case Success(data) => (Or(Some(data), Some(JArr([]))).value, None)
      case Failure(_) => (JArr([]), Some(LoadFailed))
  }

  /** The record saved for a draft: the relation's id (left out when undefined), the date, the
      summary or, when there is none, the raw text, and the type "document" exactly when a file
      is selected. */
  function NewInteraction(relation: Json, date: string, summary: string, text: string, file: Option<Api.File>): (r: Json)
    ensures r.JObj?
    ensures Get(r, "relationId") == Get(relation, "id")
    ensures Get(r, "date") == Some(JStr(date))
    ensures Get(r, "summary") == Some(JStr(if summary != [] then summary else text))
    ensures Get(r, "type") == Some(JStr(if file.Some? then "document" else "text"))
  {
    var summaryText := JStr(if summary != [] then summary else text);
    var kind := JStr(if file.Some? then "document" else "text");
    if Get(relation, "id").Some? then
      var ms := [("relationId", Get(relation, "id").value), ("date", JStr(date)), ("summary", summaryText), ("type", kind)];
      LookupUnique(ms, 0);
      LookupUnique(ms, 1);
      LookupUnique(ms, 2);
      LookupUnique(ms, 3);
      JObj(ms)
    else
      var ms := [("date", JStr(date)), ("summary", summaryText), ("type", kind)];
      LookupUnique(ms, 0);
      LookupUnique(ms, 1);
      LookupUnique(ms, 2);
      JObj(ms)
  }

  /** The development-mode record: the new record with `id: Date.now()` added. */
  function MockInteraction(record: Json, now: int): Json
    requires record.JObj?
  {
    JObj(record.members + [("id", JNum(now))])
  }

  /** The elements `...v` spreads into an array literal: an array's items, a string's characters
      as one-character strings, and None (a TypeError) for a value that is not iterable. */
  function Spread(v: Json): (r: Option<seq<Json>>)
    ensures v.JArr? ==> r == Some(v.items)
    ensures v.JStr? ==> r.Some? && |r.value| == |v.s| && forall i :: 0 <= i < |v.s| ==> r.value[i] == JStr([v.s[i]])
    ensures !v.JArr? && !v.JStr? ==> r.None?
  {
    match v
    case JArr(xs) => Some(xs)
    case JStr(t) => Some(seq(|t|, i requires 0 <= i < |t| => JStr([t[i]])))
    case _ => None
  }

  /** `getInteractionTypeIcon`, with the icon texts exactly as the file spells them (the
      Mac Roman reading of the UTF-8 bytes of the emoji 🤝, 📞, 📄 and 💬). */
  function TypeIcon(t: Option<Json>): (icon: string)
    ensures t == Some(JStr("meeting")) ==> icon == "\U{F8FF}ü§ù"
    ensures t == Some(JStr("call")) ==> icon == "\U{F8FF}üìû"
    ensures t == Some(JStr("document")) ==> icon == "\U{F8FF}üìÑ"
    ensures t !in {Some(JStr("meeting")), Some(JStr("call")), Some(JStr("document"))} ==> icon == "\U{F8FF}üí¨"
  {
    if t == Some(JStr("meeting")) then "\U{F8FF}ü§ù"
    else if t == Some(JStr("call")) then "\U{F8FF}üìû"
    else if t == Some(JStr("document")) then "\U{F8FF}üìÑ"
    else "\U{F8FF}üí¨"
  }

  /** The icons of the three named types and of the default are four different texts. */
  lemma TypeIconsDistinct(a: Option<Json>, b: Option<Json>)
    requires TypeIcon(a) == TypeIcon(b)
    ensures a == b || (a !in {Some(JStr("meeting")), Some(JStr("call")), Some(JStr("document"))}
                       && b !in {Some(JStr("meeting")), Some(JStr("call")), Some(JStr("document"))})
  {
    var m, c, d := TypeIcon(Some(JStr("meeting"))), TypeIcon(Some(JStr("call"))), TypeIcon(Some(JStr("document")));
    var o := TypeIcon(None);
    assert m[3] != c[3] && m[3] != d[3] && m[3] != o[3] && c[3] != d[3] && c[3] != o[3] && d[3] != o[3];
  }

  /** The panel's state cells. */
  class InteractionView {
    const relation: Json
    const development: bool
    const hasOnUpdate: bool
    var interactions: Json
    var loading: bool
    var error: Option<string>
    var interactionText: string
    var selectedFile: Option<Api.File>
    var isSummarizing: bool
    var summary: string
    var showInteractionForm: bool

    /** The Save button is disabled: nothing to save, or a summary is being made. */
    predicate SaveDisabled()
      reads this
    {
      (interactionText == [] && selectedFile.None?) || isSummarizing
    }

    /** The "Summarize Text" button is shown. */
    predicate ShowsSummarizeText()
      reads this
    {
      interactionText != [] && summary == []
    }

    /** The "Summarize File" button is shown. */
    predicate ShowsSummarizeFile()
      reads this
    {
      selectedFile.Some? && summary == []
    }

    /** An empty draft with the form hidden. */
    predicate DraftCleared()
      reads this
    {
      interactionText == [] && selectedFile.None? && summary == [] && !showInteractionForm
    }

    constructor(relation: Json, development: bool, hasOnUpdate: bool)
      ensures this.relation == relation && this.development == development && this.hasOnUpdate == hasOnUpdate
      ensures interactions == JArr([]) && loading && error.None? && !isSummarizing && DraftCleared()
    {
      this.relation := relation;
      this.development := development;
      this.hasOnUpdate := hasOnUpdate;
      interactions := JArr([]);
      loading := true;
      error := None;
      interactionText := [];
      selectedFile := None;
      isSummarizing := false;
      summary := [];
      showInteractionForm := false;
    }

    /** `loadInteractions`, the fetch settling with `fetched`: the request it sends, if any. The
        draft is untouched and loading is over. */
    method LoadInteractions(fetched: Result<Json, Error>) returns (request: Option<Api.Request>)
      modifies this
      ensures (interactions, error) == Loaded(development, relation, fetched) && !loading
      ensures request.Some? <==> relation != JNull && !(development && JsTruthyAt(relation, "interactions"))
      ensures request.Some? ==> request.value == Api.FetchInteractions(Get(relation, "id"))
      ensures interactionText == old(interactionText) && selectedFile == old(selectedFile) && summary == old(summary)
      ensures showInteractionForm == old(showInteractionForm) && isSummarizing == old(isSummarizing)
    {
      loading := true;
      request := None;
      if relation == JNull {
        error := Some(LoadFailed);
        interactions := JArr([]);
      } else if development && JsTruthyAt(relation, "interactions") {
        interactions := Get(relation, "interactions").value;
        error := None;
      } else {
        request := Some(Api.FetchInteractions(Get(relation, "id")));
        match fetched {
          case Success(data) =>
            interactions := Or(Some(data), Some(JArr([]))).value;
            error := None;
          case Failure(_) =>
            error := Some(LoadFailed);
            interactions := JArr([]);
        }
      }
      loading := false;
    }

    /** The "New Interaction" button: the draft form opens, the draft itself is kept. */
    method OpenForm()
      modifies this
      ensures showInteractionForm
      ensures interactionText == old(interactionText) && selectedFile == old(selectedFile) && summary == old(summary)
      ensures interactions == old(interactions) && error == old(error) && isSummarizing == old(isSummarizing)
      ensures loading == old(loading)
    {
      showInteractionForm := true;
    }

    /** Typing in the draft's text area replaces the text; the Summarize Text button shows when
        the new text is non-empty and there is no summary yet. */
    method ChangeText(text: string)
      modifies this
      ensures interactionText == text
      ensures ShowsSummarizeText() <==> text != [] && old(summary) == []
      ensures selectedFile == old(selectedFile) && summary == old(summary) && showInteractionForm == old(showInteractionForm)
      ensures interactions == old(interactions) && error == old(error) && isSummarizing == old(isSummarizing)
      ensures loading == old(loading)
    {
      interactionText := text;
    }

    /** `handleFileChange`: the first chosen file is selected; choosing none changes nothing. */
    method HandleFileChange(files: Option<seq<Api.File>>)
      modifies this
      ensures files.Some? && files.value != [] ==> selectedFile == Some(files.value[0])
      ensures !(files.Some? && files.value != []) ==> selectedFile == old(selectedFile)
      ensures interactionText == old(interactionText) && summary == old(summary) && interactions == old(interactions)
      ensures error == old(error) && isSummarizing == old(isSummarizing) && showInteractionForm == old(showInteractionForm)
      ensures loading == old(loading)
    {
      if files.Some? && files.value != [] {
        selectedFile := Some(files.value[0]);
      }
    }

    /** `summarizeText`: the summary becomes the current text, which hides the button. */
    method SummarizeText()
      modifies this
      ensures summary == old(interactionText) && !isSummarizing
      ensures interactionText != [] ==> !ShowsSummarizeText()
      ensures interactionText == old(interactionText) && selectedFile == old(selectedFile) && interactions == old(interactions)
      ensures error == old(error) && showInteractionForm == old(showInteractionForm) && loading == old(loading)
    {
      isSummarizing := true;
      summary := interactionText;
      isSummarizing := false;
    }

    /** `summarizeFile`: without a file nothing changes; otherwise the summary names the file. */
    method SummarizeFile()
      modifies this
      ensures old(selectedFile).None? ==> summary == old(summary) && isSummarizing == old(isSummarizing)
      ensures old(selectedFile).Some? ==> summary == FileSummary(old(selectedFile).value.name) && !isSummarizing
      ensures old(selectedFile).Some? ==> !ShowsSummarizeFile()
      ensures interactionText == old(interactionText) && selectedFile == old(selectedFile) && interactions == old(interactions)
      ensures error == old(error) && showInteractionForm == old(showInteractionForm) && loading == old(loading)
    {
      if selectedFile.None? {
        return;
      }
      isSummarizing := true;
      summary := FileSummary(selectedFile.value.name);
      isSummarizing := false;
    }

    /** The Cancel button: the draft is cleared and the form hidden, so Save is disabled. */
    method Cancel()
      modifies this
      ensures DraftCleared() && SaveDisabled()
      ensures interactions == old(interactions) && error == old(error) && isSummarizing == old(isSummarizing)
      ensures loading == old(loading)
    {
      showInteractionForm := false;
      interactionText := [];
      selectedFile := None;
      summary := [];
    }

    /** Between two states the history, the draft, the form, the loading flag and the
        summarising flag all stay as they were. */
    twostate predicate EverythingButErrorKept()
      reads this
    {
      interactions == old(interactions) && interactionText == old(interactionText)
      && selectedFile == old(selectedFile) && summary == old(summary)
      && showInteractionForm == old(showInteractionForm) && loading == old(loading)
      && isSummarizing == old(isSummarizing)
    }

    method ResetDraft()
      modifies this
      ensures DraftCleared()
      ensures interactions == old(interactions) && error == old(error) && isSummarizing == old(isSummarizing)
      ensures loading == old(loading)
    {
      interactionText := [];
      selectedFile := None;
      summary := [];
      showInteractionForm := false;
    }

    /** `saveInteraction` as written: in production it calls `createInteraction` with the record
        as its only argument, so destructuring the missing second argument rejects and every
        save ends in the save error with the draft kept. */
    method SaveInteractionAsWritten(date: string, now: int) returns (onUpdateCalled: bool)
      modifies this
      ensures relation == JNull ==> error == Some(SaveFailed) && !onUpdateCalled && EverythingButErrorKept()
      ensures development && relation != JNull && Spread(old(interactions)).Some? ==>
                interactions == JArr([MockInteraction(NewInteraction(relation, date, old(summary), old(interactionText), old(selectedFile)), now)]
                                     + Spread(old(interactions)).value)
                && DraftCleared() && onUpdateCalled == hasOnUpdate
                && error == old(error) && loading == old(loading) && isSummarizing == old(isSummarizing)
      ensures development && relation != JNull && Spread(old(interactions)).None? ==>
                error == Some(SaveFailed) && !onUpdateCalled && EverythingButErrorKept()
      ensures !development && relation != JNull ==>
                error == Some(SaveFailed) && !onUpdateCalled && EverythingButErrorKept()
    {
      onUpdateCalled := false;
      if relation == JNull {
        error := Some(SaveFailed);
        return;
      }
      var record := NewInteraction(relation, date, summary, interactionText, selectedFile);
      if development {
        var existing := Spread(interactions);
        if existing.None? {
          error := Some(SaveFailed);
          return;
        }
        interactions := JArr([MockInteraction(record, now)] + existing.value);
      } else {
        var sent := Api.InteractionRequest(Some(record), None);
        if sent.Failure? {
          error := Some(SaveFailed);
          return;
        }
      }
      ResetDraft();
      onUpdateCalled := hasOnUpdate;
    }

    /** `saveInteraction` with the call it evidently intends,
        `createInteraction(relation.id, {text, files})`; the post settles with `created` and
        the reload with `fetched`. The record keeps the summary, or the text when there is
        none. In development it is prepended to the history, which otherwise keeps its order;
        in production it is posted and the history reloaded. A successful save clears the draft
        and calls `onUpdate` when one was given; a failed one keeps the draft and shows the save
        error. */
    method SaveInteraction(date: string, now: int, created: Result<Json, Error>, fetched: Result<Json, Error>)
      returns (request: Option<Api.Request>, onUpdateCalled: bool)
      modifies this
      ensures relation == JNull ==> error == Some(SaveFailed) && request.None? && !onUpdateCalled && EverythingButErrorKept()
      ensures development && relation != JNull ==> request.None?
      ensures development && relation != JNull && Spread(old(interactions)).Some? ==>
                interactions == JArr([MockInteraction(NewInteraction(relation, date, old(summary), old(interactionText), old(selectedFile)), now)]
                                     + Spread(old(interactions)).value)
                && DraftCleared() && onUpdateCalled == hasOnUpdate
                && error == old(error) && loading == old(loading) && isSummarizing == old(isSummarizing)
      ensures development && relation != JNull && Spread(old(interactions)).None? ==>
                error == Some(SaveFailed) && !onUpdateCalled && EverythingButErrorKept()
      ensures !development && relation != JNull ==>
                request == Some(Api.InteractionRequest(Get(relation, "id"),
                  Some(Api.InteractionPayload(Some(JStr(if old(summary) != [] then old(summary) else old(interactionText))),
                                              Some(if old(selectedFile).Some? then [old(selectedFile).value] else [])))).value)
      ensures !development && relation != JNull && created.Success? ==>
                (interactions, error) == Loaded(development, relation, fetched) && DraftCleared() && onUpdateCalled == hasOnUpdate
                && !loading && isSummarizing == old(isSummarizing)
      ensures !development && relation != JNull && created.Failure? ==>
                error == Some(SaveFailed) && !onUpdateCalled && EverythingButErrorKept()
    {
      request := None;
      onUpdateCalled := false;
      if relation == JNull {
        error := Some(SaveFailed);
        return;
      }
      var record := NewInteraction(relation, date, summary, interactionText, selectedFile);
      if development {
        var existing := Spread(interactions);
        if existing.None? {
          error := Some(SaveFailed);
          return;
        }
        interactions := JArr([MockInteraction(record, now)] + existing.value);
      } else {
        var text := if summary != [] then summary else interactionText;
        var files := if selectedFile.Some? then [selectedFile.value] else [];
        request := Some(Api.InteractionRequest(Get(relation, "id"), Some(Api.InteractionPayload(Some(JStr(text)), Some(files)))).value);
        if created.Failure? {
          error := Some(SaveFailed);
          return;
        }
        var _ := LoadInteractions(fetched);
      }
      ResetDraft();
      onUpdateCalled := hasOnUpdate;
    }
  }
}
