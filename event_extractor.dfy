/** `extract_events_from_interaction` (`event_extractor.py`): how the language model's answer is
    cleaned, parsed (with one bracket-wrapped retry), normalised to a list and validated item by
    item. The model, `json.loads` and the `EventDetails` validator are inputs. */
module EventExtractor {
  import opened Wrappers
  import opened Strings
  import opened Json
  import opened Http

  const Fence := "```"
  const JsonFence := "```json"

  /** The cleaning step: strip, drop every "```json", then every "```", and strip again. */
  function Clean(response: string): (r: string)
    ensures r == [] || (!IsSpace(r[0]) && !IsSpace(r[|r| - 1]))
  {
    Strip(ReplaceAll(ReplaceAll(Strip(response), JsonFence, ""), Fence, ""))
  }

  predicate FenceFree(s: string) {
    forall i :: 0 <= i <= |s| ==> !OccursAt(s, Fence, i)
  }

  /** Text that starts with a backtick after the fences are removed started with one before. */
  lemma RemovedStartsWithTick(t: string)
    requires ReplaceAll(t, Fence, "") != [] && ReplaceAll(t, Fence, "")[0] == '`'
    ensures t != [] && t[0] == '`'
  {
  }

  /** Text that starts with two backticks after the fences are removed started with two before. */
  lemma RemovedStartsWithTwoTicks(t: string)
    requires |ReplaceAll(t, Fence, "")| >= 2
    requires ReplaceAll(t, Fence, "")[0] == '`' && ReplaceAll(t, Fence, "")[1] == '`'
    ensures |t| >= 2 && t[0] == '`' && t[1] == '`'
  {
    if !StartsWith(t, Fence) {
      var u := ReplaceAll(t[1..], Fence, "");
      assert ReplaceAll(t, Fence, "") == [t[0]] + u;
      RemovedStartsWithTick(t[1..]);
    }
  }

  /** Removing every "```" leaves none behind: a removal never joins backticks into a new fence. */
  lemma {:induction false} RemovalFenceFree(t: string)
    ensures FenceFree(ReplaceAll(t, Fence, ""))
    decreases |t|
  {
    if t == [] {
    } else if StartsWith(t, Fence) {
      assert ReplaceAll(t, Fence, "") == ReplaceAll(t[3..], Fence, "");
      RemovalFenceFree(t[3..]);
    } else {
      var u := ReplaceAll(t[1..], Fence, "");
      var r := ReplaceAll(t, Fence, "");
      assert r == [t[0]] + u;
      RemovalFenceFree(t[1..]);
      forall i | OccursAt(r, Fence, i)
        ensures false
      {
        if i == 0 {
          assert r[0..3] == Fence;
          assert r[1] == Fence[1] && r[2] == Fence[2];
          RemovedStartsWithTwoTicks(t[1..]);
        } else {
          assert u[i - 1..i - 1 + 3] == r[i..i + 3];
          assert OccursAt(u, Fence, i - 1);
        }
      }
    }
  }

  /** Stripping cuts a slice out, so it cannot create a fence either. */
  lemma StripFenceFree(s: string)
    requires FenceFree(s)
    ensures FenceFree(Strip(s))
  {
    var r, a := Strip(s), LeadingSpaces(s);
    forall i | OccursAt(r, Fence, i)
      ensures false
    {
      assert r == s[a..a + |r|];
      assert r[i..i + 3] == s[a..a + |r|][i..i + 3] == s[a + i..a + i + 3];
      assert OccursAt(s, Fence, a + i);
    }
  }

  /** The cleaned answer contains no "```". */
  lemma CleanFenceFree(response: string)
    ensures FenceFree(Clean(response))
  {
    RemovalFenceFree(ReplaceAll(Strip(response), JsonFence, ""));
    StripFenceFree(ReplaceAll(ReplaceAll(Strip(response), JsonFence, ""), Fence, ""));
  }

  // ---------------------------------------------------------------- parsing

  /** `json.loads`: the value, or the text of the `JSONDecodeError`. */
  type Loader = string -> Result<Json, string>

  /** The error text of reading `events_data` when neither parse assigned it (Python 3.11 and later). */
  const Unbound := "cannot access local variable 'events_data' where it is not associated with a value"

  /** `events_data`, or the text of the exception that ends the extraction: a failed parse is
      retried once, wrapped in brackets, unless the text already starts with '['; then the
      variable stays unbound. */
  function EventsData(cleaned: string, loads: Loader): (r: Result<Json, string>)
    ensures loads(cleaned).Success? ==> r == loads(cleaned)
    ensures loads(cleaned).Failure? && !StartsWith(cleaned, "[") ==> r == loads("[" + cleaned + "]")
    ensures loads(cleaned).Failure? && StartsWith(cleaned, "[") ==> r == Failure(Unbound)
  {
    match loads(cleaned)
    case Success(v) => Success(v)
    case Failure(_) =>
      if !StartsWith(cleaned, "[") then loads("[" + cleaned + "]") else Failure(Unbound)
  }

  /** The compact JSON reader of the `Json` module as a loader. */
  function CompactLoads(text: string): Result<Json, string> {
    match Parse(text)
    case Some(v) => Success(v)
    case None => Failure("Expecting value")
  }

  /** The retry recovers a model answer that lists two objects without the enclosing brackets. */
  lemma RetryRecoversBareList(a: Json, b: Json)
    requires a.JObj?
    ensures EventsData(Stringify(a) + "," + Stringify(b), CompactLoads) == Success(JArr([a, b]))
  {
    var text := Stringify(a) + "," + Stringify(b);
    ValueRoundTrip(a, "," + Stringify(b));
    assert text == Stringify(a) + ("," + Stringify(b));
    assert text[0] == '{';
    assert StringifyItems([a, b]) == Stringify(a) + ("," + StringifyItems([b]));
    assert "[" + text + "]" == Stringify(JArr([a, b]));
    RoundTrip(JArr([a, b]));
  }

  /** `events_data` as a list: a list is kept, any other value becomes a one-item list. */
  function Normalize(v: Json): (xs: seq<Json>)
    ensures v.JArr? ==> xs == v.items
    ensures !v.JArr? ==> xs == [v]
  {
    if v.JArr? then v.items else [v]
  }

  // ---------------------------------------------------------------- validation

  datatype EventDetails = EventDetails(title: string, startTime: string, endTime: Option<string>,
                                       description: Option<string>, location: Option<string>,
                                       participants: Option<seq<Json>>, confidenceScore: real)

  /** `EventDetails(**item)`: the event, or None when it raises. */
  type Validator = Json -> Option<EventDetails>

  /** The events of the items that validate, in item order. */
  function ValidEvents(items: seq<Json>, validate: Validator): (r: seq<EventDetails>)
    ensures |r| <= |items|
    ensures forall e :: e in r ==> exists k :: 0 <= k < |items| && validate(items[k]) == Some(e)
  {
    if items == [] then []
    else
      var init := items[..|items| - 1];
      var last := items[|items| - 1];
      var r := ValidEvents(init, validate) + (if validate(last).Some? then [validate(last).value] else []);
      assert forall k :: 0 <= k < |init| ==> init[k] == items[k];
      r
  }

  /** The events of consecutive item ranges are the concatenation of their events. */
  lemma {:induction false} ValidEventsAppend(a: seq<Json>, b: seq<Json>, validate: Validator)
    ensures ValidEvents(a + b, validate) == ValidEvents(a, validate) + ValidEvents(b, validate)
  {
    if b == [] {
      assert a + b == a;
    } else {
      var c := a + b;
      assert c[..|c| - 1] == a + b[..|b| - 1];
      ValidEventsAppend(a, b[..|b| - 1], validate);
    }
  }

  /** When every item validates, nothing is dropped. */
  lemma {:induction false} AllValid(items: seq<Json>, validate: Validator)
    requires forall k :: 0 <= k < |items| ==> validate(items[k]).Some?
    ensures |ValidEvents(items, validate)| == |items|
  {
    if items != [] {
      AllValid(items[..|items| - 1], validate);
    }
  }

  /** The loop over `events_data`, skipping every item that fails validation. */
  method CollectEvents(items: seq<Json>, validate: Validator) returns (events: seq<EventDetails>)
    ensures events == ValidEvents(items, validate)
  {
    events := [];
    for i := 0 to |items|
      invariant events == ValidEvents(items[..i], validate)
    {
      assert items[..i + 1][..i] == items[..i];
      var event := validate(items[i]);
      if event.Some? {
        events := events + [event.value];
      }
    }
    assert items[..|items|] == items;
  }

  /** The model's answer for an interaction text and its relation context, or the exception text. */
  type Model = (string, Json) -> Result<string, string>

  /** `extract_events_from_interaction`: any exception on the way (the model call, the second
      parse, the unbound variable) becomes a 500 error naming it; otherwise the valid events of
      the normalised list, in order. */
  method ExtractEvents(text: string, relationInfo: Json, generate: Model, loads: Loader, validate: Validator)
    returns (r: Result<seq<EventDetails>, HttpError>)
    ensures generate(text, relationInfo).Failure? ==>
              r == Failure(HttpError(500, "Failed to extract events: " + generate(text, relationInfo).error))
    ensures generate(text, relationInfo).Success? ==>
              var data := EventsData(Clean(generate(text, relationInfo).value), loads);
              (data.Failure? ==> r == Failure(HttpError(500, "Failed to extract events: " + data.error)))
              && (data.Success? ==> r == Success(ValidEvents(Normalize(data.value), validate)))
  {
    var response := generate(text, relationInfo);
    if response.Failure? {
      return Failure(HttpError(500, "Failed to extract events: " + response.error));
    }
    var cleaned := Clean(response.value);
    var data := EventsData(cleaned, loads);
    if data.Failure? {
      return Failure(HttpError(500, "Failed to extract events: " + data.error));
    }
    var items := Normalize(data.value);
    var events := CollectEvents(items, validate);
    r := Success(events);
  }
}
