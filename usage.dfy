/** Token-usage extraction: the streaming accumulator over decoded events
    and the one-shot read of a buffered JSON body. */
module Usage {
  import opened Wrappers
  import opened JsString
  import opened JsValue
  import opened EventStream

  /** The dotted paths `data.message.usage.input_tokens` and
      `data.usage.output_tokens`, written segment by segment. */
  const INPUT_PATH: string := "data" + "." + ("message" + "." + ("usage" + "." + "input_tokens"))
  const OUTPUT_PATH: string := "data" + "." + ("usage" + "." + "output_tokens")

  /** The `inputTokens` and `outputTokens` fields of the request log; both
      start as `null`. */
  datatype Tokens = Tokens(input: Value, output: Value)

  const NO_TOKENS: Tokens := Tokens(Null, Null)

  /** A decoded event seen as the object `{type, data}`. */
  function EventObject(e: Event): Value
  {
    Obj(map["type" := Str(e.kind), "data" := e.data])
  }

  /** `safelyGetNestedValue(event, 'data.message.usage.input_tokens')`,
      with the path already cut at its dots (see `InputTokensPath`). */
  function InputTokens(e: Event): Value
  {
    Lookup(EventObject(e), INPUT_SEGMENTS)
  }

  /** `safelyGetNestedValue(event, 'data.usage.output_tokens')`. */
  function OutputTokens(e: Event): Value
  {
    Lookup(EventObject(e), OUTPUT_SEGMENTS)
  }

  const INPUT_SEGMENTS: seq<string> := ["data", "message", "usage", "input_tokens"]
  const OUTPUT_SEGMENTS: seq<string> := ["data", "usage", "output_tokens"]

  /** A path no segment of which contains a dot. */
  predicate DotFree(segments: seq<string>)
  {
    forall i, k :: 0 <= i < |segments| && 0 <= k < |segments[i]| ==> segments[i][k] != '.'
  }

  /** `safelyGetNestedValue` on a dotted path looks up exactly the
      segments that were joined to make it. */
  lemma DottedPathLookup(obj: Value, segments: seq<string>)
    requires |segments| >= 1 && DotFree(segments)
    ensures SafelyGetNestedValue(obj, Join(segments, ".")) == Lookup(obj, segments)
  {
    SplitOnChar(segments, '.');
  }

  /** The input read is `safelyGetNestedValue` of the event on the dotted
      input path, and looks at `message.usage.input_tokens` inside the
      event's data. */
  lemma InputTokensPath(e: Event)
    ensures InputTokens(e) == SafelyGetNestedValue(EventObject(e), INPUT_PATH)
    ensures InputTokens(e) == Lookup(e.data, ["message", "usage", "input_tokens"])
  {
    assert Join(INPUT_SEGMENTS, ".") == INPUT_PATH by {
      assert INPUT_SEGMENTS[1..][1..][1..] == ["input_tokens"];
    }
    assert DotFree(INPUT_SEGMENTS) by {
      forall i, k | 0 <= i < |INPUT_SEGMENTS| && 0 <= k < |INPUT_SEGMENTS[i]|
        ensures INPUT_SEGMENTS[i][k] != '.'
      {
        assert '.' !in INPUT_SEGMENTS[i];
      }
    }
    DottedPathLookup(EventObject(e), INPUT_SEGMENTS);
    assert INPUT_SEGMENTS[1..] == ["message", "usage", "input_tokens"];
  }

  /** The output read is `safelyGetNestedValue` of the event on the dotted
      output path, and looks at `usage.output_tokens` inside the event's
      data. */
  lemma OutputTokensPath(e: Event)
    ensures OutputTokens(e) == SafelyGetNestedValue(EventObject(e), OUTPUT_PATH)
    ensures OutputTokens(e) == Lookup(e.data, ["usage", "output_tokens"])
  {
    assert Join(OUTPUT_SEGMENTS, ".") == OUTPUT_PATH by {
      assert OUTPUT_SEGMENTS[1..][1..] == ["output_tokens"];
    }
    assert DotFree(OUTPUT_SEGMENTS) by {
      forall i, k | 0 <= i < |OUTPUT_SEGMENTS| && 0 <= k < |OUTPUT_SEGMENTS[i]|
        ensures OUTPUT_SEGMENTS[i][k] != '.'
      {
        assert '.' !in OUTPUT_SEGMENTS[i];
      }
    }
    DottedPathLookup(EventObject(e), OUTPUT_SEGMENTS);
    assert OUTPUT_SEGMENTS[1..] == ["usage", "output_tokens"];
  }

  /** A `message_start`-like event whose message has no `usage` reads as
      `undefined` input tokens, so it leaves the logged value alone. */
  lemma MessageWithoutUsage(e: Event)
    requires Truthy(Lookup(e.data, ["message"]))
    requires Prop(Lookup(e.data, ["message"]), "usage") == Undefined
    ensures InputTokens(e) == Undefined && !Truthy(InputTokens(e))
  {
    InputTokensPath(e);
    LookupMissing(e.data, ["message"], "usage", ["input_tokens"]);
    assert ["message"] + ["usage"] + ["input_tokens"] == ["message", "usage", "input_tokens"];
  }

  /** `if (v) field = v` applied to each value in order, starting from `init`. */
  function LastTruthy(init: Value, vs: seq<Value>): (r: Value)
    decreases |vs|
    ensures r == init || (Truthy(r) && r in vs)
  {
    if vs == [] then init
    else LastTruthy(if Truthy(vs[0]) then vs[0] else init, vs[1..])
  }

  /** The position of the last truthy value, scanning from the end. */
  function LastTruthyIndex(vs: seq<Value>): (r: Option<nat>)
    ensures r.Some? ==> r.value < |vs| && Truthy(vs[r.value])
    ensures r.Some? ==> forall j :: r.value < j < |vs| ==> !Truthy(vs[j])
    ensures r.None? ==> forall j :: 0 <= j < |vs| ==> !Truthy(vs[j])
  {
    if vs == [] then None
    else if Truthy(vs[|vs| - 1]) then Some(|vs| - 1)
    else LastTruthyIndex(vs[..|vs| - 1])
  }

  /** Folding over two stretches is folding over the first, then the second. */
  lemma {:induction false} LastTruthyAppend(init: Value, a: seq<Value>, b: seq<Value>)
    decreases |a|
    ensures LastTruthy(init, a + b) == LastTruthy(LastTruthy(init, a), b)
  {
    if a == [] {
      assert a + b == b;
    } else {
      assert (a + b)[0] == a[0];
      assert (a + b)[1..] == a[1..] + b;
      LastTruthyAppend(if Truthy(a[0]) then a[0] else init, a[1..], b);
    }
  }

  /** The last truthy value wins; falsy values (`0`, `""`, `null`,
      `undefined`) never overwrite; with no truthy value the field keeps its
      initial value. */
  lemma {:induction false} LastTruthyWins(init: Value, vs: seq<Value>)
    ensures LastTruthy(init, vs) ==
      match LastTruthyIndex(vs)
      case None => init
      case Some(k) => vs[k]
  {
    if vs != [] {
      var front, last := vs[..|vs| - 1], vs[|vs| - 1];
      assert vs == front + [last];
      LastTruthyAppend(init, front, [last]);
      LastTruthyWins(init, front);
    }
  }

  function InputsOf(events: seq<Event>): (vs: seq<Value>)
    ensures |vs| == |events| && forall i :: 0 <= i < |events| ==> vs[i] == InputTokens(events[i])
  {
    seq(|events|, i requires 0 <= i < |events| => InputTokens(events[i]))
  }

  function OutputsOf(events: seq<Event>): (vs: seq<Value>)
    ensures |vs| == |events| && forall i :: 0 <= i < |events| ==> vs[i] == OutputTokens(events[i])
  {
    seq(|events|, i requires 0 <= i < |events| => OutputTokens(events[i]))
  }

  /** The log's token fields after the handler has seen `events`. */
  function FoldEvents(t: Tokens, events: seq<Event>): (r: Tokens)
    ensures r.input == t.input || (Truthy(r.input) && exists i :: 0 <= i < |events| && r.input == InputTokens(events[i]))
    ensures r.output == t.output || (Truthy(r.output) && exists i :: 0 <= i < |events| && r.output == OutputTokens(events[i]))
  {
    Tokens(LastTruthy(t.input, InputsOf(events)), LastTruthy(t.output, OutputsOf(events)))
  }

  /** One more event: each field is overwritten exactly when the event's
      value for it is truthy. */
  lemma FoldEventsSnoc(t: Tokens, es: seq<Event>, e: Event)
    ensures FoldEvents(t, es + [e]) ==
      var prev := FoldEvents(t, es);
      Tokens(if Truthy(InputTokens(e)) then InputTokens(e) else prev.input,
             if Truthy(OutputTokens(e)) then OutputTokens(e) else prev.output)
  {
    assert InputsOf(es + [e]) == InputsOf(es) + [InputTokens(e)];
    assert OutputsOf(es + [e]) == OutputsOf(es) + [OutputTokens(e)];
    LastTruthyAppend(t.input, InputsOf(es), [InputTokens(e)]);
    LastTruthyAppend(t.output, OutputsOf(es), [OutputTokens(e)]);
  }

  lemma FoldEventsAppend(t: Tokens, a: seq<Event>, b: seq<Event>)
    ensures FoldEvents(t, a + b) == FoldEvents(FoldEvents(t, a), b)
  {
    assert InputsOf(a + b) == InputsOf(a) + InputsOf(b);
    assert OutputsOf(a + b) == OutputsOf(a) + OutputsOf(b);
    LastTruthyAppend(t.input, InputsOf(a), InputsOf(b));
    LastTruthyAppend(t.output, OutputsOf(a), OutputsOf(b));
  }

  /** The `events.forEach` loop of one chunk: each event's input and output
      token values overwrite the log fields only when truthy. */
  method AccumulateEvents(t: Tokens, events: seq<Event>) returns (t': Tokens)
    ensures t' == FoldEvents(t, events)
  {
    t' := t;
    for i := 0 to |events|
      invariant t' == FoldEvents(t, events[..i])
    {
      var inputTokens := InputTokens(events[i]);
      var outputTokens := OutputTokens(events[i]);
      if Truthy(inputTokens) {
        t' := t'.(input := inputTokens);
      }
      if Truthy(outputTokens) {
        t' := t'.(output := outputTokens);
      }
      assert events[..i + 1] == events[..i] + [events[i]];
      FoldEventsSnoc(t, events[..i], events[i]);
    }
    assert events[..|events|] == events;
  }

  /** Every event decoded from a sequence of chunks, chunk by chunk. */
  function StreamEvents(chunks: seq<string>, parse: string -> Option<Value>): (r: seq<Event>)
    ensures forall e :: e in r ==> exists i :: 0 <= i < |chunks| && e in ParseEventStream(chunks[i], parse)
  {
    if chunks == [] then []
    else StreamEvents(chunks[..|chunks| - 1], parse) + ParseEventStream(chunks[|chunks| - 1], parse)
  }

  /** A single chunk contributes exactly the events parsed from it. */
  lemma StreamEventsSingle(c: string, parse: string -> Option<Value>)
    ensures StreamEvents([c], parse) == ParseEventStream(c, parse)
  {
    assert [c][..0] == [];
  }

  /** The events of consecutive runs of chunks are the events of each run,
      one after the other: no event spans two chunks. */
  lemma {:induction false} StreamEventsAppend(a: seq<string>, b: seq<string>, parse: string -> Option<Value>)
    ensures StreamEvents(a + b, parse) == StreamEvents(a, parse) + StreamEvents(b, parse)
    decreases |b|
  {
    if b != [] {
      var b' := b[..|b| - 1];
      assert (a + b)[..|a + b| - 1] == a + b';
      assert (a + b)[|a + b| - 1] == b[|b| - 1];
      StreamEventsAppend(a, b', parse);
    } else {
      assert a + b == a;
    }
  }

  /** The non-streaming read: when the whole body parses and its `usage` is
      truthy, both fields are overwritten by `usage.input_tokens` and
      `usage.output_tokens`, even when those are missing; otherwise (a parse
      failure, `null`, or no truthy `usage`) the fields stay as they were. */
  function BodyTokens(t: Tokens, body: string, parse: string -> Option<Value>): (r: Tokens)
    ensures parse(body).Some? && Truthy(Lookup(parse(body).value, ["usage"])) ==>
      r == Tokens(Lookup(parse(body).value, ["usage", "input_tokens"]),
                  Lookup(parse(body).value, ["usage", "output_tokens"]))
    ensures !(parse(body).Some? && Truthy(Lookup(parse(body).value, ["usage"]))) ==> r == t
  {
    match parse(body)
    case None => t
    case Some(v) =>
      if v.Null? || v.Undefined? then t  // reading `.usage` of null throws; the error is caught
      else
        var usage := Prop(v, "usage");
        if Truthy(usage) then Tokens(Prop(usage, "input_tokens"), Prop(usage, "output_tokens"))
        else t
  }
}
