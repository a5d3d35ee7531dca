/** The server-sent-event chunk decoder `parseEventStream`, shared verbatim by
    both Claude handlers. */
module EventStream {
  import opened Wrappers
  import opened JsString
  import opened JsValue

  /** A decoded event `{type, data}`. */
  datatype Event = Event(kind: string, data: Value)

  /** What one `\n\n`-separated block contributes: nothing, an event, or a
      `JSON.parse` exception. */
  datatype Block = Skipped | Decoded(event: Event) | Malformed

  const EVENT_DELIMITER: string := "\n\n"
  const TYPE_PREFIX: string := "event: "
  const DATA_PREFIX: string := "data: "

  /** `chunk.toString().split('\n\n')`. */
  function Blocks(chunk: string): seq<string>
  {
    Split(chunk, EVENT_DELIMITER)
  }

  /** The first element of `block.split('\n')`, the event-type line. */
  function TypeLine(block: string): string
  {
    Split(block, "\n")[0]
  }

  /** The second element of `block.split('\n')`, the data line, if any;
      every later line is ignored. */
  function DataLine(block: string): Option<string>
  {
    var lines := Split(block, "\n");
    if |lines| >= 2 then Some(lines[1]) else None
  }

  /** `eventType && eventData`: both lines present and non-empty. */
  predicate Kept(block: string)
  {
    TypeLine(block) != "" && DataLine(block).Some? && DataLine(block).value != ""
  }

  /** The decode of one block: a block that is not kept yields nothing; a kept
      one yields an event unless its data line fails to parse. */
  function DecodeBlock(block: string, parse: string -> Option<Value>): (r: Block)
    ensures r.Skipped? <==> !Kept(block)
    ensures r.Malformed? <==>
      Kept(block) && parse(ReplaceFirst(DataLine(block).value, DATA_PREFIX, "")).None?
    ensures r.Decoded? ==>
      && Kept(block)
      && parse(ReplaceFirst(DataLine(block).value, DATA_PREFIX, "")) == Some(r.event.data)
      && r.event.kind == ReplaceFirst(TypeLine(block), TYPE_PREFIX, "")
  {
    if !Kept(block) then Skipped
    else
      match parse(ReplaceFirst(DataLine(block).value, DATA_PREFIX, ""))
      case None => Malformed
      case Some(v) => Decoded(Event(ReplaceFirst(TypeLine(block), TYPE_PREFIX, ""), v))
  }

  /** The blocks that are kept, in order. */
  function KeptBlocks(blocks: seq<string>): (r: seq<string>)
    ensures |r| <= |blocks|
    ensures forall i :: 0 <= i < |r| ==> Kept(r[i])
  {
    if blocks == [] then []
    else if Kept(blocks[0]) then [blocks[0]] + KeptBlocks(blocks[1..])
    else KeptBlocks(blocks[1..])
  }

  /** The kept blocks are exactly the blocks of the input that are kept. */
  lemma {:induction false} KeptBlocksExact(blocks: seq<string>, b: string)
    ensures b in KeptBlocks(blocks) <==> b in blocks && Kept(b)
  {
    if blocks != [] {
      KeptBlocksExact(blocks[1..], b);
      assert blocks == [blocks[0]] + blocks[1..];
    }
  }

  /** Filtering consecutive runs of blocks filters each run, keeping the
      order of the blocks and how often each occurs. */
  lemma {:induction false} KeptBlocksAppend(a: seq<string>, b: seq<string>)
    ensures KeptBlocks(a + b) == KeptBlocks(a) + KeptBlocks(b)
    decreases |a|
  {
    if a == [] {
      assert a + b == b;
    } else {
      assert (a + b)[0] == a[0] && (a + b)[1..] == a[1..] + b;
      KeptBlocksAppend(a[1..], b);
    }
  }

  /** No block of the chunk throws in `JSON.parse`. */
  predicate AllParse(blocks: seq<string>, parse: string -> Option<Value>)
  {
    forall k :: 0 <= k < |blocks| ==> !DecodeBlock(blocks[k], parse).Malformed?
  }

  /** `AllParse` of a non-empty sequence, one block at a time. */
  lemma AllParseCons(blocks: seq<string>, parse: string -> Option<Value>)
    requires blocks != []
    ensures AllParse(blocks, parse) <==>
      !DecodeBlock(blocks[0], parse).Malformed? && AllParse(blocks[1..], parse)
  {
    if !DecodeBlock(blocks[0], parse).Malformed? && AllParse(blocks[1..], parse) {
      forall k | 0 <= k < |blocks| ensures !DecodeBlock(blocks[k], parse).Malformed? {
        if k > 0 {
          assert blocks[k] == blocks[1..][k - 1];
        }
      }
    }
  }

  /** The `map(...).filter(Boolean)` pipeline inside the `try`: the events of
      the kept blocks in block order, or `None` when some block throws. */
  function DecodeBlocks(blocks: seq<string>, parse: string -> Option<Value>): (r: Option<seq<Event>>)
    ensures r.Some? <==> AllParse(blocks, parse)
    ensures r.Some? ==> |r.value| == |KeptBlocks(blocks)|
    ensures r.Some? ==> forall i :: 0 <= i < |r.value| ==>
      DecodeBlock(KeptBlocks(blocks)[i], parse) == Decoded(r.value[i])
  {
    if blocks == [] then Some([])
    else
      AllParseCons(blocks, parse);
      match DecodeBlock(blocks[0], parse)
      case Malformed => None
      case Skipped =>
        assert KeptBlocks(blocks) == KeptBlocks(blocks[1..]);
        DecodeBlocks(blocks[1..], parse)
      case Decoded(e) =>
        assert KeptBlocks(blocks) == [blocks[0]] + KeptBlocks(blocks[1..]);
        match DecodeBlocks(blocks[1..], parse)
        case None => None
        case Some(es) => Some([e] + es)
  }

  /** `parseEventStream(chunk)`: one event per kept block, in block order;
      if any kept block's data line fails to parse, the caught exception
      makes the whole chunk yield no events. */
  function ParseEventStream(chunk: string, parse: string -> Option<Value>): (events: seq<Event>)
    ensures AllParse(Blocks(chunk), parse) ==>
      && |events| == |KeptBlocks(Blocks(chunk))|
      && forall i :: 0 <= i < |events| ==>
           DecodeBlock(KeptBlocks(Blocks(chunk))[i], parse) == Decoded(events[i])
    ensures !AllParse(Blocks(chunk), parse) ==> events == []
  {
    DecodeBlocks(Blocks(chunk), parse).GetOr([])
  }

  /** A string with no line break. */
  predicate NoNewline(s: string)
  {
    forall k :: 0 <= k < |s| ==> s[k] != '\n'
  }

  /** A string with no two consecutive line breaks. */
  predicate NoBlankLine(s: string)
  {
    forall j :: 0 <= j < |s| - 1 ==> !(s[j] == '\n' && s[j + 1] == '\n')
  }

  /** The text of one well-formed event block. */
  function EventText(kind: string, payload: string): string
  {
    TYPE_PREFIX + kind + "\n" + DATA_PREFIX + payload
  }

  lemma NoBlankLineNoDelimiter(s: string)
    requires NoBlankLine(s)
    ensures IndexOf(s, EVENT_DELIMITER).None?
  {
    forall j | 0 <= j < |s|
      ensures !OccursAt(s, EVENT_DELIMITER, j)
    {
      if j + 2 <= |s| {
        assert s[j..j + 2] == [s[j], s[j + 1]];
      }
    }
  }

  lemma DelimiterAfterBlock(s: string)
    requires NoBlankLine(s) && (|s| == 0 || s[|s| - 1] != '\n')
    ensures SeparatorFirstAtEnd(s, EVENT_DELIMITER)
  {
    var t := s + EVENT_DELIMITER;
    assert OccursAt(t, EVENT_DELIMITER, |s|);
    forall j | 0 <= j < |s|
      ensures !OccursAt(t, EVENT_DELIMITER, j)
    {
      if j + 1 < |s| {
        assert t[j..j + 2] == [s[j], s[j + 1]];
      } else {
        assert t[j..j + 2] == [s[j], '\n'];
      }
    }
    IndexOfIsFirst(t, EVENT_DELIMITER, |s|);
  }

  /** The block text of a well-formed event has its only line break between
      the type line and the data line. */
  lemma EventTextShape(kind: string, payload: string)
    requires NoNewline(kind) && NoNewline(payload)
    ensures NoBlankLine(EventText(kind, payload))
    ensures EventText(kind, payload)[|EventText(kind, payload)| - 1] != '\n'
    ensures Split(EventText(kind, payload), "\n") == [TYPE_PREFIX + kind, DATA_PREFIX + payload]
  {
    var a, b := TYPE_PREFIX + kind, DATA_PREFIX + payload;
    var s := EventText(kind, payload);
    assert s == a + "\n" + b;
    assert NoNewline(a) && NoNewline(b);
    forall j | 0 <= j < |s| - 1
      ensures !(s[j] == '\n' && s[j + 1] == '\n')
    {
      if j < |a| {
        assert s[j] == a[j];
      } else if j == |a| {
        assert s[j + 1] == b[0];
      } else {
        assert s[j] == b[j - |a| - 1];
      }
    }
    assert s[|s| - 1] == b[|b| - 1];
    assert Join([a, b], "\n") == s;
    SplitOnChar([a, b], '\n');
  }

  /** A well-formed event block decodes to its type and its parsed payload. */
  lemma DecodeEventText(kind: string, payload: string, parse: string -> Option<Value>)
    requires NoNewline(kind) && NoNewline(payload)
    ensures DecodeBlock(EventText(kind, payload), parse) ==
      match parse(payload)
      case None => Malformed
      case Some(v) => Decoded(Event(kind, v))
  {
    EventTextShape(kind, payload);
    StripLeading(TYPE_PREFIX, kind);
    StripLeading(DATA_PREFIX, payload);
  }

  /** A chunk that is one event block without a trailing `\n\n` is still
      decoded as one block and yields its event. */
  lemma SingleBlockWithoutDelimiter(kind: string, payload: string, parse: string -> Option<Value>)
    requires NoNewline(kind) && NoNewline(payload)
    requires parse(payload).Some?
    ensures ParseEventStream(EventText(kind, payload), parse) == [Event(kind, parse(payload).value)]
  {
    var s := EventText(kind, payload);
    EventTextShape(kind, payload);
    NoBlankLineNoDelimiter(s);
    assert Blocks(s) == [s];
    DecodeEventText(kind, payload, parse);
    assert KeptBlocks([s]) == [s];
  }

  /** Two well-formed events separated by `\n\n` decode to both events in
      order; if either payload fails to parse, the chunk yields nothing. */
  lemma TwoEvents(k1: string, p1: string, k2: string, p2: string, parse: string -> Option<Value>)
    requires NoNewline(k1) && NoNewline(p1) && NoNewline(k2) && NoNewline(p2)
    ensures var chunk := EventText(k1, p1) + EVENT_DELIMITER + EventText(k2, p2);
      ParseEventStream(chunk, parse) ==
        if parse(p1).Some? && parse(p2).Some?
        then [Event(k1, parse(p1).value), Event(k2, parse(p2).value)]
        else []
  {
    var b1, b2 := EventText(k1, p1), EventText(k2, p2);
    TwoBlocks(k1, p1, k2, p2);
    DecodeEventText(k1, p1, parse);
    DecodeEventText(k2, p2, parse);
    if parse(p1).Some? && parse(p2).Some? {
      assert AllParse([b1, b2], parse);
    } else {
      assert !AllParse([b1, b2], parse) by {
        if parse(p1).None? {
          assert DecodeBlock([b1, b2][0], parse).Malformed?;
        } else {
          assert DecodeBlock([b1, b2][1], parse).Malformed?;
        }
      }
    }
  }

  /** Two events joined by the delimiter are two blocks, both kept. */
  lemma TwoBlocks(k1: string, p1: string, k2: string, p2: string)
    requires NoNewline(k1) && NoNewline(p1) && NoNewline(k2) && NoNewline(p2)
    ensures var b1, b2 := EventText(k1, p1), EventText(k2, p2);
      Blocks(b1 + EVENT_DELIMITER + b2) == [b1, b2] && KeptBlocks([b1, b2]) == [b1, b2]
  {
    var b1, b2 := EventText(k1, p1), EventText(k2, p2);
    EventTextShape(k1, p1);
    EventTextShape(k2, p2);
    DelimiterAfterBlock(b1);
    NoBlankLineNoDelimiter(b2);
    assert Separable([b1, b2], EVENT_DELIMITER);
    assert Join([b1, b2], EVENT_DELIMITER) == b1 + EVENT_DELIMITER + b2;
    SplitJoin([b1, b2], EVENT_DELIMITER);
    KeptPair(k1, p1, k2, p2);
  }

  /** Two event texts are both kept. */
  lemma KeptPair(k1: string, p1: string, k2: string, p2: string)
    requires NoNewline(k1) && NoNewline(p1) && NoNewline(k2) && NoNewline(p2)
    ensures KeptBlocks([EventText(k1, p1), EventText(k2, p2)]) == [EventText(k1, p1), EventText(k2, p2)]
  {
    var b1, b2 := EventText(k1, p1), EventText(k2, p2);
    EventTextShape(k1, p1);
    EventTextShape(k2, p2);
    assert [b1, b2][1..] == [b2];
    assert KeptBlocks([b2]) == [b2];
  }

  /** An event whose type line and data line arrive in two separate chunks
      is lost: neither chunk yields it, although the two chunks joined would. */
  lemma EventSplitAcrossChunksIsLost(kind: string, payload: string, parse: string -> Option<Value>)
    requires NoNewline(kind) && NoNewline(payload)
    requires parse(payload).Some?
    ensures ParseEventStream(TYPE_PREFIX + kind + "\n", parse) == []
    ensures ParseEventStream(DATA_PREFIX + payload, parse) == []
    ensures ParseEventStream((TYPE_PREFIX + kind + "\n") + (DATA_PREFIX + payload), parse) != []
  {
    var c1, c2 := TYPE_PREFIX + kind + "\n", DATA_PREFIX + payload;
    var a := TYPE_PREFIX + kind;
    assert NoNewline(a);
    // The first chunk: a type line followed by an empty data line.
    assert NoBlankLine(c1) by {
      forall j | 0 <= j < |c1| - 1
        ensures !(c1[j] == '\n' && c1[j + 1] == '\n')
      {
        assert c1[j] == a[j];
      }
    }
    NoBlankLineNoDelimiter(c1);
    assert Blocks(c1) == [c1];
    assert Join([a, ""], "\n") == c1;
    SplitOnChar([a, ""], '\n');
    assert !Kept(c1);
    assert KeptBlocks([c1]) == [];
    // The second chunk: a single line.
    assert NoNewline(c2);
    assert NoBlankLine(c2);
    NoBlankLineNoDelimiter(c2);
    assert Blocks(c2) == [c2];
    NoCharNoOccurrence(c2, '\n');
    assert Split(c2, "\n") == [c2];
    assert !Kept(c2);
    assert KeptBlocks([c2]) == [];
    // Joined, they form one well-formed block.
    assert c1 + c2 == EventText(kind, payload);
    SingleBlockWithoutDelimiter(kind, payload, parse);
  }
}
