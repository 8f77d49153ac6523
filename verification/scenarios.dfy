/** Concrete frames worked through the whole factory: an event with one field of
    each kind, an unparsable retry, repeated data lines and a bare separator. Each
    pins down an edge case of the line and field rules on an actual input. */
module Scenarios {
  import opened Wrappers
  import opened Seqs
  import opened Constants
  import opened Int32Parsing
  import opened Messages
  import opened MessageFactory
  import opened ParsingStrategy

  /** A line `name: value` whose name classifies as `kind`. */
  lemma KnownLine(line: string, name: string, value: string, kind: FieldKind)
    requires NameValueSeparator !in name
    requires line == name + [NameValueSeparator] + value
    requires Classify(name) == kind
    ensures LineKind(line) == kind && LineValue(line) == value
  {
    FieldSplitIsUnique(line, name, value);
  }

  lemma DataFieldKey()
    ensures Classify("data") == DataField
  {
  }

  lemma IdFieldKey()
    ensures Classify("id") == IdField
  {
  }

  lemma EventFieldKey()
    ensures Classify("event") == EventField
  {
  }

  lemma RetryFieldKey()
    ensures Classify("retry") == RetryField
  {
  }

  lemma EventLine()
    ensures LineKind("event: update") == EventField && LineValue("event: update") == " update"
  {
    EventFieldKey();
    KnownLine("event: update", "event", " update", EventField);
  }

  lemma IdLine()
    ensures LineKind("id: 1") == IdField && LineValue("id: 1") == " 1"
  {
    IdFieldKey();
    KnownLine("id: 1", "id", " 1", IdField);
  }

  lemma DataLine()
    ensures LineKind("data: hello") == DataField && LineValue("data: hello") == " hello"
  {
    DataFieldKey();
    KnownLine("data: hello", "data", " hello", DataField);
  }

  /** The lines a frame of three lines leaves: the separator adds two empty ones. */
  lemma JoinThreeLines(a: string, b: string, c: string)
    ensures Join([a, b, c, "", ""]) == a + "\n" + b + "\n" + c + "\n\n"
  {
    var lines := [a, b, c, "", ""];
    assert lines[1..] == [b, c, "", ""];
    assert [b, c, "", ""][1..] == [c, "", ""];
    assert [c, "", ""][1..] == ["", ""];
    assert ["", ""][1..] == [""];
    assert Join(["", ""]) == "\n";
    assert Join([c, "", ""]) == c + "\n\n";
    assert Join([b, c, "", ""]) == b + "\n" + c + "\n\n";
  }

  lemma UpdateFrameLines()
    ensures Split("event: update\nid: 1\ndata: hello\n\n") == ["event: update", "id: 1", "data: hello", "", ""]
  {
    JoinThreeLines("event: update", "id: 1", "data: hello");
    assert "event: update" + "\n" + "id: 1" + "\n" + "data: hello" + "\n\n"
           == "event: update\nid: 1\ndata: hello\n\n";
    SplitJoin(["event: update", "id: 1", "data: hello", "", ""]);
  }

  /** Three lines of three different known kinds, then the two empty lines. */
  lemma ThreeLinesOfKinds(a: string, b: string, c: string, kind: FieldKind)
    requires LineKind(a) != LineKind(b) && LineKind(b) != LineKind(c) && LineKind(a) != LineKind(c)
    requires kind != UnknownField
    ensures FieldValues([a, b, c, "", ""], kind)
            == if LineKind(a) == kind then [LineValue(a)]
               else if LineKind(b) == kind then [LineValue(b)]
               else if LineKind(c) == kind then [LineValue(c)]
               else []
  {
    EmptyLine();
    FieldValuesOfFive([a, b, c, "", ""], kind);
  }

  /** A frame with one event, one id and one data line; the values keep their leading space. */
  lemma UpdateFrame()
    ensures CreateFromRawMessage("event: update\nid: 1\ndata: hello\n\n")
            == EventMessage(" update", " 1", 3000, [" hello"])
  {
    UpdateFrameLines();
    EventLine();
    IdLine();
    DataLine();
    ThreeLinesOfKinds("event: update", "id: 1", "data: hello", DataField);
    ThreeLinesOfKinds("event: update", "id: 1", "data: hello", IdField);
    ThreeLinesOfKinds("event: update", "id: 1", "data: hello", EventField);
    ThreeLinesOfKinds("event: update", "id: 1", "data: hello", RetryField);
  }

  /** The values of a kind in three, four and five lines, head by head. */
  lemma FieldValuesOfThree(lines: seq<string>, kind: FieldKind)
    requires |lines| == 3
    ensures FieldValues(lines, kind)
            == HeadValues(lines[0], kind) + (HeadValues(lines[1], kind) + HeadValues(lines[2], kind))
  {
    var t1, t2 := lines[1..], lines[2..];
    assert t1[1..] == t2;
    FieldValuesCons(lines, kind);
    FieldValuesCons(t1, kind);
    FieldValuesCons(t2, kind);
    assert FieldValues(t2, kind) == HeadValues(lines[2], kind);
  }

  lemma FieldValuesOfFour(lines: seq<string>, kind: FieldKind)
    requires |lines| == 4
    ensures FieldValues(lines, kind)
            == HeadValues(lines[0], kind) + (HeadValues(lines[1], kind)
               + (HeadValues(lines[2], kind) + HeadValues(lines[3], kind)))
  {
    FieldValuesCons(lines, kind);
    FieldValuesOfThree(lines[1..], kind);
  }

  lemma FieldValuesOfFive(lines: seq<string>, kind: FieldKind)
    requires |lines| == 5
    ensures FieldValues(lines, kind)
            == HeadValues(lines[0], kind) + (HeadValues(lines[1], kind) + (HeadValues(lines[2], kind)
               + (HeadValues(lines[3], kind) + HeadValues(lines[4], kind))))
  {
    FieldValuesCons(lines, kind);
    FieldValuesOfFour(lines[1..], kind);
  }

  lemma AbcIsNoInteger()
    ensures TryParse(" abc") == None
  {
    TrimWhiteOfConcat(" ", "abc", "");
    assert " " + "abc" + "" == " abc";
  }

  lemma RetryAbcLine()
    ensures LineKind("retry: abc") == RetryField && LineValue("retry: abc") == " abc"
  {
    RetryFieldKey();
    KnownLine("retry: abc", "retry", " abc", RetryField);
  }

  lemma RetryAbcLines()
    ensures Split("retry: abc\n\n") == ["retry: abc", "", ""]
  {
    var lines := ["retry: abc", "", ""];
    assert Join(lines) == "retry: abc\n\n";
    SplitJoin(lines);
  }

  /** An unparsable retry gives the default. */
  lemma RetryAbcFrame()
    ensures CreateFromRawMessage("retry: abc\n\n") == EmptyMessage
  {
    var lines := ["retry: abc", "", ""];
    RetryAbcLines();
    RetryAbcLine();
    AbcIsNoInteger();
    FieldValuesOfThree(lines, DataField);
    FieldValuesOfThree(lines, IdField);
    FieldValuesOfThree(lines, EventField);
    FieldValuesOfThree(lines, RetryField);
  }

  lemma DataALine()
    ensures LineKind("data: a") == DataField && LineValue("data: a") == " a"
  {
    DataFieldKey();
    KnownLine("data: a", "data", " a", DataField);
  }

  lemma DataBLine()
    ensures LineKind("data: b") == DataField && LineValue("data: b") == " b"
  {
    DataFieldKey();
    KnownLine("data: b", "data", " b", DataField);
  }

  lemma TwoDataLines()
    ensures Split("data: a\ndata: b\n\n") == ["data: a", "data: b", "", ""]
  {
    var lines := ["data: a", "data: b", "", ""];
    assert Join(lines) == "data: a\ndata: b\n\n";
    SplitJoin(lines);
  }

  lemma EmptyLine()
    ensures LineKind("") == UnknownField
  {
    assert TryExtractMessageField("") == None;
  }

  /** Two lines of one known kind, then the two empty lines the frame separator leaves. */
  lemma TwoLinesOfKind(a: string, b: string, kind: FieldKind)
    requires LineKind(a) == kind && LineKind(b) == kind && kind != UnknownField
    ensures FieldValues([a, b, "", ""], kind) == [LineValue(a), LineValue(b)]
  {
    EmptyLine();
    FieldValuesOfFour([a, b, "", ""], kind);
  }

  lemma TwoDataData(lines: seq<string>)
    requires lines == ["data: a", "data: b", "", ""]
    ensures FieldValues(lines, DataField) == [" a", " b"]
  {
    DataALine();
    DataBLine();
    TwoLinesOfKind("data: a", "data: b", DataField);
  }

  lemma TwoDataOthers(lines: seq<string>, kind: FieldKind)
    requires lines == ["data: a", "data: b", "", ""] && kind != DataField && kind != UnknownField
    ensures FieldValues(lines, kind) == []
  {
    DataALine();
    DataBLine();
    EmptyLine();
    FieldValuesOfFour(lines, kind);
  }

  lemma TwoDataValues(lines: seq<string>)
    requires lines == ["data: a", "data: b", "", ""]
    ensures FieldValues(lines, DataField) == [" a", " b"]
    ensures FieldValues(lines, IdField) == []
    ensures FieldValues(lines, EventField) == []
    ensures FieldValues(lines, RetryField) == []
  {
    TwoDataData(lines);
    TwoDataOthers(lines, IdField);
    TwoDataOthers(lines, EventField);
    TwoDataOthers(lines, RetryField);
  }

  /** Two data lines give two data entries, in order. */
  lemma TwoDataLinesFrame()
    ensures CreateFromRawMessage("data: a\ndata: b\n\n") == EventMessage("", "", 3000, [" a", " b"])
  {
    TwoDataLines();
    TwoDataValues(["data: a", "data: b", "", ""]);
  }

  lemma BareSeparatorFrame()
    ensures CreateFromRawMessage(FrameSeparator) == EmptyMessage
  {
    var lines := ["", "", ""];
    assert Join(lines) == FrameSeparator;
    SplitJoin(lines);
    FieldValuesOfThree(lines, DataField);
    FieldValuesOfThree(lines, IdField);
    FieldValuesOfThree(lines, EventField);
    FieldValuesOfThree(lines, RetryField);
  }

  /** A bare separator is one frame, and gives one event with every default. */
  lemma BareSeparator()
    ensures ExtractCompleteMessageFromCache(FrameSeparator) == Extraction([EmptyMessage], "")
  {
    BareSeparatorFrame();
    assert IsFrame(FrameSeparator);
    assert !HasSeparator("");
    assert Concat([FrameSeparator]) + "" == FrameSeparator;
    DrainUnique(FrameSeparator, [FrameSeparator], "");
  }
}
