/** Building one event from one raw frame: the frame is split into lines at every
    line separator, each line is split into a name and a value at its first colon,
    and the recognised fields are folded, line by line, into an event record. */
module MessageFactory {
  import opened Wrappers
  import opened Seqs
  import opened Constants
  import opened Int32Parsing
  import opened Messages

  /** The character between a field's name and its value. */
  const NameValueSeparator: char := ':'

  /** The event of a frame that carries no recognised field. */
  const EmptyMessage: EventMessage := EventMessage("", "", DefaultRetry as int32, [])

  /** Ordinal `IndexOf(char)`: the position of the first `c` in `s`. */
  function IndexOf(s: string, c: char): (r: Option<nat>)
    ensures r.None? <==> c !in s
    ensures r.Some? ==> r.value < |s| && s[r.value] == c && c !in s[..r.value]
  {
    if |s| == 0 then None
    else if s[0] == c then Some(0)
    else
      match IndexOf(s[1..], c)
      case None => None
      case Some(i) =>
        assert s[..i + 1] == [s[0]] + s[1..][..i];
        Some(i + 1)
  }

  lemma IndexOfFirst(s: string, c: char, i: nat)
    requires i < |s| && s[i] == c && c !in s[..i]
    ensures IndexOf(s, c) == Some(i)
  {
  }

  /** The lines joined back with the line separator between them. */
  function Join(lines: seq<string>): string
    decreases |lines|
  {
    if |lines| == 0 then ""
    else if |lines| == 1 then lines[0]
    else lines[0] + [LineSeparator] + Join(lines[1..])
  }

  /** `string.Split('\n')` without options: every piece, empty ones included. */
  function Split(s: string): (lines: seq<string>)
    ensures |lines| > 0
    ensures forall k :: 0 <= k < |lines| ==> LineSeparator !in lines[k]
    ensures Join(lines) == s
    decreases |s|
  {
    match IndexOf(s, LineSeparator)
    case None => [s]
    case Some(i) =>
      var rest := Split(s[i + 1..]);
      assert ([s[..i]] + rest)[1..] == rest;
      assert s == s[..i] + [LineSeparator] + s[i + 1..];
      [s[..i]] + rest
  }

  /** Splitting undoes joining: `Split` recovers every list of separator-free lines. */
  lemma {:induction false} SplitJoin(lines: seq<string>)
    requires |lines| > 0
    requires forall k :: 0 <= k < |lines| ==> LineSeparator !in lines[k]
    ensures Split(Join(lines)) == lines
    decreases |lines|
  {
    if |lines| > 1 {
      var s := Join(lines);
      var tail := lines[1..];
      assert s == lines[0] + [LineSeparator] + Join(tail);
      assert s[..|lines[0]|] == lines[0];
      IndexOfFirst(s, LineSeparator, |lines[0]|);
      assert s[|lines[0]| + 1..] == Join(tail);
      SplitJoin(tail);
      assert lines == [lines[0]] + tail;
    }
  }

  /** A line split at its first colon. */
  datatype Field = Field(name: string, value: string)

  /** The name before the first colon and the value after it, verbatim; `None`
      when the line has no colon. */
  function TryExtractMessageField(line: string): (r: Option<Field>)
    ensures r.None? <==> NameValueSeparator !in line
    ensures r.Some? ==> line == r.value.name + [NameValueSeparator] + r.value.value
    ensures r.Some? ==> NameValueSeparator !in r.value.name
  {
    match IndexOf(line, NameValueSeparator)
    case None => None
    case Some(i) =>
      var value := if |line| > i + 1 then line[i + 1..] else "";
      assert line == line[..i] + [NameValueSeparator] + value;
      Some(Field(line[..i], value))
  }

  lemma FieldSplitIsUnique(line: string, name: string, value: string)
    requires NameValueSeparator !in name
    requires line == name + [NameValueSeparator] + value
    ensures TryExtractMessageField(line) == Some(Field(name, value))
  {
    assert line[..|name|] == name;
    IndexOfFirst(line, NameValueSeparator, |name|);
    assert line[|name| + 1..] == value;
  }

  function ToLowerAscii(c: char): char {
    if 'A' <= c <= 'Z' then (c as int + 32) as char else c
  }

  function Lower(s: string): string {
    seq(|s|, i requires 0 <= i < |s| => ToLowerAscii(s[i]))
  }

  /** Case-insensitive ordinal equality, with ASCII case folding. */
  predicate EqualsIgnoreCase(a: string, b: string) {
    |a| == |b| && forall i :: 0 <= i < |a| ==> ToLowerAscii(a[i]) == ToLowerAscii(b[i])
  }

  lemma EqualsLowerCaseKey(key: string, name: string)
    requires Lower(key) == key
    ensures EqualsIgnoreCase(key, name) <==> Lower(name) == key
  {
    if EqualsIgnoreCase(key, name) {
      assert forall i :: 0 <= i < |key| ==> Lower(name)[i] == Lower(key)[i];
    }
    if Lower(name) == key {
      assert forall i :: 0 <= i < |key| ==> ToLowerAscii(key[i]) == Lower(key)[i];
    }
  }

  /** Which extractor a field name selects. */
  datatype FieldKind = DataField | IdField | EventField | RetryField | UnknownField

  /** The extractors tried in order, data, id, event, retry; the first whose key
      matches is the only one that fires. */
  function Classify(name: string): (k: FieldKind)
    ensures k == DataField <==> Lower(name) == DataKey
    ensures k == IdField <==> Lower(name) == IdKey
    ensures k == EventField <==> Lower(name) == EventKey
    ensures k == RetryField <==> Lower(name) == RetryKey
  {
    assert Lower(DataKey) == DataKey && Lower(IdKey) == IdKey;
    assert Lower(EventKey) == EventKey && Lower(RetryKey) == RetryKey;
    EqualsLowerCaseKey(DataKey, name);
    EqualsLowerCaseKey(IdKey, name);
    EqualsLowerCaseKey(EventKey, name);
    EqualsLowerCaseKey(RetryKey, name);
    if EqualsIgnoreCase(DataKey, name) then DataField
    else if EqualsIgnoreCase(IdKey, name) then IdField
    else if EqualsIgnoreCase(EventKey, name) then EventField
    else if EqualsIgnoreCase(RetryKey, name) then RetryField
    else UnknownField
  }

  /** The value a `retry` field sets: the parsed integer, or the default on failure. */
  function RetryValue(value: string): int32 {
    TryParse(value).GetOr(DefaultRetry as int32)
  }

  /** A retry value in the integer grammar gives its value when that fits in 32
      bits, and the default otherwise. */
  lemma RetryValueOfText(lead: string, sign: string, digits: string, trail: string)
    requires IntegerText(lead, sign, digits, trail)
    ensures var v := SignedValue(sign, digits);
            RetryValue(lead + sign + digits + trail)
            == if MinInt32 <= v <= MaxInt32 then v as int32 else DefaultRetry as int32
  {
    TryParseComplete(lead, sign, digits, trail);
  }

  /** A retry other than the default comes only from a value in the grammar. */
  lemma RetryValueSound(value: string)
    ensures RetryValue(value) != DefaultRetry as int32 ==>
              exists i, j, k :: 0 <= i <= j <= k <= |value|
                && IntegerText(value[..i], value[i..j], value[j..k], value[k..])
                && RetryValue(value) as int == SignedValue(value[i..j], value[j..k])
  {
    TryParseSound(value);
  }

  /** The number of the four record fields in which `a` and `b` differ. */
  function ChangedFields(a: EventMessage, b: EventMessage): nat {
    (if a.event != b.event then 1 else 0) + (if a.id != b.id then 1 else 0)
    + (if a.retry != b.retry then 1 else 0) + (if a.data != b.data then 1 else 0)
  }

  /** One iteration of the loop over a frame's lines. */
  function ApplyLine(acc: EventMessage, line: string): (r: EventMessage)
    ensures NameValueSeparator !in line ==> r == acc
    ensures |line| > 0 && line[0] == NameValueSeparator ==> r == acc
    ensures ChangedFields(acc, r) <= 1
  {
    match TryExtractMessageField(line)
    case None => acc
    case Some(f) =>
      assert |line| > 0 && line[0] == NameValueSeparator ==> f.name == "";
      match Classify(f.name)
      case DataField => acc.(data := acc.data + [f.value])
      case IdField => acc.(id := f.value)
      case EventField => acc.(event := f.value)
      case RetryField => acc.(retry := RetryValue(f.value))
      case UnknownField => acc
  }

  /** The kind of field a line is; a line without a colon is of no kind. */
  function LineKind(line: string): FieldKind {
    match TryExtractMessageField(line)
    case None => UnknownField
    case Some(f) => Classify(f.name)
  }

  function LineValue(line: string): string {
    match TryExtractMessageField(line)
    case None => ""
    case Some(f) => f.value
  }

  /** The values of the lines of the given kind, in line order. */
  function FieldValues(lines: seq<string>, kind: FieldKind): (values: seq<string>)
    ensures |values| <= |lines|
    decreases |lines|
  {
    if |lines| == 0 then []
    else (if LineKind(lines[0]) == kind then [LineValue(lines[0])] else []) + FieldValues(lines[1..], kind)
  }

  /** Lines of other kinds only contribute no values. */
  lemma {:induction false} FieldValuesNoneOfKind(lines: seq<string>, kind: FieldKind)
    requires forall k :: 0 <= k < |lines| ==> LineKind(lines[k]) != kind
    ensures FieldValues(lines, kind) == []
    decreases |lines|
  {
    if |lines| > 0 {
      assert forall k :: 0 <= k < |lines| - 1 ==> lines[1..][k] == lines[k + 1];
      FieldValuesNoneOfKind(lines[1..], kind);
    }
  }

  /** What one line does to each field of the accumulator. */
  lemma ApplyLineEffect(acc: EventMessage, line: string)
    ensures ApplyLine(acc, line).data
            == acc.data + if LineKind(line) == DataField then [LineValue(line)] else []
    ensures ApplyLine(acc, line).id == if LineKind(line) == IdField then LineValue(line) else acc.id
    ensures ApplyLine(acc, line).event
            == if LineKind(line) == EventField then LineValue(line) else acc.event
    ensures ApplyLine(acc, line).retry
            == if LineKind(line) == RetryField then RetryValue(LineValue(line)) else acc.retry
  {
  }

  /** The loop over a frame's lines, from the accumulator `acc`. */
  function FoldLines(acc: EventMessage, lines: seq<string>): EventMessage
    decreases |lines|
  {
    if |lines| == 0 then acc
    else FoldLines(ApplyLine(acc, lines[0]), lines[1..])
  }

  /** The head line's share of `FieldValues`. */
  function HeadValues(line: string, kind: FieldKind): seq<string> {
    if LineKind(line) == kind then [LineValue(line)] else []
  }

  lemma FieldValuesCons(lines: seq<string>, kind: FieldKind)
    requires |lines| > 0
    ensures FieldValues(lines, kind) == HeadValues(lines[0], kind) + FieldValues(lines[1..], kind)
  {
  }

  /** Folding appends the value of every data line, in line order. */
  lemma {:induction false} FoldLinesData(acc: EventMessage, lines: seq<string>)
    ensures FoldLines(acc, lines).data == acc.data + FieldValues(lines, DataField)
    decreases |lines|
  {
    if |lines| > 0 {
      var next := ApplyLine(acc, lines[0]);
      ApplyLineEffect(acc, lines[0]);
      FoldLinesData(next, lines[1..]);
      FieldValuesCons(lines, DataField);
    }
  }

  /** Folding keeps the value of the last id line. */
  lemma {:induction false} FoldLinesId(acc: EventMessage, lines: seq<string>)
    ensures FoldLines(acc, lines).id == LastOr(FieldValues(lines, IdField), acc.id)
    decreases |lines|
  {
    if |lines| > 0 {
      var next := ApplyLine(acc, lines[0]);
      ApplyLineEffect(acc, lines[0]);
      FoldLinesId(next, lines[1..]);
      FieldValuesCons(lines, IdField);
      LastOrConcat(HeadValues(lines[0], IdField), FieldValues(lines[1..], IdField), acc.id);
    }
  }

  /** Folding keeps the value of the last event line. */
  lemma {:induction false} FoldLinesEvent(acc: EventMessage, lines: seq<string>)
    ensures FoldLines(acc, lines).event == LastOr(FieldValues(lines, EventField), acc.event)
    decreases |lines|
  {
    if |lines| > 0 {
      var next := ApplyLine(acc, lines[0]);
      ApplyLineEffect(acc, lines[0]);
      FoldLinesEvent(next, lines[1..]);
      FieldValuesCons(lines, EventField);
      LastOrConcat(HeadValues(lines[0], EventField), FieldValues(lines[1..], EventField), acc.event);
    }
  }

  /** The retry after the given retry values, starting from `current`. */
  function RetryAfter(current: int32, values: seq<string>): int32 {
    if |values| == 0 then current else RetryValue(values[|values| - 1])
  }

  lemma RetryAfterConcat(current: int32, front: seq<string>, back: seq<string>)
    ensures RetryAfter(current, front + back) == RetryAfter(RetryAfter(current, front), back)
  {
    if |back| > 0 {
      assert (front + back)[|front + back| - 1] == back[|back| - 1];
    } else {
      assert front + back == front;
    }
  }

  lemma ApplyLineRetry(acc: EventMessage, line: string)
    ensures ApplyLine(acc, line).retry == RetryAfter(acc.retry, HeadValues(line, RetryField))
  {
    ApplyLineEffect(acc, line);
  }

  /** Folding takes the value of the last retry line, valid or not. */
  lemma {:induction false} FoldLinesRetry(acc: EventMessage, lines: seq<string>)
    ensures FoldLines(acc, lines).retry == RetryAfter(acc.retry, FieldValues(lines, RetryField))
    decreases |lines|
  {
    if |lines| > 0 {
      var line, tail := lines[0], lines[1..];
      var next := ApplyLine(acc, line);
      calc {
        FoldLines(acc, lines).retry;
        FoldLines(next, tail).retry;
        { FoldLinesRetry(next, tail); }
        RetryAfter(next.retry, FieldValues(tail, RetryField));
        { ApplyLineRetry(acc, line); }
        RetryAfter(RetryAfter(acc.retry, HeadValues(line, RetryField)), FieldValues(tail, RetryField));
        { RetryAfterConcat(acc.retry, HeadValues(line, RetryField), FieldValues(tail, RetryField)); }
        RetryAfter(acc.retry, HeadValues(line, RetryField) + FieldValues(tail, RetryField));
        { FieldValuesCons(lines, RetryField); }
        RetryAfter(acc.retry, FieldValues(lines, RetryField));
      }
    }
  }

  /** `CreateFromRawMessage`: the event of one raw frame. */
  function CreateFromRawMessage(message: string): (r: EventMessage)
    ensures var lines := Split(message);
            && r.data == FieldValues(lines, DataField)
            && r.id == LastOr(FieldValues(lines, IdField), "")
            && r.event == LastOr(FieldValues(lines, EventField), "")
            && r.retry == RetryAfter(DefaultRetry as int32, FieldValues(lines, RetryField))
  {
    var lines := Split(message);
    FoldLinesData(EmptyMessage, lines);
    FoldLinesId(EmptyMessage, lines);
    FoldLinesEvent(EmptyMessage, lines);
    FoldLinesRetry(EmptyMessage, lines);
    FoldLines(EmptyMessage, lines)
  }

  /** A frame none of whose lines is a recognised field gives the default event. */
  lemma UnrecognisedFrameIsEmpty(message: string)
    requires forall k :: 0 <= k < |Split(message)| ==> LineKind(Split(message)[k]) == UnknownField
    ensures CreateFromRawMessage(message) == EmptyMessage
  {
    var lines := Split(message);
    FieldValuesNoneOfKind(lines, DataField);
    FieldValuesNoneOfKind(lines, IdField);
    FieldValuesNoneOfKind(lines, EventField);
    FieldValuesNoneOfKind(lines, RetryField);
  }
}
