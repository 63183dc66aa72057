/** pplx_sdk/streaming/parser.py: classification of one server-sent-events
    line, and the decoding of an event's data with its plain-text fallback. */
module Parser {
  import opened Wrappers
  import opened Text
  import opened Json

  /** The `(field, value)` pair the parser returns; `(None, None)` for a
      line it does not accept. */
  datatype FieldValue = FieldValue(field: Option<string>, value: Option<string>)

  const NoField := FieldValue(None, None)

  /** `parse_sse_line`: blank lines and colon-free lines give `(None, None)`,
      a leading colon makes a comment, otherwise the text before the first
      colon is the field and the rest, left-trimmed, the value. */
  function ParseSseLine(line: string): FieldValue {
    var s := Strip(line);
    if s == [] then NoField
    else if s[0] == ':' then FieldValue(Some("comment"), Some(LStrip(s[1..])))
    else if ':' in s then
      var (f, v) := Partition(s, ':');
      FieldValue(Some(f), Some(LStrip(v)))
    else NoField
  }

  /** A blank or whitespace-only line is not an SSE field. */
  lemma BlankLine(line: string)
    requires AllSpace(line)
    ensures ParseSseLine(line) == NoField
  {
  }

  /** A line that is a comment once stripped yields the comment text with
      its leading whitespace removed. */
  lemma CommentLine(line: string)
    requires Strip(line) != [] && Strip(line)[0] == ':'
    ensures ParseSseLine(line) == FieldValue(Some("comment"), Some(LStrip(Strip(line)[1..])))
  {
  }

  /** A stripped line has no whitespace at either end. */
  lemma StripEnds(line: string)
    ensures var s := Strip(line); s == [] || (!IsSpace(s[0]) && !IsSpace(s[|s| - 1]))
  {
    var l := LStrip(line);
    var s := RStrip(l);
    assert s == Strip(line);
    if s != [] {
      assert l != [] && s[0] == l[0];
    }
  }

  /** A field line splits at its first colon: the field is non-empty and
      colon-free, the value carries no whitespace at either end, and the
      stripped line is the field, a colon, some whitespace and the value. */
  lemma {:induction false} FieldLine(line: string)
    requires var s := Strip(line); s != [] && s[0] != ':' && ':' in s
    ensures var r := ParseSseLine(line);
      && r.field.Some? && r.value.Some?
      && r.field.value != [] && ':' !in r.field.value
      && Strip(r.value.value) == r.value.value
      && exists ws :: AllSpace(ws) && Strip(line) == r.field.value + ":" + ws + r.value.value
  {
    var s := Strip(line);
    StripEnds(line);
    var (f, v) := Partition(s, ':');
    assert ParseSseLine(line) == FieldValue(Some(f), Some(LStrip(v)));
    ValueTrimmed(s, f, v);
    ValueShape(s, f, v);
  }

  /** The value part of a trimmed line, once left-stripped, is trimmed too. */
  lemma ValueTrimmed(s: string, f: string, v: string)
    requires s == f + ":" + v
    requires !IsSpace(s[|s| - 1])
    ensures Strip(LStrip(v)) == LStrip(v)
  {
    var val := LStrip(v);
    if val != [] {
      assert v[|v| - 1] == s[|s| - 1];
      assert val[|val| - 1] == v[|v| - 1];
      StripOfTrimmed(val);
    }
  }

  /** What left-stripping the value removes is whitespace. */
  lemma ValueShape(s: string, f: string, v: string)
    requires s == f + ":" + v
    ensures exists ws :: AllSpace(ws) && s == f + ":" + ws + LStrip(v)
  {
    var val := LStrip(v);
    var ws := v[..|v| - |val|];
    assert AllSpace(ws);
    assert v == ws + val;
    SplitAfter(f + ":", ws, val);
    assert s == f + ":" + ws + val;
  }

  /** A non-blank, non-comment line without a colon is rejected. */
  lemma NoColonLine(line: string)
    requires var s := Strip(line); s != [] && s[0] != ':' && ':' !in s
    ensures ParseSseLine(line) == NoField
  {
  }

  /** The comment `":x"` and the field line `"comment:x"` cannot be told
      apart from the parser's result. */
  lemma CommentIsCommentField(x: string)
    ensures ParseSseLine(":" + x) == ParseSseLine("comment:" + x)
  {
    CommentText(x);
    CommentFieldText(x);
  }

  lemma CommentText(x: string)
    ensures ParseSseLine(":" + x) == FieldValue(Some("comment"), Some(LStrip(RStrip(x))))
  {
    var ra := RStrip(x);
    StripAfterPrefix(":", x);
    var s := Strip(":" + x);
    assert s == ":" + ra;
    assert s != [] && s[0] == ':';
    assert s[1..] == ra;
  }

  lemma CommentFieldText(x: string)
    ensures ParseSseLine("comment:" + x) == FieldValue(Some("comment"), Some(LStrip(RStrip(x))))
  {
    assert "comment:" + x == "comment" + ":" + x;
    FieldText("comment", x);
  }

  /** A line made of a colon-free field name without surrounding
      whitespace, a colon and a value parses to that field and the value
      with its surrounding whitespace removed. */
  lemma FieldText(f: string, x: string)
    requires f != [] && ':' !in f && !IsSpace(f[0]) && !IsSpace(f[|f| - 1])
    ensures ParseSseLine(f + ":" + x) == FieldValue(Some(f), Some(LStrip(RStrip(x))))
  {
    var p := f + ":";
    var ra := RStrip(x);
    StripAfterPrefix(p, x);
    var s := Strip(p + x);
    assert s == f + [':'] + ra;
    assert s[0] == f[0] && f[0] != ':';
    PartitionOf(f, ':', ra);
    assert Partition(s, ':') == (f, ra);
  }

  lemma SplitAfter(p: string, a: string, b: string)
    ensures p + (a + b) == p + a + b
  {
  }

  /** `parse_sse_data`: the decoded value, or `{"text": data}` when the
      data is not JSON. It never fails. */
  function ParseSseData(data: string, decode: Decoder): (r: Json)
    ensures decode(data).Some? ==> r == decode(data).value
    ensures decode(data).None? ==> r == JObj(map["text" := JStr(data)])
  {
    match decode(data)
    case Some(v) => v
    case None => JObj(map["text" := JStr(data)])
  }

  /** Undecodable data is never lost: the original string can be read back
      from the fallback object. */
  lemma DataRecoverable(data: string, decode: Decoder)
    requires decode(data).None?
    ensures var r := ParseSseData(data, decode); r.JObj? && OptStr(r.fields, "text") == Success(Some(data))
  {
  }
}
