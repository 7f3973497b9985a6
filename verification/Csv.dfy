/** The printing of comma-separated values, and a reader following section 2 of RFC 4180 with LF as the
    record end. */
module Csv {
  import opened Types

  predicate IsSpecial(c: char) {
    c == '"' || c == ',' || c == '\n' || c == '\r'
  }

  /** Text that needs no quoting. */
  predicate Plain(s: string) {
    forall i :: 0 <= i < |s| ==> !IsSpecial(s[i])
  }

  // ---- Printing ----------------------------------------------------------------------------------

  /** Every quote is written twice. */
  function Doubled(s: string): string {
    if s == "" then ""
    else Doubled(s[..|s| - 1]) + (if s[|s| - 1] == '"' then "\"\"" else [s[|s| - 1]])
  }

  function Escaped(s: string): string {
    if Plain(s) then s else "\"" + Doubled(s) + "\""
  }

  method CsvEscape(value: string) returns (out: string)
    ensures out == Escaped(value)
  {
    var quote := false;
    for i := 0 to |value|
      invariant quote == !Plain(value[..i])
    {
      assert value[..i + 1][i] == value[i] && value[..i + 1][..i] == value[..i];
      if IsSpecial(value[i]) {
        quote := true;
        break;
      }
    }
    assert value[..|value|] == value;
    if !quote {
      return value;
    }
    out := "\"";
    for i := 0 to |value|
      invariant out == "\"" + Doubled(value[..i])
    {
      assert value[..i + 1][..i] == value[..i];
      if value[i] == '"' {
        out := out + "\"";
      }
      out := out + [value[i]];
    }
    out := out + "\"";
  }

  /** The fields of a record with commas between them. */
  function Joined(fields: seq<string>): string
    requires fields != []
  {
    if |fields| == 1 then Escaped(fields[0]) else Escaped(fields[0]) + "," + Joined(fields[1..])
  }

  function Line(fields: seq<string>): string
    requires fields != []
  {
    Joined(fields) + "\n"
  }

  type Record = fields: seq<string> | fields != [] witness [""]

  /** The text of a file with these records. */
  function Text(records: seq<Record>): string {
    if records == [] then "" else Line(records[0]) + Text(records[1..])
  }

  // ---- Reading -----------------------------------------------------------------------------------

  datatype Read<+T> = Read(value: T, rest: string) | Malformed

  /** A field in quotes, after the opening quote. */
  function ReadQuoted(s: string): (r: Read<string>)
    ensures r.Read? ==> |r.value| + |r.rest| < |s|
  {
    if s == "" then Malformed
    else if s[0] == '"' && |s| > 1 && s[1] == '"' then
      match ReadQuoted(s[2..])
      case Read(value, rest) => Read("\"" + value, rest)
      case Malformed => Malformed
    else if s[0] == '"' then Read("", s[1..])
    else
      match ReadQuoted(s[1..])
      case Read(value, rest) => Read([s[0]] + value, rest)
      case Malformed => Malformed
  }

  /** A field without quotes ends at a comma or at the end of its record. */
  function ReadBare(s: string): (r: Read<string>)
    ensures r.Read? ==> s == r.value + r.rest && Plain(r.value)
  {
    if s == "" || s[0] == ',' || s[0] == '\n' then Read("", s)
    else if s[0] == '"' || s[0] == '\r' then Malformed
    else
      match ReadBare(s[1..])
      case Read(value, rest) => Read([s[0]] + value, rest)
      case Malformed => Malformed
  }

  function ReadField(s: string): (r: Read<string>)
    ensures r.Read? ==> |r.rest| <= |s|
  {
    if s != "" && s[0] == '"' then ReadQuoted(s[1..]) else ReadBare(s)
  }

  /** The last record of a file may lack its LF. */
  function ReadRecord(s: string): (r: Read<Record>)
    ensures r.Read? ==> |r.rest| <= |s| && (s != "" ==> |r.rest| < |s|)
    decreases |s|
  {
    match ReadField(s)
    case Malformed => Malformed
    case Read(value, rest) =>
      if rest == "" then Read([value], "")
      else if rest[0] == '\n' then Read([value], rest[1..])
      else if rest[0] != ',' then Malformed
      else
        match ReadRecord(rest[1..])
        case Read(values, after) => Read([value] + values, after)
        case Malformed => Malformed
  }

  function ReadText(s: string): Option<seq<Record>>
    decreases |s|
  {
    if s == "" then Some([])
    else
      match ReadRecord(s)
      case Malformed => None
      case Read(record, rest) =>
        match ReadText(rest)
        case Some(records) => Some([record] + records)
        case None => None
  }

  // ---- What is printed is read back --------------------------------------------------------------

  predicate EndsField(rest: string) {
    rest == "" || rest[0] == ',' || rest[0] == '\n'
  }

  lemma {:induction false} DoubledFirst(s: string)
    requires s != ""
    ensures Doubled(s) == (if s[0] == '"' then "\"\"" else [s[0]]) + Doubled(s[1..])
  {
    if |s| > 1 {
      var before := s[..|s| - 1];
      DoubledFirst(before);
      assert before[1..] == s[1..][..|s| - 2];
    }
  }

  lemma QuotedChar(c: char, doubled: string, rest: string)
    ensures
      var printed := (if c == '"' then "\"\"" else [c]) + doubled + "\"" + rest;
      ReadQuoted(printed) ==
      match ReadQuoted(doubled + "\"" + rest)
      case Read(value, after) => Read([c] + value, after)
      case Malformed => Malformed
  {
    var printed := (if c == '"' then "\"\"" else [c]) + doubled + "\"" + rest;
    assert printed[if c == '"' then 2 else 1..] == doubled + "\"" + rest;
  }

  lemma {:induction false} QuotedReadsBack(s: string, rest: string)
    requires EndsField(rest)
    ensures ReadQuoted(Doubled(s) + "\"" + rest) == Read(s, rest)
  {
    if s == "" {
      assert (Doubled(s) + "\"" + rest)[1..] == rest;
    } else {
      DoubledFirst(s);
      QuotedReadsBack(s[1..], rest);
      QuotedChar(s[0], Doubled(s[1..]), rest);
      assert [s[0]] + s[1..] == s;
    }
  }

  lemma {:induction false} PlainReadsBack(s: string, rest: string)
    requires Plain(s) && EndsField(rest)
    ensures ReadBare(s + rest) == Read(s, rest)
  {
    if s == "" {
      assert s + rest == rest;
    } else {
      PlainReadsBack(s[1..], rest);
      assert (s + rest)[1..] == s[1..] + rest;
      assert (s + rest)[0] == s[0];
      assert [s[0]] + s[1..] == s;
    }
  }

  lemma FieldReadsBack(s: string, rest: string)
    requires EndsField(rest)
    ensures ReadField(Escaped(s) + rest) == Read(s, rest)
  {
    hide ReadBare;
    hide ReadQuoted;
    hide Doubled;
    if Plain(s) {
      PlainReadsBack(s, rest);
      assert s != "" ==> (s + rest)[0] == s[0];
    } else {
      QuotedReadsBack(s, rest);
      assert (Escaped(s) + rest)[1..] == Doubled(s) + "\"" + rest;
    }
  }

  /** A field may go unquoted exactly when it is plain, so the quotes are never superfluous. */
  lemma UnquotedReadsBackIff(s: string, rest: string)
    requires EndsField(rest)
    ensures ReadField(s + rest) == Read(s, rest) <==> Plain(s)
  {
    if Plain(s) {
      FieldReadsBack(s, rest);
    }
  }

  lemma Grouped(a: string, b: string, rest: string)
    ensures a + "," + b + "\n" + rest == a + ("," + (b + "\n" + rest))
  {
  }

  lemma {:induction false} RecordReadsBack(fields: Record, rest: string)
    ensures ReadRecord(Line(fields) + rest) == Read(fields, rest)
  {
    hide Escaped;
    hide ReadField;
    if |fields| == 1 {
      FieldReadsBack(fields[0], "\n" + rest);
      assert Line(fields) + rest == Escaped(fields[0]) + ("\n" + rest);
      assert fields == [fields[0]];
    } else {
      var tail := Line(fields[1..]) + rest;
      FieldReadsBack(fields[0], "," + tail);
      RecordReadsBack(fields[1..], rest);
      Grouped(Escaped(fields[0]), Joined(fields[1..]), rest);
      assert ("," + tail)[1..] == tail;
      assert [fields[0]] + fields[1..] == fields;
    }
  }

  /** A file is read back as exactly the records written to it, whatever text their fields hold. */
  lemma {:induction false} TextReadsBack(records: seq<Record>)
    ensures ReadText(Text(records)) == Some(records)
  {
    if records != [] {
      RecordReadsBack(records[0], Text(records[1..]));
      TextReadsBack(records[1..]);
      assert [records[0]] + records[1..] == records;
    }
  }

  lemma {:induction false} TextSnoc(records: seq<Record>, last: Record)
    ensures Text(records + [last]) == Text(records) + Line(last)
  {
    hide Line;
    if records == [] {
      assert [last][1..] == [];
    } else {
      TextSnoc(records[1..], last);
      assert (records + [last])[1..] == records[1..] + [last];
    }
  }
}
