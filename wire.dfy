/** The per-tick records the host and the client exchange in `update_online`:
    decimal integers separated by commas, ended by a newline. */
module Wire {
  import opened Wrappers
  import opened Strings

  /** The decimal text of each value, in order. */
  function Texts(values: seq<int>): (texts: seq<string>)
    ensures |texts| == |values|
    ensures forall i :: 0 <= i < |values| ==> texts[i] == IntToString(values[i])
  {
    seq(|values|, i requires 0 <= i < |values| => IntToString(values[i]))
  }

  /** A record as the f-strings of `update_online` build it. */
  function EncodeRecord(values: seq<int>): string
  {
    Join(Texts(values), ',') + "\n"
  }

  /** `line.strip().split(",")`: the fields a side reads out of a received line. */
  function Fields(line: string): (fields: seq<string>)
    ensures |fields| >= 1
  {
    Split(Strip(line), ',')
  }

  /** `int(fields[i])`, with `None` for the IndexError of a missing field and
      the ValueError of a field that is not an integer. */
  function FieldInt(fields: seq<string>, i: nat): Option<int>
  {
    if i < |fields| then ParseInt(fields[i]) else None
  }

  lemma {:induction false} JoinNoSpace(fields: seq<string>, sep: char)
    requires forall k :: 0 <= k < |fields| ==> NoSpace(fields[k])
    requires !IsSpace(sep)
    ensures NoSpace(Join(fields, sep))
    decreases |fields|
  {
    if |fields| > 1 {
      JoinNoSpace(fields[1..], sep);
    }
  }

  /** A received record splits back into the decimal texts that were sent. */
  lemma FieldsOfRecord(values: seq<int>)
    requires |values| >= 1
    ensures Fields(EncodeRecord(values)) == Texts(values)
  {
    var texts := Texts(values);
    var body := Join(texts, ',');
    JoinNoSpace(texts, ',');
    assert Trimmed(StrBlanks, body);
    StripPadded([], body, "\n");
    assert [] + body + "\n" == EncodeRecord(values);
    SplitJoin(texts, ',');
  }

  /** Decoding a record field by field gives back every value encoded,
      negative ones included, and there is no field beyond them. */
  lemma DecodeEncode(values: seq<int>)
    requires |values| >= 1
    ensures |Fields(EncodeRecord(values))| == |values|
    ensures forall i :: 0 <= i < |values| ==> FieldInt(Fields(EncodeRecord(values)), i) == Some(values[i])
  {
    FieldsOfRecord(values);
    forall i | 0 <= i < |values|
      ensures FieldInt(Fields(EncodeRecord(values)), i) == Some(values[i])
    {
      ParseIntToString(values[i]);
    }
  }

}
