/** Concrete device lines and command sequences, and what the model of
    reader.py proves it does with them. float() is a parameter of the model,
    so each scenario names the values it gives on the fields that occur. */
module Scenarios {
  import opened LineFormat
  import opened Reader

  /** The fields of a line such as 5000000,5000000,1.0,2.0: four fields free
      of separators that float() reads as the scaled coordinates 5000000 and
      5000000 and the channel values 1.0 and 2.0. */
  predicate TypicalFields(conv: Conv, fields: seq<string>)
  {
    && |fields| == |TypicalValues| && AllPlain(fields)
    && forall i :: 0 <= i < |fields| ==> conv(fields[i]) == Some(TypicalValues[i])
  }

  const TypicalValues: seq<real> := [5000000.0, 5000000.0, 1.0, 2.0]

  /** Whatever separates them, these four fields make an accepted record. */
  lemma TypicalFieldsAccepted(conv: Conv, fields: seq<string>, line: string)
    requires TypicalFields(conv, fields)
    requires "," !in Tokens(line) && Fields(Tokens(line)) == fields
    ensures ClassifyLine(4, conv, line) == Accept(Record(5000000.0, 5000000.0, [1.0, 2.0]))
  {
    assert ClassifyLine(4, conv, line).Accept? by {
      assert Numeric(conv, fields);
      ClassifyLineCases(4, conv, line);
    }
    AcceptedValues(4, conv, line);
    var raw := ClassifyLine(4, conv, line).raw;
    assert raw.values == [raw.values[0], raw.values[1]];
  }

  /** Such a line, comma-separated with the terminators readline leaves, is
      accepted by a reader configured for four columns, and parse_coords
      scales its coordinates back to 0.5 degrees. */
  lemma TypicalLineAccepted(conv: Conv, fields: seq<string>)
    requires TypicalFields(conv, fields)
    ensures ClassifyLine(4, conv, JoinWith(fields, ",") + "\r\n") == Accept(Record(5000000.0, 5000000.0, [1.0, 2.0]))
    ensures ParseCoords(5000000.0, 5000000.0) == (0.5, 0.5)
  {
    var line := JoinWith(fields, ",");
    CommaSeparatedRoundTrip(fields);
    TypicalFieldsAccepted(conv, fields, line);
    TerminatorsIgnored(4, conv, line, "\r\n");
  }

  /** The same fields separated by spaces are accepted alike. */
  lemma SpacedLineAccepted(conv: Conv, fields: seq<string>)
    requires TypicalFields(conv, fields)
    ensures ClassifyLine(4, conv, JoinWith(fields, " ")) == Accept(Record(5000000.0, 5000000.0, [1.0, 2.0]))
  {
    SpaceSeparatedRoundTrip(fields);
    TypicalFieldsAccepted(conv, fields, JoinWith(fields, " "));
  }

  /** Three numeric fields, however separated, are one too few for four
      columns. */
  lemma ShortFieldsSkipped(conv: Conv, fields: seq<string>, line: string)
    requires |fields| == 3 && Numeric(conv, fields)
    requires "," !in Tokens(line) && Fields(Tokens(line)) == fields
    ensures ClassifyLine(4, conv, line) == Skip
  {
    ClassifyLineCases(4, conv, line);
  }

  /** A line with one value too few, such as 5000000,5000000,1.0, is skipped,
      not an error. */
  lemma ShortLineSkipped(conv: Conv, fields: seq<string>)
    requires |fields| == 3 && AllPlain(fields)
    requires forall i :: 0 <= i < |fields| ==> conv(fields[i]).Some?
    ensures ClassifyLine(4, conv, JoinWith(fields, ",") + "\r\n") == Skip
  {
    var line := JoinWith(fields, ",");
    CommaSeparatedRoundTrip(fields);
    ShortFieldsSkipped(conv, fields, line);
    TerminatorsIgnored(4, conv, line, "\r\n");
  }

  /** The empty line that a timed-out readline returns has no fields, so it is
      skipped unless columns_num is 0: then its length matches and
      parse_coords, given no arguments, raises TypeError. */
  lemma BlankLineRaisesWithoutColumns(columns: nat, conv: Conv)
    ensures ClassifyLine(columns, conv, "") == Fail(TypeError) <==> columns == 0
    ensures columns > 0 ==> ClassifyLine(columns, conv, "") == Skip
  {
    assert Tokens("") == [""];
    assert Fields([""]) == [];
    ClassifyLineCases(columns, conv, "");
  }

  /** A non-numeric field makes float() raise before the number of fields is
      compared with the configuration, so a line such as 5000000,x raises
      ValueError for the first such field whatever the number of columns,
      instead of being skipped. */
  lemma GarbledFieldRaises(columns: nat, conv: Conv, fields: seq<string>, k: nat)
    requires |fields| > 0 && AllPlain(fields)
    requires k < |fields| && conv(fields[k]) == None
    requires forall i :: 0 <= i < k ==> conv(fields[i]).Some?
    ensures ClassifyLine(columns, conv, JoinWith(fields, ",")) == Fail(ValueError(fields[k]))
  {
    CommaSeparatedRoundTrip(fields);
  }

  /** A deque of maxlen 3 that was given 1, 2, 3, 4 holds 2, 3, 4. */
  lemma WindowOfThree()
    ensures Feed([], [1.0, 2.0, 3.0, 4.0], 3) == [2.0, 3.0, 4.0]
  {
    FeedKeepsLastN([], [1.0, 2.0, 3.0, 4.0], 3);
    assert LastN([1.0, 2.0, 3.0, 4.0], 3) == [2.0, 3.0, 4.0];
  }

  /** data_to_send on a fresh reader whose device sends the typical line:
      the coordinates, the two channel values in the first two deques and
      the last two deques, which parse_line never feeds, empty. */
  lemma TypicalQuery(conv: Conv, fields: seq<string>)
    requires TypicalFields(conv, fields)
    ensures var cfg := Config(4, 3, conv);
      Query(cfg, Initial(cfg, [Line(JoinWith(fields, ",") + "\r\n")])).0
        == Done(Sent(0.5, 0.5, [[1.0], [2.0], [], []]))
  {
    var cfg := Config(4, 3, conv);
    var st := Initial(cfg, [Line(JoinWith(fields, ",") + "\r\n")]);
    assert Next(cfg, st).0 == Done(Record(0.5, 0.5, [1.0, 2.0])) by {
      TypicalLineAccepted(conv, fields);
      assert ScanLines(Classify(4, conv), st.input) == Scan(Done(Record(5000000.0, 5000000.0, [1.0, 2.0])), 1);
    }
    assert st.windows == [[], [], [], []];
    FirstPush();
  }

  /** Two values pushed into four empty deques of maxlen 3 land in the first
      two. */
  lemma FirstPush()
    ensures PushAll([[], [], [], []], [1.0, 2.0], 3) == [[1.0], [2.0], [], []]
  {
    var pushed := PushAll([[], [], [], []], [1.0, 2.0], 3);
    assert pushed[0] == Append([], 1.0, 3) == [1.0];
    assert pushed[1] == Append([], 2.0, 3) == [2.0];
  }

  /** The whole exchange for one DATA query on the typical line followed by
      EXIT: OK, then that snapshot, then nothing more. */
  lemma OneQuery(conv: Conv, fields: seq<string>)
    requires TypicalFields(conv, fields)
    ensures Run(Config(4, 3, conv), true, [Line(JoinWith(fields, ",") + "\r\n")], [Data, Exit])
         == Served([Ok, DataReply(Sent(0.5, 0.5, [[1.0], [2.0], [], []]))], Closed)
  {
    var cfg := Config(4, 3, conv);
    var st := Initial(cfg, [Line(JoinWith(fields, ",") + "\r\n")]);
    var sent := Sent(0.5, 0.5, [[1.0], [2.0], [], []]);
    var st' := Query(cfg, st).1;
    assert Serve(cfg, st, [Data, Exit]) == Served([DataReply(sent)], Closed) by {
      TypicalQuery(conv, fields);
      ServeFirst(cfg, st, [Data, Exit]);
      assert [Data, Exit][1..] == [Exit];
      ServeFirst(cfg, st', [Exit]);
    }
  }

  /** A read failure while serving a DATA query is reported with the message
      the open failure uses, and the reader thread ends with exit(-1). */
  lemma ReadFailureAborts(conv: Conv)
    ensures Run(Config(4, 3, conv), true, [ReadError], [Data, Exit])
         == Served([Ok, ErrorReply(OpenFailure)], Aborted)
  {
    var cfg := Config(4, 3, conv);
    var st := Initial(cfg, [ReadError]);
    assert Next(cfg, st).0 == Raised(SerialError);
  }
}
