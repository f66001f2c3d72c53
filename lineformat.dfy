/** The line protocol shared by both readers: how one decoded device line is
    normalised, split into tokens, checked and turned into a raw record
    (coordinates still scaled by 10^7), and how the reading loop skips lines
    until one is accepted. */
module LineFormat {

  datatype Option<T> = None | Some(value: T)

  /** Python's float() applied to one field: None where float() would raise
      ValueError. It is a parameter of the model, not a definition of it. */
  type Conv = string -> Option<real>

  /** The exceptions that leave parse_line: ValueError from float(), TypeError
      from parse_coords getting fewer than two arguments, and
      serial.SerialException from readline. */
  datatype Fault = ValueError(token: string) | TypeError | SerialError

  /** One call of readline on the device: a decoded line, or a read failure. */
  datatype DeviceRead = Line(text: string) | ReadError

  datatype Record = Record(lat: real, lon: real, values: seq<real>)

  /** What parse_line decides about one line. */
  datatype LineResult = Skip | Fail(fault: Fault) | Accept(raw: Record)

  /** How a call that reads lines until it gets a record ends: with the record,
      with an exception, or with the device input used up (on the real device
      readline keeps timing out and the loop never returns). */
  datatype Outcome<T> = Done(value: T) | Raised(fault: Fault) | Starved

  /** The verdict of the reading loop and the number of device reads it used. */
  datatype Scan = Scan(result: Outcome<Record>, used: nat)

  datatype Converted = Numbers(values: seq<real>) | NotANumber(token: string)

  const Terminators: set<char> := {'\r', '\n'}
  const Commas: set<char> := {','}

  // ---------------------------------------------------------------------------
  // Python's str.strip(chars)
  // ---------------------------------------------------------------------------

  /** Removes the longest prefix made of characters of cs. */
  function StripLeft(s: string, cs: set<char>): (r: string)
    ensures |r| <= |s|
    ensures forall i :: 0 <= i < |s| - |r| ==> s[i] in cs
    ensures r == [] || r[0] !in cs
    decreases |s|
  {
    if s != [] && s[0] in cs then StripLeft(s[1..], cs) else s
  }

  /** Removes the longest suffix made of characters of cs. */
  function StripRight(s: string, cs: set<char>): (r: string)
    ensures |r| <= |s|
    ensures forall i :: |r| <= i < |s| ==> s[i] in cs
    ensures r == [] || r[|r| - 1] !in cs
    decreases |s|
  {
    if s != [] && s[|s| - 1] in cs then StripRight(s[..|s| - 1], cs) else s
  }

  /** str.strip(cs): what is left neither starts nor ends with a character of cs. */
  function Strip(s: string, cs: set<char>): (r: string)
    ensures |r| <= |s|
    ensures r == [] || (r[0] !in cs && r[|r| - 1] !in cs)
  {
    var left := StripLeft(s, cs);
    StripRightPrefix(left, cs);
    StripRight(left, cs)
  }

  /** What StripLeft keeps is a suffix of its argument. */
  lemma {:induction false} StripLeftSuffix(s: string, cs: set<char>)
    ensures StripLeft(s, cs) == s[|s| - |StripLeft(s, cs)|..]
    decreases |s|
  {
    if s != [] && s[0] in cs {
      StripLeftSuffix(s[1..], cs);
      assert s[1..][|s| - 1 - |StripLeft(s, cs)|..] == s[|s| - |StripLeft(s, cs)|..];
    }
  }

  /** What StripRight keeps is a prefix of its argument. */
  lemma {:induction false} StripRightPrefix(s: string, cs: set<char>)
    ensures StripRight(s, cs) == s[..|StripRight(s, cs)|]
    decreases |s|
  {
    if s != [] && s[|s| - 1] in cs {
      StripRightPrefix(s[..|s| - 1], cs);
      assert s[..|s| - 1][..|StripRight(s, cs)|] == s[..|StripRight(s, cs)|];
    }
  }

  // ---------------------------------------------------------------------------
  // replace(",", ", ")
  // ---------------------------------------------------------------------------

  /** Every comma is immediately followed by a space. */
  predicate CommasSpaced(s: string)
  {
    forall j :: 0 <= j < |s| && s[j] == ',' ==> j + 1 < |s| && s[j + 1] == ' '
  }

  function SpaceCommas(s: string): (r: string)
    ensures CommasSpaced(r)
    ensures ContractCommas(r) == s
  {
    if s == [] then []
    else
      var rest := SpaceCommas(s[1..]);
      assert rest == [] || rest[0] != ' ' || s[1] == ' ';
      if s[0] == ',' then ", " + rest else [s[0]] + rest
  }

  /** Reference inverse of SpaceCommas: drops the space after each comma. */
  function ContractCommas(r: string): string
  {
    if r == [] then []
    else if r[0] == ',' && |r| >= 2 && r[1] == ' ' then "," + ContractCommas(r[2..])
    else [r[0]] + ContractCommas(r[1..])
  }

  // ---------------------------------------------------------------------------
  // replace("  ", " "): one left-to-right pass over non-overlapping pairs
  // ---------------------------------------------------------------------------

  /** The characters of s other than spaces, in order. */
  function NonSpaces(s: string): string
  {
    if s == [] then [] else (if s[0] == ' ' then [] else [s[0]]) + NonSpaces(s[1..])
  }

  function CollapseSpaces(s: string): (r: string)
    ensures |r| <= |s|
    ensures s != [] && s[0] == ' ' ==> r != [] && r[0] == ' '
    decreases |s|
  {
    if |s| >= 2 && s[0] == ' ' && s[1] == ' ' then " " + CollapseSpaces(s[2..])
    else if s == [] then []
    else [s[0]] + CollapseSpaces(s[1..])
  }

  /** k spaces. */
  function Spaces(k: nat): (r: string)
    ensures |r| == k && forall i :: 0 <= i < k ==> r[i] == ' '
  {
    seq(k, _ => ' ')
  }

  /** The single left-to-right pass halves every run of spaces, rounding up:
      a run of k spaces that ends before a non-space (or at the end) becomes
      (k + 1) / 2 spaces, and the pass goes on after it unaffected. */
  lemma {:induction false} CollapseRun(k: nat, rest: string)
    requires rest == [] || rest[0] != ' '
    ensures CollapseSpaces(Spaces(k) + rest) == Spaces((k + 1) / 2) + CollapseSpaces(rest)
    decreases k
  {
    var s := Spaces(k) + rest;
    if k == 0 {
      assert s == rest;
      assert Spaces(0) + CollapseSpaces(rest) == CollapseSpaces(rest);
    } else if k == 1 {
      assert s[1..] == rest;
      assert s == [' '] + rest;
    } else {
      var m := (k - 1) / 2;
      assert CollapseSpaces(s) == " " + CollapseSpaces(s[2..]) by {
        assert s[0] == ' ' && s[1] == ' ';
      }
      assert s[2..] == Spaces(k - 2) + rest;
      CollapseRun(k - 2, rest);
      SpacesFront(m);
      Regroup(" ", Spaces(m), CollapseSpaces(rest));
    }
  }

  lemma SpacesFront(m: nat)
    ensures " " + Spaces(m) == Spaces(m + 1)
  {
  }

  /** Collapsing only ever deletes spaces. */
  lemma {:induction false} CollapseKeepsNonSpaces(s: string)
    ensures NonSpaces(CollapseSpaces(s)) == NonSpaces(s)
    decreases |s|
  {
    if |s| >= 2 && s[0] == ' ' && s[1] == ' ' {
      CollapseKeepsNonSpaces(s[2..]);
      assert NonSpaces(s) == NonSpaces(s[1..]) == NonSpaces(s[2..]);
      assert NonSpaces(" " + CollapseSpaces(s[2..])) == NonSpaces(CollapseSpaces(s[2..])) by {
        assert (" " + CollapseSpaces(s[2..]))[1..] == CollapseSpaces(s[2..]);
      }
    } else if s != [] {
      CollapseKeepsNonSpaces(s[1..]);
      var r := CollapseSpaces(s);
      assert r[1..] == CollapseSpaces(s[1..]);
    }
  }

  /** Collapsing keeps a space after every comma. */
  lemma {:induction false} CollapseKeepsCommasSpaced(s: string)
    requires CommasSpaced(s)
    ensures CommasSpaced(CollapseSpaces(s))
    decreases |s|
  {
    if |s| >= 2 && s[0] == ' ' && s[1] == ' ' {
      CollapseKeepsCommasSpaced(s[2..]);
    } else if s != [] {
      assert CommasSpaced(s[1..]);
      CollapseKeepsCommasSpaced(s[1..]);
    }
  }

  // ---------------------------------------------------------------------------
  // split(' ') and its inverse ' '.join
  // ---------------------------------------------------------------------------

  function JoinWith(parts: seq<string>, sep: string): string
    requires |parts| > 0
  {
    if |parts| == 1 then parts[0] else parts[0] + sep + JoinWith(parts[1..], sep)
  }

  /** A token never holds a comma except as its last character. */
  predicate CommaLast(t: string)
  {
    forall j :: 0 <= j < |t| - 1 ==> t[j] != ','
  }

  function SplitSpaces(s: string): (r: seq<string>)
    ensures |r| >= 1
    ensures forall k :: 0 <= k < |r| ==> ' ' !in r[k]
    ensures JoinWith(r, " ") == s
    ensures s != [] && s[0] == ' ' ==> r[0] == ""
    ensures CommasSpaced(s) ==> forall k :: 0 <= k < |r| ==> CommaLast(r[k])
  {
    if s == [] then [""]
    else
      var rest := SplitSpaces(s[1..]);
      assert CommasSpaced(s) ==> CommasSpaced(s[1..]);
      if s[0] == ' ' then
        [""] + rest
      else
        var r := [[s[0]] + rest[0]] + rest[1..];
        assert |rest| > 1 ==> rest == [rest[0]] + rest[1..];
        assert r[1..] == rest[1..];
        assert CommasSpaced(s) && s[0] == ',' ==> rest[0] == "";
        r
  }

  // ---------------------------------------------------------------------------
  // The whole normalisation and the conversion of the fields
  // ---------------------------------------------------------------------------

  /** strip('\r\n').replace(",", ", ").replace("  ", " ").split(' ') */
  function Tokens(line: string): (r: seq<string>)
    ensures |r| >= 1
    ensures forall k :: 0 <= k < |r| ==> ' ' !in r[k] && CommaLast(r[k])
  {
    var spaced := SpaceCommas(Strip(line, Terminators));
    CollapseKeepsCommasSpaced(spaced);
    SplitSpaces(CollapseSpaces(spaced))
  }

  /** The non-empty tokens with surrounding commas stripped, in order. */
  function Fields(tokens: seq<string>): (r: seq<string>)
    ensures |r| <= |tokens|
    ensures "" !in tokens ==>
      |r| == |tokens| && forall k :: 0 <= k < |r| ==> r[k] == Strip(tokens[k], Commas)
  {
    if tokens == [] then []
    else (if tokens[0] == "" then [] else [Strip(tokens[0], Commas)]) + Fields(tokens[1..])
  }

  /** The filter and strip work token by token. */
  lemma {:induction false} FieldsAppend(a: seq<string>, b: seq<string>)
    ensures Fields(a + b) == Fields(a) + Fields(b)
    decreases |a|
  {
    if a == [] {
      assert a + b == b;
    } else {
      assert (a + b)[1..] == a[1..] + b;
      FieldsAppend(a[1..], b);
    }
  }

  /** `if val` drops an empty token wherever it stands and keeps the rest. */
  lemma EmptyTokenDropped(a: seq<string>, b: seq<string>)
    ensures Fields(a + [""] + b) == Fields(a + b)
  {
    var t := [""] + b;
    assert t[0] == "" && t[1..] == b;
    assert Fields(t) == Fields(b);
    assert a + [""] + b == a + t;
    FieldsAppend(a, t);
    FieldsAppend(a, b);
  }

  /** float() on each field in order; the first failing field raises. */
  function Convert(conv: Conv, fields: seq<string>): (r: Converted)
    ensures r.Numbers? <==> forall i :: 0 <= i < |fields| ==> conv(fields[i]).Some?
    ensures r.Numbers? ==>
      && |r.values| == |fields|
      && forall i :: 0 <= i < |fields| ==> r.values[i] == conv(fields[i]).value
    ensures r.NotANumber? ==>
      exists i :: 0 <= i < |fields| && fields[i] == r.token && conv(fields[i]).None? &&
                  forall j :: 0 <= j < i ==> conv(fields[j]).Some?
  {
    if fields == [] then Numbers([])
    else match conv(fields[0])
      case None => NotANumber(fields[0])
      case Some(x) =>
        match Convert(conv, fields[1..])
        case Numbers(xs) => Numbers([x] + xs)
        case NotANumber(t) =>
          assert exists i :: (1 <= i < |fields| && fields[i] == t && conv(fields[i]).None? &&
                              forall j :: 0 <= j < i ==> conv(fields[j]).Some?) by {
            var i :| 0 <= i < |fields| - 1 && fields[1..][i] == t && conv(fields[1..][i]).None? &&
              forall j :: 0 <= j < i ==> conv(fields[1..][j]).Some?;
            assert fields[i + 1] == t;
            assert forall j :: 1 <= j < i + 1 ==> conv(fields[j]).Some? by {
              forall j | 1 <= j < i + 1 ensures conv(fields[j]).Some? {
                assert fields[j] == fields[1..][j - 1];
              }
            }
          }
          NotANumber(t)
  }

  /** All fields convert. */
  predicate Numeric(conv: Conv, fields: seq<string>)
  {
    forall i :: 0 <= i < |fields| ==> conv(fields[i]).Some?
  }

  /** What parse_line does with one decoded line: reject it when a bare comma
      survives normalisation, let float() raise on the first non-numeric field,
      skip it on an arity mismatch, and otherwise hand the first two numbers
      to parse_coords (which raises TypeError when there are fewer than two)
      and keep the rest as the channel values. */
  function ClassifyLine(columns: nat, conv: Conv, line: string): (r: LineResult)
    ensures r.Accept? ==> |r.raw.values| == columns - 2
  {
    var tokens := Tokens(line);
    if "," in tokens then Skip
    else
      var fields := Fields(tokens);
      match Convert(conv, fields)
      case NotANumber(t) => Fail(ValueError(t))
      case Numbers(vs) =>
        if |vs| != columns then Skip
        else if columns < 2 then Fail(TypeError)
        else Accept(Record(vs[0], vs[1], vs[2..]))
  }

  /** Every verdict of ClassifyLine, and exactly when it is given: a bare
      comma token skips the line; otherwise a field float() rejects raises
      ValueError, whatever the arity; a numeric line of the configured arity
      is accepted, or raises TypeError when the configuration has fewer than
      two columns; any other numeric line is skipped. */
  lemma ClassifyLineCases(columns: nat, conv: Conv, line: string)
    ensures var r := ClassifyLine(columns, conv, line);
      var tokens := Tokens(line);
      var fields := Fields(tokens);
      && ("," in tokens ==> r == Skip)
      && (r.Accept? <==> "," !in tokens && Numeric(conv, fields) && 2 <= columns == |fields|)
      && ((r.Fail? && r.fault.ValueError?) <==> "," !in tokens && !Numeric(conv, fields))
      && (r == Fail(TypeError) <==> "," !in tokens && Numeric(conv, fields) && columns == |fields| < 2)
      && (r == Skip <==> "," in tokens || (Numeric(conv, fields) && columns != |fields|))
  {
    var tokens := Tokens(line);
    var fields := Fields(tokens);
    var r := ClassifyLine(columns, conv, line);
    if "," in tokens {
      assert r == Skip;
    } else {
      match Convert(conv, fields)
      case NotANumber(t) =>
        assert r == Fail(ValueError(t));
      case Numbers(vs) =>
        assert Numeric(conv, fields);
        if |vs| != columns {
          assert r == Skip;
        } else if columns < 2 {
          assert r == Fail(TypeError);
        } else {
          assert r == Accept(Record(vs[0], vs[1], vs[2..]));
        }
    }
  }

  lemma PrefixNumeric(conv: Conv, fields: seq<string>, i: nat)
    requires i <= |fields|
    requires forall j :: 0 <= j < i ==> conv(fields[j]).Some?
    ensures Numeric(conv, fields[..i])
  {
    assert forall j :: 0 <= j < i ==> fields[..i][j] == fields[j];
  }

  /** An accepted line's coordinates and channel values are float() of its
      fields, in order. */
  lemma AcceptedValues(columns: nat, conv: Conv, line: string)
    requires ClassifyLine(columns, conv, line).Accept?
    ensures var raw := ClassifyLine(columns, conv, line).raw;
      var fields := Fields(Tokens(line));
      && 2 <= columns == |fields|
      && raw.lat == conv(fields[0]).value
      && raw.lon == conv(fields[1]).value
      && forall i :: 2 <= i < columns ==> raw.values[i - 2] == conv(fields[i]).value
  {
    var fields := Fields(Tokens(line));
    match Convert(conv, fields)
    case Numbers(vs) =>
      assert ClassifyLine(columns, conv, line) == Accept(Record(vs[0], vs[1], vs[2..]));
    case NotANumber(_) =>
  }

  /** ValueError names the first field float() rejects. */
  lemma ValueErrorNamesFirst(columns: nat, conv: Conv, line: string) returns (i: nat)
    requires ClassifyLine(columns, conv, line).Fail? && ClassifyLine(columns, conv, line).fault.ValueError?
    ensures var fields := Fields(Tokens(line));
      && i < |fields|
      && fields[i] == ClassifyLine(columns, conv, line).fault.token
      && conv(fields[i]).None?
      && Numeric(conv, fields[..i])
  {
    var fields := Fields(Tokens(line));
    var t := Convert(conv, fields).token;
    assert ClassifyLine(columns, conv, line) == Fail(ValueError(t));
    i :| 0 <= i < |fields| && fields[i] == t && conv(fields[i]).None? &&
      forall j :: 0 <= j < i ==> conv(fields[j]).Some?;
    PrefixNumeric(conv, fields, i);
  }

  // ---------------------------------------------------------------------------
  // The reading loop: `while True: readline ...` until a line is accepted
  // ---------------------------------------------------------------------------

  /** parse_line's decision on each line, for one configuration. */
  type Classifier = string -> LineResult

  function Classify(columns: nat, conv: Conv): Classifier
  {
    line => ClassifyLine(columns, conv, line)
  }

  /** A read the loop passes over: a line that is skipped. */
  predicate Skipped(classify: Classifier, read: DeviceRead)
  {
    read.Line? && classify(read.text) == Skip
  }

  /** The read that ends the loop, and with what. */
  predicate Decides(classify: Classifier, read: DeviceRead, o: Outcome<Record>)
  {
    match read
    case ReadError => o == Raised(SerialError)
    case Line(t) =>
      match classify(t)
      case Accept(raw) => o == Done(raw)
      case Fail(f) => o == Raised(f)
      case Skip => false
  }

  /** The loop over readline: it passes over skipped lines and stops at the
      first read that decides, reporting how many reads it used; it runs out
      of input only when every read is skipped. */
  function ScanLines(classify: Classifier, input: seq<DeviceRead>): (s: Scan)
    ensures s.used <= |input|
    ensures s.result.Starved? <==> forall k :: 0 <= k < |input| ==> Skipped(classify, input[k])
    ensures s.result.Starved? ==> s.used == |input|
    ensures !s.result.Starved? ==> 0 < s.used && Decides(classify, input[s.used - 1], s.result)
    ensures forall k :: 0 <= k < s.used - 1 ==> Skipped(classify, input[k])
  {
    if input == [] then Scan(Starved, 0)
    else match input[0]
      case ReadError => Scan(Raised(SerialError), 1)
      case Line(t) =>
        match classify(t)
        case Accept(raw) => Scan(Done(raw), 1)
        case Fail(f) => Scan(Raised(f), 1)
        case Skip =>
          var s := ScanLines(classify, input[1..]);
          assert forall k :: 1 <= k < |input| ==> input[k] == input[1..][k - 1];
          Scan(s.result, s.used + 1)
  }

  /** One log row: [lat, lon] + values. */
  function Row(rec: Record): (r: seq<real>)
    ensures |r| == |rec.values| + 2
    ensures r[0] == rec.lat && r[1] == rec.lon && r[2..] == rec.values
  {
    [rec.lat, rec.lon] + rec.values
  }

  // ---------------------------------------------------------------------------
  // What survives normalisation
  // ---------------------------------------------------------------------------

  /** On a token whose only comma can be its last character, strip(',') removes
      at most that one comma. */
  lemma StripCommasOfToken(t: string)
    requires t != "" && t != "," && CommaLast(t)
    ensures var f := Strip(t, Commas);
      f != "" && ',' !in f && (f == t || f + "," == t)
  {
    assert t[0] != ',';
    var f := Strip(t, Commas);
    assert StripLeft(t, Commas) == t;
    if t[|t| - 1] == ',' {
      assert StripRight(t, Commas) == StripRight(t[..|t| - 1], Commas);
      assert t[..|t| - 1] != [];
      assert StripRight(t[..|t| - 1], Commas) == t[..|t| - 1];
      assert f + "," == t;
    } else {
      assert f == t;
    }
  }

  /** Once no bare comma is left among the tokens, every field handed to
      float() is non-empty and holds neither a comma nor a space: strip(',')
      only ever removes the single comma that followed the field. */
  lemma {:induction false} FieldsAreBare(line: string)
    requires "," !in Tokens(line)
    ensures forall i :: 0 <= i < |Fields(Tokens(line))| ==>
      var f := Fields(Tokens(line))[i]; f != "" && ',' !in f && ' ' !in f
  {
    FieldsOfShapedTokens(Tokens(line));
  }

  lemma {:induction false} FieldsOfShapedTokens(tokens: seq<string>)
    requires forall k :: 0 <= k < |tokens| ==> tokens[k] != "," && ' ' !in tokens[k] && CommaLast(tokens[k])
    ensures forall i :: 0 <= i < |Fields(tokens)| ==>
      var f := Fields(tokens)[i]; f != "" && ',' !in f && ' ' !in f
  {
    if tokens != [] {
      FieldsOfShapedTokens(tokens[1..]);
      if tokens[0] != "" {
        StripCommasOfToken(tokens[0]);
        var f := Strip(tokens[0], Commas);
        assert ' ' !in f by {
          if f + "," == tokens[0] {
            assert forall j :: 0 <= j < |f| ==> f[j] == tokens[0][j];
          }
        }
      }
    }
  }

  // ---------------------------------------------------------------------------
  // The wire format: fields separated by commas or by spaces
  // ---------------------------------------------------------------------------

  /** A field as a device writes it: non-empty, with no separator or line
      terminator in it. */
  predicate Plain(t: string)
  {
    |t| > 0 && forall i :: 0 <= i < |t| ==> t[i] != ',' && t[i] != ' ' && t[i] != '\r' && t[i] != '\n'
  }

  predicate AllPlain(raws: seq<string>)
  {
    forall k :: 0 <= k < |raws| ==> Plain(raws[k])
  }

  /** The tokens a comma-separated line splits into: each field but the last
      keeps its comma. */
  function Trailed(raws: seq<string>): seq<string>
    requires |raws| > 0
  {
    if |raws| == 1 then raws else [raws[0] + ","] + Trailed(raws[1..])
  }

  lemma {:induction false} JoinEnds(raws: seq<string>, sep: string)
    requires |raws| > 0 && AllPlain(raws)
    ensures var j := JoinWith(raws, sep);
      j != [] && j[0] == raws[0][0] && j[|j| - 1] == raws[|raws| - 1][|raws[|raws| - 1]| - 1]
  {
    if |raws| > 1 {
      JoinEnds(raws[1..], sep);
    }
  }

  lemma PlainUnstripped(j: string)
    requires j != [] && j[0] !in Terminators && j[|j| - 1] !in Terminators
    ensures Strip(j, Terminators) == j
  {
    assert StripLeft(j, Terminators) == j;
  }

  lemma DropFront(a: string, b: string, n: nat)
    requires n <= |a|
    ensures (a + b)[n..] == a[n..] + b
  {
  }

  /** Concatenation regrouped to the left, for any element type. */
  lemma Regroup<T>(x: seq<T>, y: seq<T>, z: seq<T>)
    ensures x + (y + z) == x + y + z
  {
  }

  lemma {:induction false} SpaceCommasAppend(a: string, b: string)
    ensures SpaceCommas(a + b) == SpaceCommas(a) + SpaceCommas(b)
    decreases |a|
  {
    if a == [] {
      assert a + b == b;
    } else {
      DropFront(a, b, 1);
      SpaceCommasAppend(a[1..], b);
      var head := if a[0] == ',' then ", " else [a[0]];
      assert SpaceCommas(a) == head + SpaceCommas(a[1..]);
      assert SpaceCommas(a + b) == head + SpaceCommas(a[1..] + b);
      Regroup(head, SpaceCommas(a[1..]), SpaceCommas(b));
    }
  }

  lemma {:induction false} SpaceCommasOfPlain(a: string)
    requires forall i :: 0 <= i < |a| ==> a[i] != ','
    ensures SpaceCommas(a) == a
    decreases |a|
  {
    if a != [] {
      SpaceCommasOfPlain(a[1..]);
    }
  }

  lemma {:induction false} CollapseAppend(a: string, b: string)
    requires a == [] || a[|a| - 1] != ' '
    ensures CollapseSpaces(a + b) == CollapseSpaces(a) + CollapseSpaces(b)
    decreases |a|
  {
    if a == [] {
      assert a + b == b;
    } else if |a| >= 2 && a[0] == ' ' && a[1] == ' ' {
      DropFront(a, b, 2);
      CollapseAppend(a[2..], b);
      assert CollapseSpaces(a) == " " + CollapseSpaces(a[2..]);
      assert CollapseSpaces(a + b) == " " + CollapseSpaces(a[2..] + b);
      Regroup(" ", CollapseSpaces(a[2..]), CollapseSpaces(b));
    } else {
      DropFront(a, b, 1);
      CollapseAppend(a[1..], b);
      assert CollapseSpaces(a) == [a[0]] + CollapseSpaces(a[1..]);
      assert CollapseSpaces(a + b) == [a[0]] + CollapseSpaces(a[1..] + b);
      Regroup([a[0]], CollapseSpaces(a[1..]), CollapseSpaces(b));
    }
  }

  lemma {:induction false} CollapseOfSpaceless(a: string)
    requires forall i :: 0 <= i < |a| ==> a[i] != ' '
    ensures CollapseSpaces(a) == a
    decreases |a|
  {
    if a != [] {
      CollapseOfSpaceless(a[1..]);
    }
  }

  lemma {:induction false} SplitOfSpaceless(a: string)
    requires forall i :: 0 <= i < |a| ==> a[i] != ' '
    ensures SplitSpaces(a) == [a]
    decreases |a|
  {
    if a != [] {
      SplitOfSpaceless(a[1..]);
    }
  }

  lemma {:induction false} SplitAppend(a: string, b: string)
    requires forall i :: 0 <= i < |a| ==> a[i] != ' '
    ensures SplitSpaces(a + " " + b) == [a] + SplitSpaces(b)
    decreases |a|
  {
    if a == [] {
      assert a + " " + b == " " + b;
      assert (" " + b)[1..] == b;
    } else {
      var line := a + " " + b;
      assert line[0] == a[0];
      assert line[1..] == a[1..] + " " + b;
      SplitAppend(a[1..], b);
      var rest := SplitSpaces(line[1..]);
      assert SplitSpaces(line) == [[a[0]] + rest[0]] + rest[1..];
      assert [a[0]] + a[1..] == a;
    }
  }

  lemma CollapseLeadingSpace(rest: string)
    requires rest != [] && rest[0] != ' '
    ensures CollapseSpaces(" " + rest) == " " + CollapseSpaces(rest)
  {
    assert (" " + rest)[1..] == rest;
  }

  lemma {:induction false} CommaJoinSpaced(raws: seq<string>)
    requires |raws| > 0 && AllPlain(raws)
    ensures SpaceCommas(JoinWith(raws, ",")) == JoinWith(raws, ", ")
  {
    SpaceCommasOfPlain(raws[0]);
    if |raws| > 1 {
      CommaJoinSpaced(raws[1..]);
      var rest := JoinWith(raws[1..], ",");
      var spaced := JoinWith(raws[1..], ", ");
      assert JoinWith(raws, ",") == raws[0] + "," + rest;
      Regroup(raws[0], ",", rest);
      SpaceCommasAppend(raws[0], "," + rest);
      SpaceCommasAppend(",", rest);
      assert SpaceCommas(",") == ", ";
      assert SpaceCommas(JoinWith(raws, ",")) == raws[0] + (", " + spaced);
      assert JoinWith(raws, ", ") == raws[0] + ", " + spaced;
      Regroup(raws[0], ", ", spaced);
    }
  }

  lemma {:induction false} CollapseJoin(raws: seq<string>, sep: string)
    requires |raws| > 0 && AllPlain(raws)
    requires sep == " " || sep == ", "
    ensures CollapseSpaces(JoinWith(raws, sep)) == JoinWith(raws, sep)
  {
    if |raws| == 1 {
      CollapseOfSpaceless(raws[0]);
    } else {
      CollapseJoin(raws[1..], sep);
      var rest := JoinWith(raws[1..], sep);
      JoinEnds(raws[1..], sep);
      var head := JoinHead(raws[0], sep);
      var tail := " " + rest;
      assert JoinWith(raws, sep) == raws[0] + sep + rest;
      Regroup(head, " ", rest);
      CollapseOfSpaceless(head);
      CollapseAppend(head, tail);
      CollapseLeadingSpace(rest);
      assert CollapseSpaces(tail) == tail;
    }
  }

  /** What stands before the space that follows a field: the field itself,
      or the field and its comma. */
  function JoinHead(raw: string, sep: string): (h: string)
    requires Plain(raw) && (sep == " " || sep == ", ")
    ensures h != [] && h[|h| - 1] != ' '
    ensures forall i :: 0 <= i < |h| ==> h[i] != ' '
    ensures raw + sep == h + " "
  {
    if sep == " " then raw else raw + ","
  }

  lemma {:induction false} SplitJoin(raws: seq<string>, sep: string)
    requires |raws| > 0 && AllPlain(raws)
    requires sep == " " || sep == ", "
    ensures SplitSpaces(JoinWith(raws, sep)) == if sep == " " then raws else Trailed(raws)
  {
    if |raws| == 1 {
      SplitOfSpaceless(raws[0]);
    } else {
      SplitJoin(raws[1..], sep);
      var rest := JoinWith(raws[1..], sep);
      var head := JoinHead(raws[0], sep);
      assert JoinWith(raws, sep) == head + " " + rest;
      SplitAppend(head, rest);
    }
  }

  lemma StripPlain(r: string)
    requires Plain(r)
    ensures Strip(r, Commas) == r
  {
    assert StripLeft(r, Commas) == r;
  }

  lemma StripPlainComma(r: string)
    requires Plain(r)
    ensures Strip(r + ",", Commas) == r
  {
    var t := r + ",";
    assert StripLeft(t, Commas) == t;
    assert t[..|t| - 1] == r;
    assert StripRight(t, Commas) == StripRight(r, Commas);
    assert StripRight(r, Commas) == r;
  }

  lemma {:induction false} FieldsOfPlain(raws: seq<string>)
    requires AllPlain(raws)
    ensures Fields(raws) == raws && "," !in raws
  {
    if raws != [] {
      var head := raws[0];
      assert Plain(head);
      StripPlain(head);
      FieldsOfPlain(raws[1..]);
      assert head != "";
      assert Fields(raws) == [Strip(head, Commas)] + Fields(raws[1..]);
      assert raws == [head] + raws[1..];
      assert head[0] != ',';
    }
  }

  lemma {:induction false} FieldsOfTrailed(raws: seq<string>)
    requires |raws| > 0 && AllPlain(raws)
    ensures Fields(Trailed(raws)) == raws && "," !in Trailed(raws)
  {
    if |raws| == 1 {
      FieldsOfPlain(raws);
    } else {
      var t := Trailed(raws);
      var rest := Trailed(raws[1..]);
      assert t[0] == raws[0] + "," && t[1..] == rest && |t[0]| > 1;
      assert Fields(t) == [raws[0]] + Fields(rest) by {
        StripPlainComma(raws[0]);
      }
      FieldsOfTrailed(raws[1..]);
      assert t == [t[0]] + rest;
      assert raws == [raws[0]] + raws[1..];
    }
  }

  /** A line whose fields are written separated by commas normalises back to
      exactly those fields, with no bare comma among the tokens. */
  lemma CommaSeparatedRoundTrip(raws: seq<string>)
    requires |raws| > 0 && AllPlain(raws)
    ensures "," !in Tokens(JoinWith(raws, ","))
    ensures Fields(Tokens(JoinWith(raws, ","))) == raws
  {
    var line := JoinWith(raws, ",");
    JoinEnds(raws, ",");
    PlainUnstripped(line);
    CommaJoinSpaced(raws);
    CollapseJoin(raws, ", ");
    SplitJoin(raws, ", ");
    assert Tokens(line) == Trailed(raws);
    FieldsOfTrailed(raws);
  }

  /** The same fields separated by single spaces normalise to the same fields. */
  lemma SpaceSeparatedRoundTrip(raws: seq<string>)
    requires |raws| > 0 && AllPlain(raws)
    ensures "," !in Tokens(JoinWith(raws, " "))
    ensures Fields(Tokens(JoinWith(raws, " "))) == raws
  {
    var line := JoinWith(raws, " ");
    JoinEnds(raws, " ");
    PlainUnstripped(line);
    JoinHasNoComma(raws);
    SpaceCommasOfPlain(line);
    assert SpaceCommas(Strip(line, Terminators)) == line;
    CollapseJoin(raws, " ");
    SplitJoin(raws, " ");
    assert Tokens(line) == raws;
    FieldsOfPlain(raws);
  }

  lemma {:induction false} JoinHasNoComma(raws: seq<string>)
    requires |raws| > 0 && AllPlain(raws)
    ensures forall i :: 0 <= i < |JoinWith(raws, " ")| ==> JoinWith(raws, " ")[i] != ','
  {
    if |raws| > 1 {
      JoinHasNoComma(raws[1..]);
      var rest := JoinWith(raws[1..], " ");
      var j := JoinWith(raws, " ");
      assert j == raws[0] + " " + rest;
      forall i | 0 <= i < |j| ensures j[i] != ',' {
        if i < |raws[0]| {
          assert j[i] == raws[0][i];
        } else if i > |raws[0]| {
          assert j[i] == rest[i - |raws[0]| - 1];
        }
      }
    }
  }

  /** Terminators at the end of a line are stripped away whatever precedes them. */
  lemma {:induction false} StripRightTerminators(s: string, tail: string)
    requires forall i :: 0 <= i < |tail| ==> tail[i] in Terminators
    ensures StripRight(s + tail, Terminators) == StripRight(s, Terminators)
    decreases |tail|
  {
    if tail == [] {
      assert s + tail == s;
    } else {
      var t := tail[..|tail| - 1];
      assert (s + tail)[..|s + tail| - 1] == s + t;
      StripRightTerminators(s, t);
    }
  }

  /** Left-stripping a concatenation: once the first part has something left,
      the second part is kept whole. */
  lemma {:induction false} StripLeftAppend(a: string, b: string, cs: set<char>)
    ensures StripLeft(a + b, cs) == if StripLeft(a, cs) == [] then StripLeft(b, cs) else StripLeft(a, cs) + b
    decreases |a|
  {
    if a == [] {
      assert a + b == b;
    } else if a[0] in cs {
      assert (a + b)[1..] == a[1..] + b;
      StripLeftAppend(a[1..], b, cs);
    }
  }

  /** A string made only of characters of cs strips to nothing. */
  lemma StripLeftAll(s: string, cs: set<char>)
    requires forall i :: 0 <= i < |s| ==> s[i] in cs
    ensures StripLeft(s, cs) == []
  {
    StripLeftSuffix(s, cs);
  }

  /** The "\r\n" readline leaves on a line does not change its tokens,
      whatever the line, a blank one included. */
  lemma TerminatedLine(line: string, tail: string)
    requires forall i :: 0 <= i < |tail| ==> tail[i] in Terminators
    ensures Tokens(line + tail) == Tokens(line)
  {
    StripLeftAppend(line, tail, Terminators);
    var left := StripLeft(line, Terminators);
    if left == [] {
      StripLeftAll(tail, Terminators);
    } else {
      StripRightTerminators(left, tail);
    }
    assert Strip(line + tail, Terminators) == Strip(line, Terminators);
  }

  /** So a line is classified the same with or without its terminators. */
  lemma TerminatorsIgnored(columns: nat, conv: Conv, line: string, tail: string)
    requires forall i :: 0 <= i < |tail| ==> tail[i] in Terminators
    ensures ClassifyLine(columns, conv, line + tail) == ClassifyLine(columns, conv, line)
  {
    TerminatedLine(line, tail);
  }
}
