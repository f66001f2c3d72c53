/** reader.py: the reader that keeps one bounded window per channel, logs every
    accepted record, and answers the commands of the dashboard thread. */
module Reader {
  import opened LineFormat

  /** Coordinates arrive as integers scaled by 10^7. */
  const Scale: real := 10000000.0

  /** The message reader_main sends when serial.SerialException is raised. */
  const OpenFailure: string := "Cannot open serial port"

  /** The settings read from the config module: columns_num, data_len, and the
      float() conversion of a field. */
  datatype Config = Config(columns: nat, dataLen: nat, conv: Conv)

  /** parse_coords: the first two numbers of a line scaled back to degrees. */
  function ParseCoords(rawLon: real, rawLat: real): (r: (real, real))
    ensures r.0 * Scale == rawLon && r.1 * Scale == rawLat
  {
    (rawLon / Scale, rawLat / Scale)
  }

  // ---------------------------------------------------------------------------
  // deque(maxlen = data_len)
  // ---------------------------------------------------------------------------

  /** The last n elements of s (all of s when it is shorter). */
  function LastN(s: seq<real>, n: nat): (r: seq<real>)
    ensures |r| == if |s| <= n then |s| else n
  {
    if |s| <= n then s else s[|s| - n..]
  }

  /** deque.append on a deque bounded by n: the oldest entry goes when it is full. */
  function Append(q: seq<real>, x: real, n: nat): (r: seq<real>)
    requires |q| <= n
    ensures r == LastN(q + [x], n)
  {
    if |q| < n then q + [x]
    else if n == 0 then []
    else
      assert (q + [x])[|q + [x]| - n..] == q[1..] + [x];
      q[1..] + [x]
  }

  /** Appending to the last n values of a history gives the last n values of
      the longer history: a bounded deque fed one value at a time holds exactly
      the most recent n values in arrival order. */
  lemma LastNAppend(s: seq<real>, x: real, n: nat)
    ensures Append(LastN(s, n), x, n) == LastN(s + [x], n)
  {
    if n < |s| {
      var tail := s[|s| - n..];
      assert tail + [x] == (s + [x])[|s| - n..];
      if n > 0 {
        assert (tail + [x])[1..] == (s + [x])[|s + [x]| - n..];
      }
    }
  }

  /** Feeding the values of xs one by one into a deque bounded by n. */
  function Feed(q: seq<real>, xs: seq<real>, n: nat): (r: seq<real>)
    requires |q| <= n
    ensures |r| == if |q| + |xs| <= n then |q| + |xs| else n
    decreases |xs|
  {
    if xs == [] then q else Feed(Append(q, xs[0], n), xs[1..], n)
  }

  /** A deque holding the last n values of a history s, fed the values xs,
      holds the last n values of s + xs, in the order they arrived. */
  lemma {:induction false} FeedKeepsLastN(s: seq<real>, xs: seq<real>, n: nat)
    ensures Feed(LastN(s, n), xs, n) == LastN(s + xs, n)
    decreases |xs|
  {
    if xs == [] {
      assert s + xs == s;
    } else {
      LastNAppend(s, xs[0], n);
      FeedKeepsLastN(s + [xs[0]], xs[1..], n);
      ShiftFirst(s, xs);
    }
  }

  lemma ShiftFirst(s: seq<real>, xs: seq<real>)
    requires xs != []
    ensures s + [xs[0]] + xs[1..] == s + xs
  {
    assert xs == [xs[0]] + xs[1..];
  }

  // ---------------------------------------------------------------------------
  // The windows, the log, and how one determines the other
  // ---------------------------------------------------------------------------

  /** Every row of the log has one entry per configured column. */
  ghost predicate RowsFit(cfg: Config, log: seq<seq<real>>)
  {
    forall k :: 0 <= k < |log| ==> |log[k]| == cfg.columns
  }

  /** Column j of the log, oldest row first. */
  function Column(log: seq<seq<real>>, j: nat): seq<real>
    requires forall k :: 0 <= k < |log| ==> j < |log[k]|
  {
    seq(|log|, k requires 0 <= k < |log| => log[k][j])
  }

  /** The contents deque i must have after the rows of log were accepted: the
      last data_len values of log column i + 2 (values[i] of each record); the
      last two deques are never appended to. */
  ghost function Window(cfg: Config, log: seq<seq<real>>, i: nat): seq<real>
    requires RowsFit(cfg, log)
  {
    if i + 2 < cfg.columns then LastN(Column(log, i + 2), cfg.dataLen) else []
  }

  /** columns_num deques, none longer than data_len. */
  predicate Shaped(cfg: Config, windows: seq<seq<real>>)
  {
    |windows| == cfg.columns && forall i :: 0 <= i < |windows| ==> |windows[i]| <= cfg.dataLen
  }

  /** What the enumerate loop of parse_line leaves: values[i] appended to deque
      i for every value, the other deques as they were. */
  function PushAll(windows: seq<seq<real>>, values: seq<real>, n: nat): (r: seq<seq<real>>)
    requires |values| <= |windows|
    requires forall i :: 0 <= i < |windows| ==> |windows[i]| <= n
    ensures |r| == |windows| && forall i :: 0 <= i < |r| ==> |r[i]| <= n
  {
    seq(|windows|, i requires 0 <= i < |windows| =>
      if i < |values| then Append(windows[i], values[i], n) else windows[i])
  }

  /** The reader's state: the device lines still to come, the rows written to
      data.csv, and the deques. */
  datatype State = State(input: seq<DeviceRead>, log: seq<seq<real>>, windows: seq<seq<real>>)

  /** The reader's invariant: the deques are exactly what replaying the log
      into fresh deques gives. */
  ghost predicate Consistent(cfg: Config, st: State)
  {
    && Shaped(cfg, st.windows)
    && RowsFit(cfg, st.log)
    && forall i :: 0 <= i < cfg.columns ==> st.windows[i] == Window(cfg, st.log, i)
  }

  /** The state right after Reader(): every deque empty, data.csv truncated. */
  function Initial(cfg: Config, input: seq<DeviceRead>): (st: State)
    ensures Consistent(cfg, st)
  {
    State(input, [], seq(cfg.columns, _ => []))
  }

  /** One call of parse_line: read until a line is accepted, then log it and
      push its values. */
  function Next(cfg: Config, st: State): (r: (Outcome<Record>, State))
    requires Shaped(cfg, st.windows)
    ensures Shaped(cfg, r.1.windows)
    ensures st.input != [] ==> |r.1.input| < |st.input|
    ensures r.0.Starved? ==> r.1.input == []
    ensures r.0.Done? ==>
      && r.1.log == st.log + [Row(r.0.value)]
      && |r.0.value.values| == cfg.columns - 2
      && r.1.windows == PushAll(st.windows, r.0.value.values, cfg.dataLen)
    ensures !r.0.Done? ==> r.1.log == st.log && r.1.windows == st.windows
  {
    var scan := ScanLines(Classify(cfg.columns, cfg.conv), st.input);
    var rest := st.input[scan.used..];
    match scan.result
    case Done(raw) =>
      var coords := ParseCoords(raw.lat, raw.lon);
      var rec := Record(coords.0, coords.1, raw.values);
      (Done(rec), State(rest, st.log + [Row(rec)], PushAll(st.windows, raw.values, cfg.dataLen)))
    case Raised(f) => (Raised(f), st.(input := rest))
    case Starved => (Starved, st.(input := rest))
  }

  lemma ColumnAppend(log: seq<seq<real>>, row: seq<real>, j: nat)
    requires forall k :: 0 <= k < |log| ==> j < |log[k]|
    requires j < |row|
    ensures Column(log + [row], j) == Column(log, j) + [row[j]]
  {
  }

  /** Logging a record and feeding its values to the deques keeps every deque
      equal to the last data_len entries of its log column. */
  lemma AcceptKeepsConsistent(cfg: Config, st: State, rec: Record, input: seq<DeviceRead>)
    requires Consistent(cfg, st)
    requires |rec.values| == cfg.columns - 2
    ensures Consistent(cfg, State(input, st.log + [Row(rec)], PushAll(st.windows, rec.values, cfg.dataLen)))
  {
    var row := Row(rec);
    var log := st.log + [row];
    var windows := PushAll(st.windows, rec.values, cfg.dataLen);
    assert |row| == cfg.columns;
    assert RowsFit(cfg, log);
    forall i | 0 <= i < cfg.columns
      ensures windows[i] == Window(cfg, log, i)
    {
      if i + 2 < cfg.columns {
        ColumnAppend(st.log, row, i + 2);
        assert row[i + 2] == rec.values[i];
        LastNAppend(Column(st.log, i + 2), rec.values[i], cfg.dataLen);
      }
    }
  }

  /** parse_line keeps the deques equal to the replay of the log: an accepted
      line appends one row and feeds values[i] to deque i, a rejected line
      changes neither. */
  lemma NextKeepsConsistent(cfg: Config, st: State)
    requires Consistent(cfg, st)
    ensures Consistent(cfg, Next(cfg, st).1)
  {
    var (out, st') := Next(cfg, st);
    if out.Done? {
      AcceptKeepsConsistent(cfg, st, out.value, st'.input);
    }
  }

  /** parse_line stops at the first read that is not skipped: it consumes
      just that read, and an accepted line comes back with its coordinates
      scaled by parse_coords and its values as read. */
  lemma NextStops(cfg: Config, st: State, o: Outcome<Record>)
    requires Shaped(cfg, st.windows)
    requires st.input != [] && Decides(Classify(cfg.columns, cfg.conv), st.input[0], o)
    ensures Next(cfg, st).1.input == st.input[1..]
    ensures o.Done? ==> Next(cfg, st).0 == Done(Record(o.value.lat / Scale, o.value.lon / Scale, o.value.values))
    ensures o.Raised? ==> Next(cfg, st).0 == o
  {
  }

  /** parse_line skips a rejected line and goes on with the next one. */
  lemma NextSkips(cfg: Config, st: State)
    requires Shaped(cfg, st.windows)
    requires st.input != [] && Skipped(Classify(cfg.columns, cfg.conv), st.input[0])
    ensures Next(cfg, st) == Next(cfg, st.(input := st.input[1..]))
  {
    var scan := ScanLines(Classify(cfg.columns, cfg.conv), st.input[1..]);
    assert st.input[1..][scan.used..] == st.input[scan.used + 1..];
  }

  // ---------------------------------------------------------------------------
  // data_to_send and reader_main
  // ---------------------------------------------------------------------------

  /** The dictionary data_to_send returns. */
  datatype Sent = Sent(lat: real, lon: real, values: seq<seq<real>>)

  /** A command taken from rx_queue: DATA, EXIT, or any other name (which
      never is "DATA" or "EXIT" when it comes from ParseCommand). */
  datatype Command = Data | Exit | Other(name: string)

  /** reader_main compares the command name with 'DATA' and 'EXIT'. */
  function ParseCommand(name: string): (c: Command)
    ensures c == Data <==> name == "DATA"
    ensures c == Exit <==> name == "EXIT"
    ensures c.Other? ==> c.name == name
  {
    if name == "DATA" then Data else if name == "EXIT" then Exit else Other(name)
  }

  datatype Reply = Ok | DataReply(data: Sent) | ErrorReply(message: string)

  /** How reader_main ends: returning after EXIT; exit(-1) after reporting a
      SerialException; killed by an exception it does not catch; blocked in
      readline on a device that sends nothing acceptable; or blocked waiting
      for the next command. */
  datatype Ending = Closed | Aborted | Crashed(fault: Fault) | Blocked | Waiting

  datatype Served = Served(replies: seq<Reply>, ending: Ending)

  /** data_to_send: parse the next line, then copy every deque. */
  function Query(cfg: Config, st: State): (r: (Outcome<Sent>, State))
    requires Shaped(cfg, st.windows)
    ensures r.1 == Next(cfg, st).1
    ensures r.0.Done? <==> Next(cfg, st).0.Done?
    ensures r.0.Raised? <==> Next(cfg, st).0.Raised?
    ensures r.0.Raised? ==> r.0.fault == Next(cfg, st).0.fault
  {
    var (out, st') := Next(cfg, st);
    match out
    case Done(rec) => (Done(Sent(rec.lat, rec.lon, st'.windows)), st')
    case Raised(f) => (Raised(f), st')
    case Starved => (Starved, st')
  }

  /** The snapshot data_to_send hands over holds the position just parsed and,
      channel by channel, the last data_len values that channel has in the log,
      oldest first; it has one list per deque. */
  lemma QuerySnapshot(cfg: Config, st: State)
    requires Consistent(cfg, st)
    ensures var (out, st') := Query(cfg, st);
      out.Done? ==>
        && |st'.log| == |st.log| + 1
        && st'.log[|st.log|][..2] == [out.value.lat, out.value.lon]
        && |out.value.values| == cfg.columns
        && forall i :: 0 <= i < cfg.columns ==>
             out.value.values[i] == Window(cfg, st'.log, i) && |out.value.values[i]| <= cfg.dataLen
  {
    NextKeepsConsistent(cfg, st);
  }

  function CountData(cmds: seq<Command>): nat
  {
    if cmds == [] then 0 else (if cmds[0] == Data then 1 else 0) + CountData(cmds[1..])
  }

  /** The number of DATA commands before the first EXIT. */
  function DataBeforeExit(cmds: seq<Command>): nat
  {
    if cmds == [] || cmds[0] == Exit then 0
    else (if cmds[0] == Data then 1 else 0) + DataBeforeExit(cmds[1..])
  }

  /** The `while running` loop of reader_main, from a given reader state, over
      the commands the dashboard sends. */
  function Serve(cfg: Config, st: State, cmds: seq<Command>): (r: Served)
    requires Shaped(cfg, st.windows)
    ensures forall i :: 0 <= i < |r.replies| ==>
      r.replies[i].DataReply? || (i == |r.replies| - 1 && r.ending == Aborted)
    ensures r.ending == Aborted <==> r.replies != [] && r.replies[|r.replies| - 1] == ErrorReply(OpenFailure)
    ensures r.ending == Waiting ==> Exit !in cmds
    ensures r.ending == Closed ==> Exit in cmds
    ensures forall i :: 0 <= i < |r.replies| && r.replies[i].DataReply? ==>
      Shaped(cfg, r.replies[i].data.values)
    decreases |cmds|
  {
    if cmds == [] then Served([], Waiting)
    else match cmds[0]
      case Exit => Served([], Closed)
      case Other(_) => Serve(cfg, st, cmds[1..])
      case Data =>
        var (answer, st') := Query(cfg, st);
        match answer
        case Done(sent) =>
          var rest := Serve(cfg, st', cmds[1..]);
          var replies := [DataReply(sent)] + rest.replies;
          assert replies[1..] == rest.replies;
          Served(replies, rest.ending)
        case Raised(f) =>
          if f == SerialError then Served([ErrorReply(OpenFailure)], Aborted)
          else Served([], Crashed(f))
        case Starved => Served([], Blocked)
  }

  /** reader_main: Reader() and ("OK", {}), then the command loop; a
      SerialException while constructing the reader is reported instead. */
  function Run(cfg: Config, opens: bool, input: seq<DeviceRead>, cmds: seq<Command>): (r: Served)
    ensures r.replies != []
    ensures opens <==> r.replies[0] == Ok
    ensures !opens ==> r == Served([ErrorReply(OpenFailure)], Aborted)
    ensures forall i :: 1 <= i < |r.replies| ==> r.replies[i] != Ok
  {
    if !opens then Served([ErrorReply(OpenFailure)], Aborted)
    else
      var s := Serve(cfg, Initial(cfg, input), cmds);
      Served([Ok] + s.replies, s.ending)
  }

  /** reader_main answers each DATA command at most once, and when it ends by
      EXIT or by running out of commands it has answered every DATA command
      before the first EXIT. */
  lemma {:induction false} ServeCounts(cfg: Config, st: State, cmds: seq<Command>)
    requires Shaped(cfg, st.windows)
    ensures var r := Serve(cfg, st, cmds);
      && |r.replies| <= CountData(cmds)
      && (r.ending == Closed || r.ending == Waiting ==> |r.replies| == DataBeforeExit(cmds))
    decreases |cmds|
  {
    if cmds != [] {
      match cmds[0]
      case Exit =>
      case Other(_) => ServeCounts(cfg, st, cmds[1..]);
      case Data =>
        var (answer, st') := Query(cfg, st);
        if answer.Done? {
          ServeCounts(cfg, st', cmds[1..]);
        }
    }
  }

  /** A SerialException never crashes the loop: it is always reported with
      the open-failure reply, and only other exceptions end it unanswered. */
  lemma {:induction false} SerialErrorNeverCrashes(cfg: Config, st: State, cmds: seq<Command>)
    requires Shaped(cfg, st.windows)
    ensures Serve(cfg, st, cmds).ending.Crashed? ==> Serve(cfg, st, cmds).ending.fault != SerialError
    decreases |cmds|
  {
    if cmds != [] {
      match cmds[0]
      case Exit =>
      case Other(_) => SerialErrorNeverCrashes(cfg, st, cmds[1..]);
      case Data =>
        var (answer, st') := Query(cfg, st);
        if answer.Done? {
          SerialErrorNeverCrashes(cfg, st', cmds[1..]);
        }
    }
  }

  /** EXIT closes the reader and returns: it gets no reply, and no command
      after it is ever looked at. */
  lemma {:induction false} ExitStops(cfg: Config, st: State, pre: seq<Command>, post: seq<Command>)
    requires Shaped(cfg, st.windows)
    requires Exit !in pre
    ensures Serve(cfg, st, pre + [Exit] + post) == Serve(cfg, st, pre + [Exit])
    ensures Serve(cfg, st, pre + [Exit]).replies == Serve(cfg, st, pre).replies
    ensures Serve(cfg, st, pre).ending == Waiting ==> Serve(cfg, st, pre + [Exit]).ending == Closed
    decreases |pre|
  {
    if pre == [] {
      assert (pre + [Exit] + post)[0] == Exit;
      assert (pre + [Exit])[0] == Exit;
    } else {
      assert (pre + [Exit] + post)[1..] == pre[1..] + [Exit] + post;
      assert (pre + [Exit])[1..] == pre[1..] + [Exit];
      assert (pre + [Exit] + post)[0] == (pre + [Exit])[0] == pre[0];
      if pre[0] == Data {
        var st' := Query(cfg, st).1;
        ExitStops(cfg, st', pre[1..], post);
      } else {
        ExitStops(cfg, st, pre[1..], post);
      }
    }
  }

  /** The commands with the DATA and EXIT commands kept, in order, and every
      other command dropped. */
  function Known(cmds: seq<Command>): seq<Command>
  {
    if cmds == [] then [] else (if cmds[0].Other? then [] else [cmds[0]]) + Known(cmds[1..])
  }

  /** Commands other than DATA and EXIT are ignored: dropping them changes no
      reply and not how the loop ends. */
  lemma {:induction false} OthersIgnored(cfg: Config, st: State, cmds: seq<Command>)
    requires Shaped(cfg, st.windows)
    ensures Serve(cfg, st, cmds) == Serve(cfg, st, Known(cmds))
    decreases |cmds|
  {
    if cmds != [] {
      var k := Known(cmds);
      if cmds[0].Other? {
        assert k == Known(cmds[1..]);
        OthersIgnored(cfg, st, cmds[1..]);
      } else {
        assert k[0] == cmds[0] && k[1..] == Known(cmds[1..]);
        if cmds[0] == Data {
          OthersIgnored(cfg, Query(cfg, st).1, cmds[1..]);
        }
      }
    }
  }

  // ---------------------------------------------------------------------------
  // The Reader object
  // ---------------------------------------------------------------------------

  class Reader {
    const cfg: Config
    var input: seq<DeviceRead>
    var log: seq<seq<real>>
    var windows: seq<seq<real>>

    function Current(): State
      reads this
    {
      State(input, log, windows)
    }

    ghost predicate Valid()
      reads this
    {
      Consistent(cfg, Current())
    }

    constructor (cfg: Config, input: seq<DeviceRead>)
      ensures Valid()
      ensures this.cfg == cfg && Current() == Initial(cfg, input)
    {
      this.cfg := cfg;
      this.input := input;
      log := [];
      windows := seq(cfg.columns, _ => []);
    }

    /** The enumerate loop: values[idx] is appended to data_dequeues[idx]. */
    method Push(values: seq<real>)
      requires Shaped(cfg, windows) && |values| <= cfg.columns
      modifies this`windows
      ensures windows == PushAll(old(windows), values, cfg.dataLen)
    {
      for idx := 0 to |values|
        invariant |windows| == |old(windows)|
        invariant forall j :: 0 <= j < idx ==>
          windows[j] == Append(old(windows)[j], values[j], cfg.dataLen)
        invariant forall j :: idx <= j < |windows| ==> windows[j] == old(windows)[j]
      {
        windows := windows[idx := Append(windows[idx], values[idx], cfg.dataLen)];
      }
    }

    method ParseLine() returns (r: Outcome<Record>)
      requires Valid()
      modifies this
      ensures Valid()
      ensures (r, Current()) == Next(cfg, old(Current()))
    {
      while input != []
        invariant Valid()
        invariant log == old(log) && windows == old(windows)
        invariant Next(cfg, old(Current())) == Next(cfg, Current())
        decreases |input|
      {
        ghost var before := Current();
        var read := input[0];
        input := input[1..];
        match read {
          case ReadError =>
            r := Raised(SerialError);
            return;
          case Line(text) =>
            var verdict := ClassifyLine(cfg.columns, cfg.conv, text);
            match verdict {
              case Skip =>
                NextSkips(cfg, before);
              case Fail(f) =>
                r := Raised(f);
                return;
              case Accept(raw) =>
                var coords := ParseCoords(raw.lat, raw.lon);
                var rec := Record(coords.0, coords.1, raw.values);
                log := log + [Row(rec)];
                Push(raw.values);
                r := Done(rec);
                NextKeepsConsistent(cfg, before);
                return;
            }
        }
      }
      r := Starved;
    }

    method DataToSend() returns (r: Outcome<Sent>)
      requires Valid()
      modifies this
      ensures Valid()
      ensures (r, Current()) == Query(cfg, old(Current()))
    {
      var out := ParseLine();
      match out {
        case Done(rec) => r := Done(Sent(rec.lat, rec.lon, windows));
        case Raised(f) => r := Raised(f);
        case Starved => r := Starved;
      }
    }
  }

  /** reader_main(rx_queue, tx_queue), with the commands the dashboard puts on
      rx_queue given as a list and the replies it puts on tx_queue returned. */
  method ReaderMain(cfg: Config, opens: bool, input: seq<DeviceRead>, commands: seq<Command>)
    returns (replies: seq<Reply>, ending: Ending)
    ensures Served(replies, ending) == Run(cfg, opens, input, commands)
  {
    if !opens {
      replies, ending := [ErrorReply(OpenFailure)], Aborted;
      return;
    }
    ghost var total := Run(cfg, opens, input, commands);
    var reader := new Reader(cfg, input);
    replies := [Ok];
    var k := 0;
    while k < |commands|
      invariant 0 <= k <= |commands|
      invariant reader.Valid() && reader.cfg == cfg
      invariant var rest := Serve(cfg, reader.Current(), commands[k..]);
        total == Served(replies + rest.replies, rest.ending)
      decreases |commands| - k
    {
      ghost var before := reader.Current();
      ghost var pending := commands[k..];
      var cmd := commands[k];
      k := k + 1;
      ServeFirst(cfg, before, pending);
      assert pending[1..] == commands[k..];
      if cmd == Data {
        var answer := reader.DataToSend();
        match answer {
          case Done(sent) =>
            ghost var rest := Serve(cfg, reader.Current(), commands[k..]);
            Regroup(replies, [DataReply(sent)], rest.replies);
            replies := replies + [DataReply(sent)];
          case Raised(f) =>
            if f == SerialError {
              replies := replies + [ErrorReply(OpenFailure)];
              ending := Aborted;
            } else {
              ending := Crashed(f);
            }
            return;
          case Starved =>
            ending := Blocked;
            return;
        }
      }
      if cmd == Exit {
        ending := Closed;
        return;
      }
    }
    ending := Waiting;
  }

  /** How the command loop handles the first pending command. */
  lemma ServeFirst(cfg: Config, st: State, cmds: seq<Command>)
    requires Shaped(cfg, st.windows) && cmds != []
    ensures cmds[0] == Exit ==> Serve(cfg, st, cmds) == Served([], Closed)
    ensures cmds[0].Other? ==> Serve(cfg, st, cmds) == Serve(cfg, st, cmds[1..])
    ensures cmds[0] == Data ==>
      var (answer, st') := Query(cfg, st);
      var rest := Serve(cfg, st', cmds[1..]);
      Serve(cfg, st, cmds) == match answer
        case Done(sent) => Served([DataReply(sent)] + rest.replies, rest.ending)
        case Raised(f) =>
          if f == SerialError then Served([ErrorReply(OpenFailure)], Aborted) else Served([], Crashed(f))
        case Starved => Served([], Blocked)
  {
  }
}
