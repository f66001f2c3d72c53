/** utils.py: the earlier reader. It parses lines exactly like reader.py but
    keeps no windows, and shifts both coordinates by a step that grows on
    every parse_coords call (so that a map marker visibly moves). */
module Utils {
  import opened LineFormat
  import Windowed = Reader

  /** The initial value of step and what each parse_coords call adds to it. */
  const StepIncrement: real := 0.001

  /** The earlier reader's state: the device lines still to come, the rows
      written to data.csv, and step. */
  datatype State = State(input: seq<DeviceRead>, log: seq<seq<real>>, step: real)

  /** One call of parse_line: read until a line is accepted; parse_coords then
      advances step and shifts both coordinates by the advanced step. */
  function Next(columns: nat, conv: Conv, st: State): (r: (Outcome<Record>, State))
    ensures st.input != [] ==> |r.1.input| < |st.input|
    ensures r.0.Starved? ==> r.1.input == []
    ensures r.0.Done? ==>
      && r.1.step == st.step + StepIncrement
      && r.1.log == st.log + [Row(r.0.value)]
      && |r.0.value.values| == columns - 2
    ensures !r.0.Done? ==> r.1.step == st.step && r.1.log == st.log
  {
    var scan := ScanLines(Classify(columns, conv), st.input);
    var rest := st.input[scan.used..];
    Settle(scan.result, st.(input := rest))
  }

  /** Both coordinates moved by step. */
  function Shifted(coords: (real, real), step: real): (real, real)
  {
    (coords.0 + step, coords.1 + step)
  }

  /** The end of parse_line once a read decides: an accepted line goes
      through parse_coords, which advances step before shifting, and its row
      is written; an exception leaves step and the log alone. */
  function Settle(o: Outcome<Record>, st: State): (r: (Outcome<Record>, State))
    ensures r.1.input == st.input
    ensures o.Done? ==>
      && r.0.Done?
      && r.1.step == st.step + StepIncrement
      && r.0.value.lat == o.value.lat / Windowed.Scale + r.1.step
      && r.0.value.lon == o.value.lon / Windowed.Scale + r.1.step
      && r.0.value.values == o.value.values
      && r.1.log == st.log + [Row(r.0.value)]
    ensures !o.Done? ==> r == (o, st)
  {
    match o
    case Done(raw) =>
      var step := st.step + StepIncrement;
      var shifted := Shifted(Windowed.ParseCoords(raw.lat, raw.lon), step);
      var rec := Record(shifted.0, shifted.1, raw.values);
      (Done(rec), st.(log := st.log + [Row(rec)], step := step))
    case Raised(f) => (Raised(f), st)
    case Starved => (Starved, st)
  }

  /** A rejected line is skipped: it neither reaches parse_coords nor the log. */
  lemma NextSkips(columns: nat, conv: Conv, st: State)
    requires st.input != [] && Skipped(Classify(columns, conv), st.input[0])
    ensures Next(columns, conv, st) == Next(columns, conv, st.(input := st.input[1..]))
  {
    var scan := ScanLines(Classify(columns, conv), st.input[1..]);
    assert st.input[1..][scan.used..] == st.input[scan.used + 1..];
  }

  /** parse_line stops at the first read that is not skipped. */
  lemma NextStops(columns: nat, conv: Conv, st: State, o: Outcome<Record>)
    requires st.input != [] && Decides(Classify(columns, conv), st.input[0], o)
    ensures Next(columns, conv, st) == Settle(o, st.(input := st.input[1..]))
  {
  }

  /** step has been advanced once per logged row, starting from 0.001, and
      every row has one entry per column. */
  ghost predicate Counted(columns: nat, st: State)
  {
    && st.step == (|st.log| + 1) as real * StepIncrement
    && forall k :: 0 <= k < |st.log| ==> |st.log[k]| == columns
  }

  /** A rejected line never reaches parse_coords, so step advances exactly
      once per accepted line and stays in step with the number of log rows. */
  lemma NextKeepsCounted(columns: nat, conv: Conv, st: State)
    requires Counted(columns, st)
    ensures Counted(columns, Next(columns, conv, st).1)
  {
    var scan := ScanLines(Classify(columns, conv), st.input);
    if scan.result.Done? {
      assert Decides(Classify(columns, conv), st.input[scan.used - 1], scan.result);
    }
    SettleKeepsCounted(columns, scan.result, st.(input := st.input[scan.used..]));
  }

  /** Settling on a record of columns - 2 values advances step once and logs
      one row of columns entries. */
  lemma SettleKeepsCounted(columns: nat, o: Outcome<Record>, st: State)
    requires Counted(columns, st)
    requires o.Done? ==> 2 <= columns && |o.value.values| == columns - 2
    ensures Counted(columns, Settle(o, st).1)
  {
    var (out, st') := Settle(o, st);
    if o.Done? {
      assert |Row(out.value)| == columns;
      assert forall k :: 0 <= k < |st.log| ==> st'.log[k] == st.log[k];
    }
  }

  /** The two readers read the same device lines the same way: they consume
      the same lines, stop with the same verdict and log the same channel
      values; only the coordinates differ, by the advanced step. */
  lemma SameVerdictAsReader(cfg: Windowed.Config, rst: Windowed.State, st: State)
    requires Windowed.Shaped(cfg, rst.windows)
    requires rst.input == st.input
    ensures var (rout, rst') := Windowed.Next(cfg, rst);
      var (out, st') := Next(cfg.columns, cfg.conv, st);
      && st'.input == rst'.input
      && out.Done? == rout.Done?
      && (out.Raised? <==> rout.Raised?)
      && (out.Raised? ==> out.fault == rout.fault)
      && (out.Done? ==>
           && out.value.values == rout.value.values
           && out.value.lat == rout.value.lat + st'.step
           && out.value.lon == rout.value.lon + st'.step)
  {
  }

  class Reader {
    const columns: nat
    const conv: Conv
    var input: seq<DeviceRead>
    var log: seq<seq<real>>
    var step: real

    function Current(): State
      reads this
    {
      State(input, log, step)
    }

    ghost predicate Valid()
      reads this
    {
      Counted(columns, Current())
    }

    constructor (columns: nat, conv: Conv, input: seq<DeviceRead>)
      ensures Valid()
      ensures this.columns == columns && this.conv == conv
      ensures Current() == State(input, [], StepIncrement)
    {
      this.columns := columns;
      this.conv := conv;
      this.input := input;
      log := [];
      step := StepIncrement;
    }

    /** parse_coords: step is advanced first, then added to both coordinates. */
    method ParseCoords(rawLon: real, rawLat: real) returns (lat: real, lon: real)
      modifies this`step
      ensures step == old(step) + StepIncrement
      ensures (lat, lon) == Shifted(Windowed.ParseCoords(rawLon, rawLat), step)
    {
      step := step + StepIncrement;
      var coords := Windowed.ParseCoords(rawLon, rawLat);
      lat, lon := coords.0 + step, coords.1 + step;
    }

    /** The accepted branch of parse_line: parse_coords on the first two
        values, then the row [lat, lon] + values is written to data.csv. */
    method WriteRow(raw: Record) returns (rec: Record)
      modifies this`log, this`step
      ensures (Done(rec), Current()) == Settle(Done(raw), old(Current()))
    {
      var lat, lon := ParseCoords(raw.lat, raw.lon);
      rec := Record(lat, lon, raw.values);
      log := log + [Row(rec)];
    }

    method ParseLine() returns (r: Outcome<Record>)
      requires Valid()
      modifies this
      ensures Valid()
      ensures (r, Current()) == Next(columns, conv, old(Current()))
    {
      while input != []
        invariant Valid()
        invariant log == old(log) && step == old(step)
        invariant Next(columns, conv, old(Current())) == Next(columns, conv, Current())
        decreases |input|
      {
        ghost var before := Current();
        var read := input[0];
        input := input[1..];
        match read {
          case ReadError =>
            r := Raised(SerialError);
            NextStops(columns, conv, before, r);
            return;
          case Line(text) =>
            var verdict := ClassifyLine(columns, conv, text);
            match verdict {
              case Skip =>
                NextSkips(columns, conv, before);
              case Fail(f) =>
                r := Raised(f);
                NextStops(columns, conv, before, r);
                return;
              case Accept(raw) =>
                NextStops(columns, conv, before, Done(raw));
                NextKeepsCounted(columns, conv, before);
                var rec := WriteRow(raw);
                r := Done(rec);
                return;
            }
        }
      }
      r := Starved;
    }
  }
}
