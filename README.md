# DashPlotSerial acquisition core in Dafny

DashPlotSerial reads telemetry from a serial device. Each line carries a
position fix, scaled by 10^7, followed by a fixed number of channel values.
The project models the part of the program that turns device lines into
records and serves them to the dashboard thread:

- `reader.py` holds the `Reader` class. Its `parse_line` reads lines until one
  is accepted. It writes the row to `data.csv` and feeds the channel values
  into one bounded `deque` per column. `data_to_send` returns the new
  position and a copy of every deque. The file also holds `reader_main`, the
  thread loop that answers `DATA` and `EXIT` commands on a queue.
- `utils.py` holds the earlier `Reader`. It parses lines the same way. It
  keeps no deques. It shifts both coordinates by a `step` that grows by 0.001
  on every `parse_coords` call.

The model has four modules:

- `LineFormat` (`lineformat.dfy`) is the line protocol that both readers
  share. It covers Python's `strip('\r\n')`, `replace(",", ", ")`,
  `replace("  ", " ")` and `split(' ')`, the bare-comma check, the
  `strip(',')`/`float()` conversion, the arity check, and the `while True`
  readline loop (`ScanLines`). It also proves that comma- and
  space-separated device lines normalise back to exactly their fields.
- `Reader` (`reader.dfy`) models `reader.py`:
  - the deques, as `LastN`/`Append`/`Feed` on sequences;
  - the reader state, as a function `Next` and as a class `Reader` whose
    `ParseLine`, `Push` and `DataToSend` methods are proved against those
    functions;
  - `reader_main`, as the function `Run` and the method `ReaderMain`.

  The key invariant is `Consistent`. Deque `i` always equals the last
  `data_len` entries of column `i + 2` of the log written to `data.csv`.
  The last two deques stay empty.
- `Utils` (`utils.dfy`) models `utils.py`. It relates that reader to the one
  in `reader.py`: both consume the same lines and reach the same verdict.
  `step` stays equal to 0.001 times (rows logged + 1).
- `Scenarios` (`scenarios.dfy`) states concrete lines and command sequences
  and proves what the model does with them. Examples are the line `5000000,5000000,1.0,2.0`, a line
  one value short, a garbled field, a deque of length 3, and a read failure.

Things the model makes explicit:

- `float()` is a parameter `conv: string -> Option<real>`. `None` stands for
  the inputs where `float()` raises `ValueError`.
- A device is a sequence of reads. Each read is either a decoded line or a
  `serial.SerialException`. On the real device `readline` times out and
  returns an empty line, so `parse_line` loops for ever as long as every
  line it reads is skipped. In the model, that case ends with the outcome
  `Starved` once the given input is used up. A line that raises ends the
  loop instead. With `columns_num` equal to 0 even the empty line raises
  `TypeError`, because it has zero fields.
- The model follows the code in these places:
  - A field that `float()` rejects is not skipped. It raises `ValueError`,
    and that happens before the arity is compared. So even a line of the
    wrong length raises, and the exception ends `reader_main` without a
    reply.
  - A read failure while answering `DATA` makes `reader_main` reply
    `Cannot open serial port` and call `exit(-1)`. This is the same message
    as a failure to open the port.
  - `columns_num` counts the two coordinates. `columns_num - 2` values are
    fed to the first `columns_num - 2` deques. The last two deques are never
    appended to, and they are sent empty.
  - With `columns_num` below 2, a line of matching length makes
    `parse_coords` raise `TypeError`.

## Model

| member | source | states |
|---|---|---|
| LineFormat.StripLeft | reader.py:30 | `strip` from the left removes exactly a leading run of characters of the set; what is kept does not start with one |
| LineFormat.StripRight | reader.py:30 | `strip` from the right removes exactly a trailing run of characters of the set; what is kept does not end with one |
| LineFormat.Strip | reader.py:30 | `strip(cs)` never lengthens a string, and what it keeps neither starts nor ends with a character of `cs` |
| LineFormat.StripLeftAppend | reader.py:30 | left-stripping a concatenation keeps the second part whole once the first part has something left |
| LineFormat.StripLeftAll | reader.py:30 | a string made only of stripped characters strips to nothing |
| LineFormat.StripLeftSuffix | reader.py:30 | what left-stripping keeps is a suffix of the line |
| LineFormat.StripRightPrefix | reader.py:30 | what right-stripping keeps is a prefix of the line |
| LineFormat.SpaceCommas | reader.py:30 | `replace(",", ", ")` leaves every comma followed by a space, and dropping those spaces gives back the input |
| LineFormat.CollapseSpaces | reader.py:30 | the single left-to-right `replace("  ", " ")` never lengthens the line and keeps a leading space (how each run shrinks is stated by `CollapseRun`) |
| LineFormat.CollapseRun | reader.py:30 | a run of `k` spaces ending before a non-space becomes `(k + 1) / 2` spaces and the rest is collapsed on its own, so `"1  2"` gives `"1 2"` and three spaces give two |
| LineFormat.CollapseKeepsNonSpaces | reader.py:30 | `replace("  ", " ")` only deletes spaces: every other character survives, in order |
| LineFormat.CollapseKeepsCommasSpaced | reader.py:30 | after `replace("  ", " ")` every comma is still followed by a space |
| LineFormat.SplitSpaces | reader.py:30 | `split(' ')` yields at least one token and no token holds a space; joining with a space gives back the string; a leading space gives an empty first token; after comma spacing a comma can only end a token |
| LineFormat.Tokens | reader.py:30 | the normalised tokens hold no space, and a comma only as their last character |
| LineFormat.Fields | reader.py:32 | the `if val` filter drops only empty tokens: with no empty token there is one field per token, each token with `strip(',')` applied |
| LineFormat.StripCommasOfToken | reader.py:32 | on such a token `strip(',')` removes at most the one trailing comma and leaves a non-empty field without commas |
| LineFormat.FieldsAppend | reader.py:32 | the filter and `strip(',')` work token by token: the fields of two token lists joined are the fields of each, in order |
| LineFormat.EmptyTokenDropped | reader.py:32 | `if val` drops an empty token wherever it stands and changes nothing else |
| LineFormat.FieldsAreBare | reader.py:31-32 | once no bare `,` token remains, every field given to `float()` is non-empty and holds no comma or space |
| LineFormat.Convert | reader.py:32 | the list comprehension succeeds iff `float()` accepts every field, giving one value per field in order; otherwise it raises on the first field `float()` rejects |
| LineFormat.ClassifyLine | reader.py:29-39 | an accepted line carries `columns_num - 2` channel values |
| LineFormat.ClassifyLineCases | reader.py:31-39 | the verdict and when each applies: a bare comma skips; otherwise a non-numeric field raises `ValueError` whatever the arity; a numeric line of length `columns_num` is accepted, or raises `TypeError` when `columns_num < 2`; any other numeric line is skipped |
| LineFormat.AcceptedValues | reader.py:32-35 | an accepted line's coordinates and values are `float()` of its fields, in order |
| LineFormat.ValueErrorNamesFirst | reader.py:32 | `ValueError` is raised for the first field `float()` rejects |
| LineFormat.ScanLines | reader.py:27-39 | the readline loop passes over skipped lines only and stops at the first read that decides; it runs out of input iff every read is skipped |
| LineFormat.CommaSeparatedRoundTrip | reader.py:30-32 | fields written separated by commas normalise back to exactly those fields, with no bare comma token |
| LineFormat.SpaceSeparatedRoundTrip | reader.py:30-32 | fields written separated by single spaces normalise back to exactly those fields |
| LineFormat.TerminatedLine | reader.py:30 | trailing `\r`/`\n` do not change the tokens of any line, a blank one included |
| LineFormat.TerminatorsIgnored | reader.py:30 | trailing `\r`/`\n` do not change the verdict on any line |
| LineFormat.Row | reader.py:36 | the row written to `data.csv` is `lat`, `lon`, then the values, in order |
| Reader.ParseCoords | reader.py:23-24 | `parse_coords` divides both raw coordinates by 10^7: the results times 10^7 are the inputs |
| Reader.Append | reader.py:37-38 | `append` on a deque with `maxlen=n` keeps the last `n` values of the old contents followed by the new value |
| Reader.Feed | reader.py:37-38 | successive `append` calls on a deque bounded by `n` leave `min(old length + number of values, n)` entries |
| Reader.LastNAppend | reader.py:37-38 | appending to the last `n` values of a history gives the last `n` values of the longer history |
| Reader.FeedKeepsLastN | reader.py:37-38 | a bounded deque fed a sequence of values holds the last `n` values of everything it was given, in arrival order |
| Reader.PushAll | reader.py:37-38 | feeding the values keeps `columns_num` deques, none longer than `data_len` |
| Reader.Initial | reader.py:10-14 | a fresh reader's deques agree with its empty log |
| Reader.Next | reader.py:26-39 | `parse_line` consumes input; on acceptance it appends `[lat, lon] + values` to the log and feeds the values to the deques; on anything else both stay unchanged |
| Reader.NextStops | reader.py:26-39 | the first read that is not skipped ends `parse_line`: only that read is consumed, an accepted line returns its first two fields divided by 10^7 and the rest of its values, an exception is raised as is |
| Reader.NextSkips | reader.py:27-33 | a skipped line is passed over and reading goes on with the next one |
| Reader.AcceptKeepsConsistent | reader.py:36-38 | logging a record and feeding its values keeps every deque equal to the last `data_len` entries of its log column |
| Reader.NextKeepsConsistent | reader.py:26-39 | `parse_line` preserves that invariant |
| Reader.Query | reader.py:41-48 | `data_to_send` changes the state as `parse_line` does, answers iff `parse_line` returns a record, and passes an exception from `parse_line` on unchanged |
| Reader.QuerySnapshot | reader.py:41-48 | the snapshot holds the coordinates of the row just logged, and one list per deque equal to the last `data_len` values of that channel in the log |
| Reader.ParseCommand | reader.py:62-67 | a command name is `DATA` or `EXIT` exactly when it equals that string; any other name is kept as an ignored command |
| Reader.Serve | reader.py:61-69 | the command loop sends only data replies, except a final error reply exactly when it aborts; it closes only after `EXIT`; it waits only if there was no `EXIT`; every snapshot has `columns_num` bounded lists |
| Reader.Run | reader.py:55-72 | `reader_main` first sends `OK` iff the port opens, else only the error reply; `OK` is never sent again |
| Reader.ServeCounts | reader.py:61-69 | each `DATA` command is answered at most once; a loop that closes or waits has answered every `DATA` before the first `EXIT` |
| Reader.ExitStops | reader.py:67-69 | `EXIT` gets no reply, and no command after it is looked at |
| Reader.OthersIgnored | reader.py:62-69 | commands other than `DATA` and `EXIT` change neither the replies nor how the loop ends |
| Reader.SerialErrorNeverCrashes | reader.py:64-72 | a `SerialException` raised while answering `DATA` never ends the loop unanswered: only other exceptions crash it |
| Reader.Reader.constructor | reader.py:10-14 | `Reader()` starts with empty deques, one per column, and an empty log |
| Reader.Reader.Push | reader.py:37-38 | the enumerate loop appends `values[idx]` to deque `idx` and leaves the rest alone |
| Reader.Reader.ParseLine | reader.py:26-39 | the method does what `Next` specifies and keeps the deques consistent with the log |
| Reader.Reader.DataToSend | reader.py:41-48 | the method does what `Query` specifies |
| Reader.ReaderMain | reader.py:55-72 | the thread loop sends exactly the replies `Run` specifies and ends the same way |
| Utils.Next | utils.py:29-41 | `parse_line` consumes input; on acceptance `step` grows by 0.001 and the row is logged; otherwise `step` and the log are unchanged |
| Utils.NextSkips | utils.py:30-35 | a skipped line is passed over without touching `step` |
| Utils.NextStops | utils.py:30-41 | `parse_line` stops at the first read that is not skipped |
| Utils.Settle | utils.py:38-41 | an accepted record goes through `parse_coords`: `step` grows by 0.001 first, both scaled coordinates are shifted by the new `step`, the values are kept and the row is logged; an exception changes nothing |
| Utils.SettleKeepsCounted | utils.py:25-27 | settling on a record keeps `step` at 0.001 times (rows logged + 1) |
| Utils.NextKeepsCounted | utils.py:25-41 | `step` stays 0.001 times (rows logged + 1), and every row has `columns_num` entries |
| Utils.SameVerdictAsReader | utils.py:29-41 | both readers consume the same lines and reach the same verdict with the same values; the coordinates differ by exactly the new `step` |
| Utils.Reader.constructor | utils.py:7-15 | a new reader starts with `step` 0.001 and an empty log |
| Utils.Reader.ParseCoords | utils.py:25-27 | `step` is advanced first, then added to both scaled coordinates |
| Utils.Reader.WriteRow | utils.py:38-40 | an accepted line advances `step` once and logs `[lat, lon] + values` |
| Utils.Reader.ParseLine | utils.py:29-41 | the method does what `Utils.Next` specifies and keeps the step count |
| Scenarios.TypicalFieldsAccepted | reader.py:31-35 | four fields reading 5000000, 5000000, 1.0, 2.0 are accepted as that record for `columns_num = 4` |
| Scenarios.TypicalLineAccepted | reader.py:29-35 | `5000000,5000000,1.0,2.0\r\n` is accepted, and its coordinates scale to 0.5 degrees |
| Scenarios.SpacedLineAccepted | reader.py:30-35 | the same fields separated by spaces are accepted alike |
| Scenarios.ShortFieldsSkipped | reader.py:33 | three numeric fields are skipped when `columns_num = 4` |
| Scenarios.ShortLineSkipped | reader.py:29-33 | a comma-separated line one value short is skipped, not an error |
| Scenarios.BlankLineRaisesWithoutColumns | reader.py:30-34 | the empty line of a timed-out `readline` raises `TypeError` exactly when `columns_num` is 0, and is skipped otherwise |
| Scenarios.GarbledFieldRaises | reader.py:32 | a line with a non-numeric field raises `ValueError` for the first such field, whatever `columns_num` is |
| Scenarios.WindowOfThree | reader.py:14 | a deque of `maxlen` 3 fed 1, 2, 3, 4 holds 2, 3, 4 |
| Scenarios.FirstPush | reader.py:37-38 | two values go into the first two of four empty deques |
| Scenarios.TypicalQuery | reader.py:41-48 | `data_to_send` on a fresh reader returns 0.5, 0.5 and the deques `[1.0], [2.0], [], []` |
| Scenarios.OneQuery | reader.py:55-69 | `DATA` then `EXIT` on that line gives `OK`, that snapshot, and a closed reader |
| Scenarios.ReadFailureAborts | reader.py:70-72 | a read failure while serving `DATA` gives `OK`, then the open-failure message, and the reader thread ends with `exit(-1)` |

## Left out

- Serial port configuration, `readline` timeouts, byte decoding with `'ignore'`, and `close()`. A device read is modelled as an already decoded line or as a `SerialException`. `close()` releases the port and flushes and closes `data.csv`; the log is the sequence of rows passed to `writerow`, so the flush does not change it.
- `float()` itself and IEEE-754 rounding. `float()` is a parameter. Coordinates and values are exact reals, so division by 10^7 and the 0.001 steps are exact.
- The CSV text format of `data.csv`. The log is the sequence of rows passed to `writerow`. Failure to open the file is not modelled.
- The queues and threads between `reader_main` and the dashboard (`app.py` is not part of this model). Commands are a given list and replies are returned as a list. The payload of a command is ignored, as it is in the code.
- The `running` flag of `reader_main`. It is never cleared, so the loop only ends by `return` or by an exception.
- `read_all` in both files. It only prints parsed lines in an endless loop.
- The `print(raw_line)` in `utils.py` `parse_line`.
- LineFormat.ScanLines: when every read is skipped, the model reports `Starved` once the given input is used up. The real loop would go on calling `readline` for ever.
- Reader.Serve: an exception other than `SerialException` ends the model with `Crashed` and no further replies. In the program it kills the thread with a traceback.
