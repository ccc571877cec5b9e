/**
 * `SummaryManager` of kl/deepnet/trainer/summary_manager.py: every
 * appended record is cut down to an allow-list of columns and added to a
 * log; when the board is enabled, one `(tag, value, step)` event is
 * emitted per board column that has a value; records render as text for
 * printing; `save` writes the whole log as JSON.
 *
 * The log is a class attribute in the source, so all managers share it:
 * here it is a `SharedLog` object that every manager refers to. The board
 * writer is the list of events it has received, and `summary.json` is the
 * log last written.
 */
module Summary {
  import opened PyBase
  import opened TrainerUtil

  /** A stored dictionary: its (key, value) pairs in insertion order. */
  type Record = seq<(string, Value)>

  /** The dictionary passed to `append`; only looked up, so its order does not matter. */
  type Input = map<string, Value>

  const DefaultColumns: seq<string> := ["mode", "epoch", "batch", "loss", "accuracy", "time"]
  const DefaultBoardColumns: seq<string> := ["loss", "accuracy"]

  // ---------------------------------------------------------------------
  // dictionaries

  function Keys(r: Record): seq<string>
  {
    if r == [] then [] else [r[0].0] + Keys(r[1..])
  }

  /** `r.get(key, None)`. */
  function Get(r: Record, key: string): Value
  {
    if r == [] then NoneV else if r[0].0 == key then r[0].1 else Get(r[1..], key)
  }

  /** `input.get(key, None)`. */
  function Lookup(input: Input, key: string): Value
  {
    if key in input then input[key] else NoneV
  }

  predicate Distinct(s: seq<string>)
  {
    forall i, j :: 0 <= i < j < |s| ==> s[i] != s[j]
  }

  /** `r[key] = v`: an existing key keeps its place, a new one goes last. */
  function Put(r: Record, key: string, v: Value): (r': Record)
    ensures Get(r', key) == v
    ensures forall k :: k != key ==> Get(r', k) == Get(r, k)
    ensures key in Keys(r) ==> Keys(r') == Keys(r)
    ensures key !in Keys(r) ==> Keys(r') == Keys(r) + [key]
  {
    if r == [] then [(key, v)]
    else if r[0].0 == key then [(key, v)] + r[1..]
    else [r[0]] + Put(r[1..], key, v)
  }

  /** The columns, in order, for which `input` holds a value other than None. */
  function Present(input: Input, cols: seq<string>): seq<string>
    decreases |cols|
  {
    if cols == [] then []
    else
      var key := cols[|cols| - 1];
      Present(input, cols[..|cols| - 1]) + (if Lookup(input, key) != NoneV then [key] else [])
  }

  // ---------------------------------------------------------------------
  // _storage_add

  /** `input2` once the loop of `_storage_add` has visited `cols`. */
  function Filtered(input: Input, cols: seq<string>): Record
    decreases |cols|
  {
    if cols == [] then []
    else
      var r := Filtered(input, cols[..|cols| - 1]);
      var key := cols[|cols| - 1];
      var v := Lookup(input, key);
      if v == NoneV then r else Put(r, key, v)
  }

  /** The stored record answers every lookup as the input does on the columns, and None elsewhere. */
  lemma {:induction false} FilteredGet(input: Input, cols: seq<string>, key: string)
    ensures Get(Filtered(input, cols), key) == if key in cols then Lookup(input, key) else NoneV
    decreases |cols|
  {
    if cols != [] {
      var init := cols[..|cols| - 1];
      assert cols == init + [cols[|cols| - 1]];
      FilteredGet(input, init, key);
    }
  }

  /** A key is stored exactly when it is a column and the input holds a non-None value for it. */
  lemma {:induction false} FilteredKeys(input: Input, cols: seq<string>, key: string)
    ensures key in Keys(Filtered(input, cols)) <==> key in cols && Lookup(input, key) != NoneV
    decreases |cols|
  {
    if cols != [] {
      var init := cols[..|cols| - 1];
      assert cols == init + [cols[|cols| - 1]];
      FilteredKeys(input, init, key);
    }
  }

  /** Setting a key the record does not have appends the pair at the end. */
  lemma {:induction false} PutNew(r: Record, key: string, v: Value)
    requires key !in Keys(r)
    ensures Put(r, key, v) == r + [(key, v)]
  {
    if r != [] {
      assert Keys(r) == [r[0].0] + Keys(r[1..]);
      PutNew(r[1..], key, v);
      assert [r[0]] + (r[1..] + [(key, v)]) == r + [(key, v)];
    }
  }

  /** A column not seen before adds its pair at the end of the record, when the input has a value for it. */
  lemma FilteredSnoc(input: Input, cols: seq<string>, key: string)
    requires key !in cols
    ensures Filtered(input, cols + [key])
            == Filtered(input, cols) + (if Lookup(input, key) == NoneV then [] else [(key, Lookup(input, key))])
  {
    assert (cols + [key])[..|cols + [key]| - 1] == cols;
    FilteredKeys(input, cols, key);
    if Lookup(input, key) != NoneV {
      PutNew(Filtered(input, cols), key, Lookup(input, key));
    } else {
      assert Filtered(input, cols) + [] == Filtered(input, cols);
    }
  }

  /** The stored keys follow the order of `columns` (for columns without repeats). */
  lemma {:induction false} FilteredOrder(input: Input, cols: seq<string>)
    requires Distinct(cols)
    ensures Keys(Filtered(input, cols)) == Present(input, cols)
    decreases |cols|
  {
    if cols != [] {
      var init := cols[..|cols| - 1];
      var key := cols[|cols| - 1];
      assert Distinct(init);
      assert key !in init;
      FilteredKeys(input, init, key);
      FilteredOrder(input, init);
    }
  }

  // ---------------------------------------------------------------------
  // _board_add

  /** One `add_scalar(tag, scalar_value, global_step)` call. */
  datatype Event = Event(tag: string, value: Value, step: Value)

  /** The events written and the exception `_board_add` ended with. */
  datatype BoardResult = BoardResult(events: seq<Event>, error: Option<Error>)

  /** The event for `key`: tag `'{}/{}'.format(input['mode'], key.title())`, step `input['epoch']`. */
  function Tagged(input: Input, key: string, fmt: FloatFormat): Event
  {
    Event(Str(Lookup(input, "mode"), fmt) + "/" + Title(key), Lookup(input, key), Lookup(input, "epoch"))
  }

  /**
   * The loop of `_board_add` over `cols`: a column without a value is
   * skipped; for the first column with one, a missing 'mode' or 'epoch'
   * raises KeyError.
   */
  function BoardEvents(input: Input, cols: seq<string>, fmt: FloatFormat): BoardResult
    decreases |cols|
  {
    if cols == [] then BoardResult([], None)
    else
      var r := BoardEvents(input, cols[..|cols| - 1], fmt);
      var key := cols[|cols| - 1];
      if r.error.Some? || Lookup(input, key) == NoneV then r
      else if "mode" !in input || "epoch" !in input then BoardResult(r.events, Some(KeyError))
      else BoardResult(r.events + [Tagged(input, key, fmt)], None)
  }

  /**
   * One event per column with a value, in column order, or KeyError (and
   * no event) when there is such a column but 'mode' or 'epoch' is missing.
   */
  lemma {:induction false} BoardEventsSpec(input: Input, cols: seq<string>, fmt: FloatFormat)
    ensures var r := BoardEvents(input, cols, fmt);
            var p := Present(input, cols);
            && (r.error.Some? <==> p != [] && ("mode" !in input || "epoch" !in input))
            && (r.error.Some? ==> r.error == Some(KeyError) && r.events == [])
            && (r.error.None? ==>
                  |r.events| == |p| && forall k :: 0 <= k < |p| ==> r.events[k] == Tagged(input, p[k], fmt))
    decreases |cols|
  {
    if cols != [] {
      BoardEventsSpec(input, cols[..|cols| - 1], fmt);
    }
  }

  // ---------------------------------------------------------------------
  // get_text

  /** `storage[idx]`, negative indices counting from the end; None is IndexError. */
  function Index<T>(xs: seq<T>, idx: int): (r: Option<T>)
    ensures r.Some? <==> -|xs| <= idx < |xs|
    ensures 0 <= idx < |xs| ==> r == Some(xs[idx])
    ensures -|xs| <= idx < 0 ==> r == Some(xs[|xs| + idx])
  {
    if 0 <= idx < |xs| then Some(xs[idx])
    else if -|xs| <= idx < 0 then Some(xs[|xs| + idx])
    else None
  }

  /** `number2string(value, dtype=dtype)` for a value it renders. */
  function Rendered(value: Value, dtype: string, fmt: FloatFormat): string
  {
    match Number2String(value, DefaultPrecision, dtype, fmt)
    case Done(Some(s)) => s
    case _ => ""
  }

  /**
   * The local `text` after `get_text` has seen a present `value` for
   * `column`: set for an int or a float, left as it was (`prev`, None when
   * never assigned) for anything else.
   */
  function Segment(column: string, value: Value, prev: Option<string>, fmt: FloatFormat): Option<string>
  {
    if value.IntV? then Some(Title(column) + ":" + Rendered(value, "int", fmt))
    else if value.FloatV? then Some(Title(column) + ":" + Rendered(value, "float", fmt))
    else prev
  }

  /**
   * The loop of `get_text` over `cols`, with `text_list` so far `acc` and
   * the local `text` so far `text`; reading `text` unassigned raises
   * UnboundLocalError.
   */
  function Scan(obj: Record, cols: seq<string>, acc: seq<string>, text: Option<string>, fmt: FloatFormat)
    : Outcome<seq<string>>
    decreases |cols|
  {
    if cols == [] then Done(acc)
    else
      var value := Get(obj, cols[0]);
      if value == NoneV then Scan(obj, cols[1..], acc, text, fmt)
      else
        var text' := Segment(cols[0], value, text, fmt);
        if text'.None? then Raised(UnboundLocalError)
        else Scan(obj, cols[1..], acc + [text'.value], text', fmt)
  }

  /** `get_text(idx)` as written. */
  function TextOf(records: seq<Record>, idx: int, cols: seq<string>, fmt: FloatFormat): Outcome<string>
  {
    match Index(records, idx)
    case None => Raised(IndexError)
    case Some(obj) =>
      match Scan(obj, cols, [], None, fmt)
      case Done(parts) => Done(Join(parts, " "))
      case Raised(e) => Raised(e)
  }

  /** The columns of `cols` that `obj` holds a non-None value for, in order. */
  function PresentIn(obj: Record, cols: seq<string>): seq<string>
    decreases |cols|
  {
    if cols == [] then []
    else (if Get(obj, cols[0]) != NoneV then [cols[0]] else []) + PresentIn(obj, cols[1..])
  }

  /**
   * The text `get_text` evidently means to produce: one `Title:value`
   * segment per present column, a str rendered as itself.
   */
  function IntendedSegments(obj: Record, cols: seq<string>, fmt: FloatFormat): (r: seq<string>)
    ensures |r| == |PresentIn(obj, cols)|
    decreases |cols|
  {
    if cols == [] then []
    else
      var value := Get(obj, cols[0]);
      var rest := IntendedSegments(obj, cols[1..], fmt);
      if value == NoneV then rest
      else if value.StrV? then [Title(cols[0]) + ":" + value.s] + rest
      else [Segment(cols[0], value, None, fmt).value] + rest
  }

  /** `get_text(idx)` with str values rendered: only an index out of range fails. */
  function IntendedText(records: seq<Record>, idx: int, cols: seq<string>, fmt: FloatFormat): (r: Outcome<string>)
    ensures r.Raised? <==> Index(records, idx).None?
    ensures r.Raised? ==> r.error == IndexError
  {
    match Index(records, idx)
    case None => Raised(IndexError)
    case Some(obj) => Done(Join(IntendedSegments(obj, cols, fmt), " "))
  }

  /** Every present value is an int or a float. */
  predicate AllNumeric(obj: Record, cols: seq<string>)
  {
    forall k :: 0 <= k < |cols| ==> Get(obj, cols[k]) == NoneV || Get(obj, cols[k]).IntV? || Get(obj, cols[k]).FloatV?
  }

  /**
   * On records whose present values are all numbers, the loop as written
   * produces one segment per present column, exactly the intended ones.
   */
  lemma {:induction false} NumericScan(obj: Record, cols: seq<string>, acc: seq<string>, text: Option<string>,
                                       fmt: FloatFormat)
    requires AllNumeric(obj, cols)
    ensures Scan(obj, cols, acc, text, fmt) == Done(acc + IntendedSegments(obj, cols, fmt))
    decreases |cols|
  {
    if cols != [] {
      assert AllNumeric(obj, cols[1..]) by {
        forall k | 0 <= k < |cols[1..]| ensures cols[1..][k] == cols[k + 1] { }
      }
      var value := Get(obj, cols[0]);
      assert value == NoneV || value.IntV? || value.FloatV?;
      if value == NoneV {
        NumericScan(obj, cols[1..], acc, text, fmt);
      } else {
        var t := Segment(cols[0], value, text, fmt);
        assert t == Segment(cols[0], value, None, fmt);
        NumericScan(obj, cols[1..], acc + [t.value], t, fmt);
        assert acc + [t.value] + IntendedSegments(obj, cols[1..], fmt)
            == acc + ([t.value] + IntendedSegments(obj, cols[1..], fmt));
      }
    } else {
      assert acc + [] == acc;
    }
  }

  /** An int renders as its plain decimal whichever dtype is asked for. */
  lemma RenderedInt(n: int, dtype: string, fmt: FloatFormat)
    ensures Rendered(IntV(n), dtype, fmt) == DecimalString(n)
  {
    assert Number2String(IntV(n), DefaultPrecision, dtype, fmt) == Done(Some(DecimalString(n)));
  }

  /** An int renders as `Title:<decimal>` and reads back, through `int()`, as that int. */
  lemma IntSegment(column: string, n: int, prev: Option<string>, fmt: FloatFormat)
    ensures var t := Segment(column, IntV(n), prev, fmt);
            && t == Some(Title(column) + ":" + DecimalString(n))
            && ParseInt(t.value[|Title(column)| + 1..]) == Some(n)
  {
    RenderedInt(n, "int", fmt);
    var t := Segment(column, IntV(n), prev, fmt).value;
    assert t[|Title(column)| + 1..] == DecimalString(n);
    DecimalRoundTrip(n);
  }

  /**
   * A present value that is neither int nor float as the first present
   * column fails: the local `text` is read before any assignment. A
   * trainer record has the str 'mode' under the first default column.
   */
  lemma StrFirstFails(obj: Record, cols: seq<string>, acc: seq<string>, fmt: FloatFormat)
    requires cols != [] && Get(obj, cols[0]).StrV?
    ensures Scan(obj, cols, acc, None, fmt) == Raised(UnboundLocalError)
  {
  }

  /** A later str value appends the previous segment once more. */
  lemma StrRepeats(obj: Record, cols: seq<string>, acc: seq<string>, t: string, fmt: FloatFormat)
    requires cols != [] && Get(obj, cols[0]).StrV?
    ensures Scan(obj, cols, acc, Some(t), fmt) == Scan(obj, cols[1..], acc + [t], Some(t), fmt)
  {
  }

  /** With the default columns, `get_text` of any record holding a str 'mode' raises. */
  lemma {:induction false} ModeColumnFails(records: seq<Record>, idx: int, fmt: FloatFormat)
    requires -|records| <= idx < |records|
    requires Get(Index(records, idx).value, "mode").StrV?
    ensures TextOf(records, idx, DefaultColumns, fmt) == Raised(UnboundLocalError)
  {
    StrFirstFails(Index(records, idx).value, DefaultColumns, [], fmt);
  }

  /** The duplicated segment: an int column followed by a str column repeats the int's text. */
  lemma {:induction false} DuplicatedSegment(n: int, s: string, fmt: FloatFormat)
    ensures Scan([("epoch", IntV(n)), ("mode", StrV(s))], ["epoch", "mode"], [], None, fmt)
            == Done(["Epoch:" + DecimalString(n), "Epoch:" + DecimalString(n)])
  {
    var obj := [("epoch", IntV(n)), ("mode", StrV(s))];
    assert Title("epoch") == "Epoch" by {
      assert "epoch"[1..] == "poch";
      assert "poch"[1..] == "och";
      assert "och"[1..] == "ch";
      assert "ch"[1..] == "h";
    }
    var t := "Epoch:" + DecimalString(n);
    assert Get(obj, "epoch") == IntV(n);
    RenderedInt(n, "int", fmt);
    assert "Epoch" + ":" + DecimalString(n) == t;
    assert Segment("epoch", IntV(n), None, fmt) == Some(t);
    assert Get(obj, "mode") == StrV(s) by {
      assert obj[0].0 != "mode";
      assert obj[1..] == [("mode", StrV(s))];
    }
    assert ["epoch", "mode"][1..] == ["mode"];
    assert ["mode"][1..] == [];
    assert Segment("mode", StrV(s), Some(t), fmt) == Some(t);
    assert [t] + [t] == [t, t];
    assert [] + [t] == [t];
    assert Scan(obj, ["mode"], [t], Some(t), fmt) == Scan(obj, [], [t, t], Some(t), fmt);
    assert Scan(obj, ["epoch", "mode"], [], None, fmt) == Scan(obj, ["mode"], [t], Some(t), fmt);
  }

  /** The intended text never reads an unassigned local: it fails only on a bad index. */
  lemma {:induction false} IntendedAgrees(records: seq<Record>, idx: int, cols: seq<string>, fmt: FloatFormat)
    requires -|records| <= idx < |records|
    requires AllNumeric(Index(records, idx).value, cols)
    ensures TextOf(records, idx, cols, fmt) == IntendedText(records, idx, cols, fmt)
  {
    var obj := Index(records, idx).value;
    NumericScan(obj, cols, [], None, fmt);
    assert [] + IntendedSegments(obj, cols, fmt) == IntendedSegments(obj, cols, fmt);
  }

  // ---------------------------------------------------------------------
  // the manager

  /** The class attribute `SummaryManager.storage`, one list for every instance. */
  class SharedLog {
    var records: seq<Record>

    constructor ()
      ensures records == []
    {
      records := [];
    }
  }

  class SummaryManager {
    const columns: seq<string>
    const boardEnabled: bool
    const boardColumns: seq<string>
    const fmt: FloatFormat
    const storage: SharedLog
    /** What the board writer has received. */
    var events: seq<Event>
    /** The log last written to `summary.json`, None before any save. */
    var savedJson: Option<seq<Record>>

    /** `SummaryManager(root_dir, columns, enable_tensorboard, board_columns)` over the shared log. */
    constructor (storage: SharedLog, columns: seq<string>, boardEnabled: bool, boardColumns: seq<string>,
                 fmt: FloatFormat)
      ensures this.storage == storage && this.columns == columns && this.boardEnabled == boardEnabled
      ensures this.boardColumns == boardColumns && this.fmt == fmt
      ensures events == [] && savedJson == None
    {
      this.storage := storage;
      this.columns := columns;
      this.boardEnabled := boardEnabled;
      this.boardColumns := boardColumns;
      this.fmt := fmt;
      events := [];
      savedJson := None;
    }

    /** `__len__`: the length of the shared log. */
    function Len(): nat
      reads storage
    {
      |storage.records|
    }

    /** `append(input)`: store, then, with the board enabled, write the events. */
    method Append(input: Input) returns (err: Option<Error>)
      modifies storage, this`events
      ensures storage.records == old(storage.records) + [Filtered(input, columns)]
      ensures Len() == old(Len()) + 1
      ensures boardEnabled ==>
                var b := BoardEvents(input, boardColumns, fmt);
                events == old(events) + b.events && err == b.error
      ensures !boardEnabled ==> events == old(events) && err == None
    {
      StorageAdd(input);
      err := None;
      if boardEnabled {
        err := BoardAdd(input);
      }
    }

    /** `_storage_add(input)`: one more record, holding only the columns, earlier records untouched. */
    method StorageAdd(input: Input)
      modifies storage
      ensures storage.records == old(storage.records) + [Filtered(input, columns)]
    {
      var input2: Record := [];
      for i := 0 to |columns|
        invariant input2 == Filtered(input, columns[..i])
      {
        assert columns[..i + 1][..i] == columns[..i];
        var key := columns[i];
        var value := Lookup(input, key);
        if value == NoneV {
          continue;
        }
        input2 := Put(input2, key, value);
      }
      assert columns[..|columns|] == columns;
      storage.records := storage.records + [input2];
    }

    /** `_board_add(input)`: the events of `BoardEvents`, up to the exception if one is raised. */
    method BoardAdd(input: Input) returns (err: Option<Error>)
      modifies this`events
      ensures var b := BoardEvents(input, boardColumns, fmt);
              events == old(events) + b.events && err == b.error
    {
      err := None;
      for i := 0 to |boardColumns|
        invariant BoardEvents(input, boardColumns[..i], fmt).error == None
        invariant events == old(events) + BoardEvents(input, boardColumns[..i], fmt).events
      {
        assert boardColumns[..i + 1][..i] == boardColumns[..i];
        var key := boardColumns[i];
        var y := Lookup(input, key);
        if y == NoneV {
          continue;
        }
        if "mode" !in input || "epoch" !in input {
          err := Some(KeyError);
          BoardErrorStays(input, boardColumns, i + 1, fmt);
          return;
        }
        events := events + [Tagged(input, key, fmt)];
      }
      assert boardColumns[..|boardColumns|] == boardColumns;
    }

    /**
     * `get_text(idx)`: the rendering of one record of the shared log,
     * IndexError when `idx` is out of range.
     */
    method GetText(idx: int) returns (r: Outcome<string>)
      ensures r == TextOf(storage.records, idx, columns, fmt)
      // an index in range only fails on a non-numeric present value, and only then
      ensures -|storage.records| <= idx < |storage.records| &&
              AllNumeric(Index(storage.records, idx).value, columns) ==>
                r == IntendedText(storage.records, idx, columns, fmt)
      ensures !(-|storage.records| <= idx < |storage.records|) ==> r == Raised(IndexError)
    {
      var found := Index(storage.records, idx);
      if found.None? {
        return Raised(IndexError);
      }
      var obj := found.value;
      var textList: seq<string> := [];
      var text: Option<string> := None;
      for i := 0 to |columns|
        invariant Scan(obj, columns, [], None, fmt) == Scan(obj, columns[i..], textList, text, fmt)
      {
        assert columns[i..][1..] == columns[i + 1..];
        var column := columns[i];
        var value := Get(obj, column);
        if value == NoneV {
          continue;
        }
        if value.IntV? {
          text := Some(Title(column) + ":" + Rendered(value, "int", fmt));
        } else if value.FloatV? {
          text := Some(Title(column) + ":" + Rendered(value, "float", fmt));
        }
        if text.None? {
          return Raised(UnboundLocalError);
        }
        textList := textList + [text.value];
      }
      r := Done(Join(textList, " "));
      if -|storage.records| <= idx < |storage.records| && AllNumeric(obj, columns) {
        IntendedAgrees(storage.records, idx, columns, fmt);
      }
    }

    /** `save()`: `summary.json` holds the whole shared log; the log itself is untouched. */
    method Save()
      modifies this`savedJson
      ensures savedJson == Some(storage.records)
    {
      savedJson := Some(storage.records);
    }
  }

  /** Once the board loop has raised, the result for any longer prefix is that same raise. */
  lemma {:induction false} BoardErrorStays(input: Input, cols: seq<string>, i: nat, fmt: FloatFormat)
    requires 0 < i <= |cols|
    requires BoardEvents(input, cols[..i - 1], fmt).error == None
    requires Lookup(input, cols[i - 1]) != NoneV && ("mode" !in input || "epoch" !in input)
    ensures BoardEvents(input, cols, fmt)
            == BoardResult(BoardEvents(input, cols[..i - 1], fmt).events, Some(KeyError))
    decreases |cols|
  {
    if i < |cols| {
      var init := cols[..|cols| - 1];
      assert init[..i - 1] == cols[..i - 1];
      assert init[i - 1] == cols[i - 1];
      BoardErrorStays(input, init, i, fmt);
    } else {
      assert cols[..|cols| - 1] == cols[..i - 1];
    }
  }
}
