/**
 * Structural serialisers of the backend (backend/src/shared/serializer.py): conversion of
 * objects to dicts for logging, flattening of csv inputs into a list of rows, and the
 * rendering of a list of rows as prompt text.
 */
module Serializer {
  import opened Wrappers
  import opened Py

  /** Default `no_data_return` of `csv_string_to_dict_list`. */
  const NoDataAvailable := "No data available"

  /** The `strftime` format used for datetime values in prompt text. */
  const PromptTimestampFormat := "%Y-%m-%d %H:%M:%S.%f"

  /**
   * `obj_to_dict`: a pydantic model becomes its `.dict()`, an object with `__dict__` the dict
   * of its attributes; anything else comes back unchanged.
   */
  function ObjToDict(v: Value, lib: Lib): (r: Value)
    ensures v.Model? ==> r == lib.modelDump(v.fields)
    ensures v.Instance? ==> r == Dict(v.attrs)
    ensures !v.Model? && !v.Instance? ==> r == v
  {
    match v
    case Model(fields) => lib.modelDump(fields)
    case Instance(attrs) => Dict(attrs)
    case _ => v
  }

  /**
   * What `serialize_to_dict` returns: `None` stays `None`; a dict keeps its keys and each
   * value is serialised recursively; a list keeps its length and order and each item is
   * converted one level by `obj_to_dict`, without recursion; anything else goes through
   * `obj_to_dict`.
   */
  function Serialized(v: Value, lib: Lib): (r: Value)
    ensures v.NoneValue? ==> r.NoneValue?
    ensures v.Dict? ==> r.Dict? && r.entries.Keys == v.entries.Keys
    ensures v.Dict? ==> forall k :: k in v.entries ==> r.entries[k] == Serialized(v.entries[k], lib)
    ensures v.List? ==> r.List? && |r.items| == |v.items|
    ensures v.List? ==> forall i :: 0 <= i < |v.items| ==> r.items[i] == ObjToDict(v.items[i], lib)
  {
    match v
    case NoneValue => NoneValue
    case List(items) => List(seq(|items|, i requires 0 <= i < |items| => ObjToDict(items[i], lib)))
    case Dict(m) => Dict(map k | k in m :: Serialized(m[k], lib))
    case _ => ObjToDict(v, lib)
  }

  /** `serialize_to_dict`, filling the output dict key by key as the source does. */
  method SerializeToDict(v: Value, lib: Lib) returns (r: Value)
    ensures r == Serialized(v, lib)
    decreases v
  {
    if v.NoneValue? {
      return NoneValue;
    }
    if v.List? {
      r := List(seq(|v.items|, i requires 0 <= i < |v.items| => ObjToDict(v.items[i], lib)));
    } else if v.Dict? {
      var serialized: map<string, Value> := map[];
      var pending := v.entries.Keys;
      while pending != {}
        invariant pending <= v.entries.Keys
        invariant serialized.Keys == v.entries.Keys - pending
        invariant forall k :: k in serialized ==> serialized[k] == Serialized(v.entries[k], lib)
        decreases pending
      {
        var key :| key in pending;
        var value := SerializeToDict(v.entries[key], lib);
        serialized := serialized[key := value];
        pending := pending - {key};
      }
      r := Dict(serialized);
    } else {
      r := ObjToDict(v, lib);
    }
  }

  /** A value `serialize_to_dict` has nothing left to convert in. */
  predicate IsSerializedForm(v: Value)
  {
    match v
    case Instance(_) => false
    case Model(_) => false
    case List(items) => forall i :: 0 <= i < |items| ==> !items[i].Instance? && !items[i].Model?
    case Dict(m) => forall k :: k in m ==> IsSerializedForm(m[k])
    case _ => true
  }

  /** Serialising data that holds no objects where the serialiser looks gives the same data back. */
  lemma {:induction false} SerializedFormIsFixpoint(v: Value, lib: Lib)
    requires IsSerializedForm(v)
    ensures Serialized(v, lib) == v
    decreases v
  {
    match v
    case Dict(m) =>
      forall k | k in m ensures Serialized(m[k], lib) == m[k] {
        SerializedFormIsFixpoint(m[k], lib);
      }
      assert Serialized(v, lib).entries == m;
    case List(items) =>
      assert Serialized(v, lib).items == items;
    case _ =>
  }

  /** The items `list.extend(v)` adds for a list or a string: the list's items, or one string per character. */
  function Elements(v: Value): (r: seq<Value>)
    requires v.List? || v.Str?
    ensures v.List? ==> r == v.items
    ensures v.Str? ==> |r| == |v.s| && forall i :: 0 <= i < |v.s| ==> r[i] == Str([v.s[i]])
  {
    if v.List? then v.items else seq(|v.s|, i requires 0 <= i < |v.s| => Str([v.s[i]]))
  }

  /**
   * What `csv_string_to_dict_list(data, no_data_return)` returns: a string is parsed as csv;
   * a list gives the concatenation of the results for its elements (each computed with the
   * DEFAULT `no_data_return`); anything else gives `no_data_return`.
   */
  function CsvRows(data: Value, noDataReturn: string, lib: Lib): (r: Value)
    ensures r.List? || r.Str?
    ensures data.Str? ==> r == List(lib.parseCsv(data.s))
    ensures data.List? ==> r.List?
    ensures !data.Str? && !data.List? ==> r == Str(noDataReturn)
  {
    match data
    case Str(s) => List(lib.parseCsv(s))
    case List(items) => List(CsvPieces(items, lib))
    case _ => Str(noDataReturn)
  }

  /** The concatenation, in order, of what `extend` adds for each element's recursive result. */
  function CsvPieces(items: seq<Value>, lib: Lib): seq<Value>
  {
    if |items| == 0 then []
    else CsvPieces(items[..|items| - 1], lib) + Elements(CsvRows(items[|items| - 1], NoDataAvailable, lib))
  }

  /** The concatenation, in order, of a list of lists. */
  function Flatten(parts: seq<seq<Value>>): seq<Value>
  {
    if |parts| == 0 then [] else Flatten(parts[..|parts| - 1]) + parts[|parts| - 1]
  }

  lemma {:induction false} FlattenAppend(p: seq<seq<Value>>, q: seq<seq<Value>>)
    ensures Flatten(p + q) == Flatten(p) + Flatten(q)
    decreases |q|
  {
    if |q| == 0 {
      assert p + q == p;
    } else {
      var q' := q[..|q| - 1];
      assert (p + q)[..|p + q| - 1] == p + q';
      FlattenAppend(p, q');
    }
  }

  /** What `extend` adds for each element, one list per element. */
  function RowPieces(items: seq<Value>, lib: Lib): (r: seq<seq<Value>>)
    ensures |r| == |items|
  {
    seq(|items|, i requires 0 <= i < |items| => Elements(CsvRows(items[i], NoDataAvailable, lib)))
  }

  lemma {:induction false} CsvPiecesIsFlatten(items: seq<Value>, lib: Lib)
    ensures CsvPieces(items, lib) == Flatten(RowPieces(items, lib))
    decreases |items|
  {
    if |items| > 0 {
      var n := |items| - 1;
      assert RowPieces(items, lib)[..n] == RowPieces(items[..n], lib);
      CsvPiecesIsFlatten(items[..n], lib);
    }
  }

  /** The flattening of a list distributes over concatenation of its elements. */
  lemma CsvPiecesAppend(a: seq<Value>, b: seq<Value>, lib: Lib)
    ensures CsvPieces(a + b, lib) == CsvPieces(a, lib) + CsvPieces(b, lib)
  {
    CsvPiecesIsFlatten(a + b, lib);
    CsvPiecesIsFlatten(a, lib);
    CsvPiecesIsFlatten(b, lib);
    RowPiecesAppend(a, b, lib);
    FlattenAppend(RowPieces(a, lib), RowPieces(b, lib));
  }

  lemma RowPiecesAppend(a: seq<Value>, b: seq<Value>, lib: Lib)
    ensures RowPieces(a + b, lib) == RowPieces(a, lib) + RowPieces(b, lib)
  {
    var l, r := RowPieces(a + b, lib), RowPieces(a, lib) + RowPieces(b, lib);
    forall i | 0 <= i < |l| ensures l[i] == r[i] {
      if i < |a| {
        assert (a + b)[i] == a[i];
      } else {
        assert (a + b)[i] == b[i - |a|];
      }
    }
  }

  /**
   * A list of csv texts gives the rows of every text, in order: the list result is the
   * concatenation of the results for its two halves.
   */
  lemma CsvListConcatenates(a: seq<Value>, b: seq<Value>, lib: Lib)
    ensures CsvRows(List(a + b), NoDataAvailable, lib).items
         == CsvRows(List(a), NoDataAvailable, lib).items + CsvRows(List(b), NoDataAvailable, lib).items
  {
    CsvPiecesAppend(a, b, lib);
  }

  /**
   * The quirk of the list case: an element that is neither a string nor a list contributes
   * the characters of "No data available", one string per character, whatever
   * `no_data_return` the caller passed.
   */
  lemma NoDataSpelledOut(d: Value, noDataReturn: string, lib: Lib)
    requires !d.Str? && !d.List?
    ensures CsvRows(List([d]), noDataReturn, lib).items
         == seq(|NoDataAvailable|, i requires 0 <= i < |NoDataAvailable| => Str([NoDataAvailable[i]]))
    ensures |CsvRows(List([d]), noDataReturn, lib).items| == 17
  {
    assert [d][..0] == [];
    var spelled := Elements(Str(NoDataAvailable));
    assert CsvPieces([d], lib) == [] + spelled;
    assert spelled == seq(|NoDataAvailable|, i requires 0 <= i < |NoDataAvailable| => Str([NoDataAvailable[i]]));
  }

  /** `csv_string_to_dict_list`, extending the result element by element as the source does. */
  method CsvStringToDictList(data: Value, noDataReturn: string, lib: Lib) returns (r: Value)
    ensures r == CsvRows(data, noDataReturn, lib)
    decreases data
  {
    if data.Str? {
      return List(lib.parseCsv(data.s));
    } else if data.List? {
      var result: seq<Value> := [];
      var i := 0;
      while i < |data.items|
        invariant 0 <= i <= |data.items|
        invariant result == CsvPieces(data.items[..i], lib)
      {
        var piece := CsvStringToDictList(data.items[i], NoDataAvailable, lib);
        assert data.items[..i + 1][..i] == data.items[..i];
        result := result + Elements(piece);
        i := i + 1;
      }
      assert data.items[..i] == data.items;
      return List(result);
    }
    return Str(noDataReturn);
  }

  /** One value of a prompt row: a datetime becomes its formatted text, anything else is kept. */
  function PromptValue(v: Value, lib: Lib): Value
  {
    if v.DateTime? then Str(lib.strftime(v.moment, PromptTimestampFormat)) else v
  }

  /** A prompt row: the same keys, only datetime values replaced by formatted strings. */
  function PromptRow(row: map<string, Value>, lib: Lib): (r: map<string, Value>)
    ensures r.Keys == row.Keys
    ensures forall k :: k in row && !row[k].DateTime? ==> r[k] == row[k]
    ensures forall k :: k in row && row[k].DateTime? ==> r[k] == Str(lib.strftime(row[k].moment, PromptTimestampFormat))
  {
    map k | k in row :: PromptValue(row[k], lib)
  }

  /**
   * The rows `dataset_to_prompt_text` builds: one output row per input row, in order; a row
   * that is not a dict has no `.items()` and raises `AttributeError`.
   */
  function PromptRows(rows: seq<Value>, lib: Lib): (r: Result<seq<Value>, Error>)
    ensures r.Ok? <==> forall i :: 0 <= i < |rows| ==> rows[i].Dict?
    ensures r.Err? ==> r.error == AttributeError
    ensures r.Ok? ==> |r.value| == |rows|
    ensures r.Ok? ==> forall i :: 0 <= i < |rows| ==> r.value[i] == Dict(PromptRow(rows[i].entries, lib))
  {
    if |rows| == 0 then Ok([])
    else
      var last := rows[|rows| - 1];
      match PromptRows(rows[..|rows| - 1], lib)
      case Err(e) => Err(e)
      case Ok(done) =>
        if last.Dict? then Ok(done + [Dict(PromptRow(last.entries, lib))]) else Err(AttributeError)
  }

  /**
   * What `dataset_to_prompt_text` returns: `str(dataset)` for `None` or anything that is not
   * a list, otherwise `str()` of the converted rows.
   */
  function PromptText(dataset: Value, lib: Lib): Result<string, Error>
  {
    if !dataset.List? then Ok(StrOf(dataset, lib))
    else
      match PromptRows(dataset.items, lib)
      case Err(e) => Err(e)
      case Ok(rows) => Ok(StrOf(List(rows), lib))
  }

  /** Rows without datetime values pass into the prompt unchanged. */
  lemma PromptRowsKeepPlainRows(rows: seq<Value>, lib: Lib)
    requires forall i :: 0 <= i < |rows| ==> rows[i].Dict?
    requires forall i, k :: 0 <= i < |rows| && k in rows[i].entries ==> !rows[i].entries[k].DateTime?
    ensures PromptRows(rows, lib) == Ok(rows)
  {
    var r := PromptRows(rows, lib).value;
    forall i | 0 <= i < |rows| ensures r[i] == rows[i] {
      var row := rows[i].entries;
      assert forall k :: k in row ==> PromptRow(row, lib)[k] == row[k];
      assert PromptRow(row, lib) == row;
    }
    assert r == rows;
  }

  /** `dataset_to_prompt_text`, building each row key by key and appending the rows in order. */
  method DatasetToPromptText(dataset: Value, lib: Lib) returns (r: Result<string, Error>)
    ensures r == PromptText(dataset, lib)
  {
    if !dataset.List? {
      return Ok(StrOf(dataset, lib));
    }
    var rows := dataset.items;
    var data: seq<Value> := [];
    var i := 0;
    while i < |rows|
      invariant 0 <= i <= |rows|
      invariant PromptRows(rows[..i], lib) == Ok(data)
    {
      assert rows[..i + 1][..i] == rows[..i];
      if !rows[i].Dict? {
        assert PromptRows(rows[..i + 1], lib).Err?;
        PromptRowsErrorPersists(rows, i + 1, lib);
        return Err(AttributeError);
      }
      var row := rows[i].entries;
      var item: map<string, Value> := map[];
      var pending := row.Keys;
      while pending != {}
        invariant pending <= row.Keys
        invariant item.Keys == row.Keys - pending
        invariant forall k :: k in item ==> item[k] == PromptValue(row[k], lib)
        decreases pending
      {
        var key :| key in pending;
        item := item[key := PromptValue(row[key], lib)];
        pending := pending - {key};
      }
      assert item == PromptRow(row, lib);
      data := data + [Dict(item)];
      i := i + 1;
    }
    assert rows[..i] == rows;
    return Ok(StrOf(List(data), lib));
  }

  /** Once a prefix of the rows fails, the whole list fails. */
  lemma PromptRowsErrorPersists(rows: seq<Value>, n: nat, lib: Lib)
    requires n <= |rows|
    requires PromptRows(rows[..n], lib).Err?
    ensures PromptRows(rows, lib).Err?
  {
    var i :| 0 <= i < n && !rows[..n][i].Dict?;
    assert !rows[i].Dict?;
  }
}
