/** Values shared by every module of the trading-bot model: optional values,
    Python exceptions, the scalar values stored in the JSON and CSV journals,
    and the journal files themselves. */
module Common {

  datatype Option<+T> = None | Some(value: T)

  /** The Python exceptions that the modelled code lets escape to its caller. */
  datatype PyError =
    | ZeroDivisionError
    | ValueError(message: string)
    | JsonDecodeError
    | NameError(name: string)
    | FileNotFoundError
    | StopIteration
    | IndexError
    | KeyError(key: string)
    | EmptyDataError
    | TypeError(message: string)
    | AttributeError(name: string)

  /** What a Python call does: it returns a value or raises an exception. */
  datatype Outcome<+T> = Returns(value: T) | Raises(error: PyError)

  /** A scalar inside a JSON record or a CSV row. `StrOf(v)` is the text
      `str(v)` of a value that is not already a string; its characters are
      not modelled, only where it came from. */
  datatype Scalar = Null | Bool(b: bool) | Num(n: real) | Str(s: string) | StrOf(shown: Scalar)

  /** A JSON object (a Python dict with string keys). */
  type Record = map<string, Scalar>

  /** A CSV row. The csv module writes each value as its `str()` text, so
      a logged number is stored as `StrOf(Num(x))`. */
  type Row = seq<Scalar>

  /** Python truthiness of a scalar: None, False, 0 and "" are falsy. The
      text of `str(v)` is never empty, so it is truthy. */
  predicate Truthy(v: Scalar) {
    match v
    case Null => false
    case Bool(b) => b
    case Num(n) => n != 0.0
    case Str(s) => s != ""
    case StrOf(_) => true
  }

  /** Python `str(v)`: a string stays itself, anything else becomes its text. */
  function PyStr(v: Scalar): (r: Scalar)
    ensures r.Str? || r.StrOf?
    ensures v.Str? || v.StrOf? ==> r == v
    ensures !(v.Str? || v.StrOf?) ==> r == StrOf(v)
    ensures Truthy(r) <== !v.Str?
  {
    if v.Str? || v.StrOf? then v else StrOf(v)
  }

  /** Python `d.get(key)`: the value stored under `key`, or None. */
  function Get(r: Record, key: string): (v: Scalar)
    ensures key !in r ==> v == Null
    ensures key in r ==> v == r[key]
  {
    if key in r then r[key] else Null
  }

  /** A number is stored under `key`. */
  predicate HasNumber(r: Record, key: string) {
    key in r && r[key].Num?
  }

  /** What Python `float(v)` accepts in this model: a number, or the text
      `str(x)` of a number. Other text is not parsed. */
  predicate Floatable(v: Scalar) {
    v.Num? || (v.StrOf? && v.shown.Num?)
  }

  /** Python `float(v)`; `float(str(x))` is `x` again. */
  function FloatOf(v: Scalar): (x: real)
    requires Floatable(v)
    ensures PyStr(v) == PyStr(Num(x))
  {
    if v.Num? then v.n else v.shown.n
  }

  /** A value `float()` accepts is stored under `key`. */
  predicate HasFloat(r: Record, key: string) {
    key in r && Floatable(r[key])
  }

  /** The text the csv module writes for a number reads back, through
      `float()`, as that number. */
  lemma FloatOfStr(x: real)
    ensures Floatable(PyStr(Num(x))) && FloatOf(PyStr(Num(x))) == x
  {
  }

  /** `s.startswith(prefix)` */
  predicate StartsWith(s: string, prefix: string) {
    |prefix| <= |s| && s[..|prefix|] == prefix
  }

  /** A scalar read from a journal is a string that starts with `prefix`
      (the journals' timestamp test `value.startswith(today)`). */
  predicate TextStartsWith(v: Scalar, prefix: string) {
    v.Str? && StartsWith(v.s, prefix)
  }

  function Abs(x: real): (r: real)
    ensures r >= 0.0
    ensures r == x || r == -x
  {
    if x < 0.0 then -x else x
  }

  function Min(a: real, b: real): (r: real)
    ensures r <= a && r <= b
    ensures r == a || r == b
  {
    if a <= b then a else b
  }

  /** The sum of a sequence of amounts, added from the left as Python's `sum`. */
  function Sum(xs: seq<real>): real
  {
    if xs == [] then 0.0 else Sum(xs[..|xs| - 1]) + xs[|xs| - 1]
  }

  lemma {:induction false} SumAppend(xs: seq<real>, ys: seq<real>)
    ensures Sum(xs + ys) == Sum(xs) + Sum(ys)
  {
    if ys == [] {
      assert xs + ys == xs;
    } else {
      var zs := ys[..|ys| - 1];
      assert (xs + ys)[..|xs + ys| - 1] == xs + zs;
      SumAppend(xs, zs);
    }
  }

  lemma {:induction false} SumNonNegative(xs: seq<real>)
    requires forall i :: 0 <= i < |xs| ==> xs[i] >= 0.0
    ensures Sum(xs) >= 0.0
  {
    if xs != [] {
      SumNonNegative(xs[..|xs| - 1]);
    }
  }

  /** `s.lower()` on ASCII letters; other characters are kept. */
  function Lower(s: string): (r: string)
    ensures |r| == |s|
    ensures forall i :: 0 <= i < |s| ==> r[i] == LowerChar(s[i])
  {
    if s == [] then [] else [LowerChar(s[0])] + Lower(s[1..])
  }

  function LowerChar(c: char): (r: char)
    ensures 'A' <= c <= 'Z' ==> 'a' <= r <= 'z'
    ensures !('A' <= c <= 'Z') ==> r == c
  {
    if 'A' <= c <= 'Z' then (c as int - 'A' as int + 'a' as int) as char else c
  }

  /** `s.replace(c, "")` for a one-character pattern: every other
      character is kept as often as it occurs. */
  function RemoveChar(s: string, c: char): (r: string)
    ensures c !in r
    ensures |r| <= |s|
    ensures multiset(r) == multiset(s)[c := 0]
  {
    if s == [] then []
    else
      assert s == [s[0]] + s[1..];
      (if s[0] == c then [] else [s[0]]) + RemoveChar(s[1..], c)
  }

  /** Removing a character from two pieces and joining them is removing it
      from the joined string: the kept characters stay in their order. */
  lemma {:induction false} RemoveCharAppend(s: string, t: string, c: char)
    ensures RemoveChar(s + t, c) == RemoveChar(s, c) + RemoveChar(t, c)
  {
    if s == [] {
      assert s + t == t;
    } else {
      var joined := s + t;
      assert joined[0] == s[0] && joined[1..] == s[1..] + t;
      var head := if s[0] == c then [] else [s[0]];
      assert RemoveChar(joined, c) == head + RemoveChar(s[1..] + t, c);
      RemoveCharAppend(s[1..], t, c);
    }
  }

  /** What `json.load` gives for a JSON list file: nothing, a decode
      error, or the stored list of records. */
  datatype JsonFileState = NoFile | Corrupt | Stored(entries: seq<Record>)

  /** The fallback most readers of the trade log use: a missing or corrupted
      file reads as the empty list. */
  function EntriesOrEmpty(f: JsonFileState): (r: seq<Record>)
    ensures f.Stored? ==> r == f.entries
    ensures !f.Stored? ==> r == []
  {
    if f.Stored? then f.entries else []
  }

  /** A JSON list file on disk, such as trading_bot/execution/trade_log.json. */
  class JsonLog {
    var state: JsonFileState

    constructor(initial: JsonFileState)
      ensures state == initial
    {
      state := initial;
    }
  }

  /** The rows of a CSV file after a header is written to it only when the
      file is absent. */
  function CreatedWithHeader(rows: Option<seq<Row>>, header: Row): (r: Option<seq<Row>>)
    ensures rows.None? ==> r == Some([header])
    ensures rows.Some? ==> r == rows
  {
    if rows.None? then Some([header]) else rows
  }

  /** Writing the header only to an absent file is idempotent. */
  lemma CreatedWithHeaderIdempotent(rows: Option<seq<Row>>, header: Row)
    ensures CreatedWithHeader(CreatedWithHeader(rows, header), header) == CreatedWithHeader(rows, header)
  {
  }

  /** The rows of a CSV file after one row is written in append mode, which
      creates an absent file (without a header). */
  function AppendRow(rows: Option<seq<Row>>, row: Row): (r: Option<seq<Row>>)
    ensures r.Some?
    ensures rows.None? ==> r.value == [row]
    ensures rows.Some? ==> |r.value| == |rows.value| + 1 && r.value[..|rows.value|] == rows.value
    ensures r.value[|r.value| - 1] == row
  {
    if rows.None? then Some([row]) else Some(rows.value + [row])
  }

  /** A CSV file on disk: absent, or its rows in file order. */
  class CsvFile {
    var rows: Option<seq<Row>>

    constructor(initial: Option<seq<Row>>)
      ensures rows == initial
    {
      rows := initial;
    }
  }
}
