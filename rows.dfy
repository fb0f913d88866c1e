/** The records that records.py builds with collections.namedtuple: a type whose fields are
    the keys of one dict, instantiated with T(**dic) for each dict of a list. */
module Rows {
  import opened Outcomes
  import opened Json

  /** One namedtuple instance: its field names and their values. */
  datatype Row = Row(fields: map<string, Value>)

  /** keyword.kwlist of Python 3: the names namedtuple refuses as field names. */
  const KEYWORDS: set<string> := {
    "False", "None", "True", "and", "as", "assert", "async", "await", "break", "class",
    "continue", "def", "del", "elif", "else", "except", "finally", "for", "from", "global",
    "if", "import", "in", "is", "lambda", "nonlocal", "not", "or", "pass", "raise",
    "return", "try", "while", "with", "yield"
  }

  predicate IsLetter(c: char) {
    'a' <= c <= 'z' || 'A' <= c <= 'Z'
  }

  predicate IsDigit(c: char) {
    '0' <= c <= '9'
  }

  /** A name namedtuple accepts as a field: an identifier that is not a keyword and does not
      start with an underscore. */
  predicate IsFieldName(s: string) {
    && |s| > 0
    && IsLetter(s[0])
    && (forall i :: 1 <= i < |s| ==> IsLetter(s[i]) || IsDigit(s[i]) || s[i] == '_')
    && s !in KEYWORDS
  }

  predicate ValidFieldNames(names: set<string>) {
    forall n :: n in names ==> IsFieldName(n)
  }

  /** T(**e) succeeds for T = namedtuple(_, shape) exactly when e is a dict with those keys. */
  predicate Fits(shape: set<string>, e: Value) {
    e.Obj? && e.fields.Keys == shape
  }

  /** The exception T(**e) raises for the entry at index i that does not fit. */
  function Misfit(e: Value, i: nat): Error {
    if e.Obj? then FieldsDiffer(i) else NotAMapping
  }

  ghost predicate FirstMisfit(shape: set<string>, es: seq<Value>, i: int) {
    && 0 <= i < |es|
    && !Fits(shape, es[i])
    && forall j :: 0 <= j < i ==> Fits(shape, es[j])
  }

  /** [T(**e) for e in es] for T = namedtuple(_, shape): one row per entry, in order, or the
      failure of the first entry that does not fit. */
  function RowsOf(shape: set<string>, es: seq<Value>): (r: Result<seq<Row>>)
    ensures r.Success? <==> forall i :: 0 <= i < |es| ==> Fits(shape, es[i])
    ensures r.Success? ==>
      && |r.value| == |es|
      && forall i :: 0 <= i < |es| ==> r.value[i] == Row(es[i].fields)
    ensures r.Failure? ==>
      exists i :: FirstMisfit(shape, es, i) && r.error == Misfit(es[i], i)
  {
    if es == [] then Success([])
    else
      var n := |es| - 1;
      match RowsOf(shape, es[..n])
      case Failure(e) =>
        assert forall i :: FirstMisfit(shape, es[..n], i) ==> FirstMisfit(shape, es, i);
        Failure(e)
      case Success(init) =>
        if Fits(shape, es[n]) then Success(init + [Row(es[n].fields)])
        else Failure(Misfit(es[n], n))
  }

  /** A list that namedtuple(_, ls[0]) and [T(**d) for d in ls] turn into rows: non-empty,
      its first entry a dict with valid field names, every entry a dict with the same keys. */
  ghost predicate Uniform(v: Value) {
    && v.Arr?
    && |v.items| > 0
    && v.items[0].Obj?
    && ValidFieldNames(v.items[0].fields.Keys)
    && forall i :: 0 <= i < |v.items| ==> Fits(v.items[0].fields.Keys, v.items[i])
  }

  /** T = namedtuple(_, ls[0]); [T(**d) for d in ls]. */
  function BuildRows(ls: Value): (r: Result<seq<Row>>)
    ensures r.Success? <==> Uniform(ls)
    ensures r.Success? ==>
      && |r.value| == |ls.items|
      && forall i :: 0 <= i < |ls.items| ==> r.value[i].fields == ls.items[i].fields
    ensures !ls.Arr? ==> r == Failure(NotAList)
    ensures ls == Arr([]) ==> r == Failure(EmptyList)
    ensures ls.Arr? && |ls.items| > 0 && ls.items[0].Obj? && !ValidFieldNames(ls.items[0].fields.Keys) ==>
      r == Failure(InvalidFieldNames)
    ensures ls.Arr? && |ls.items| > 0 && ls.items[0].Obj? && ValidFieldNames(ls.items[0].fields.Keys) && !Uniform(ls) ==>
      exists i :: 0 < i && FirstMisfit(ls.items[0].fields.Keys, ls.items, i) && r == Failure(Misfit(ls.items[i], i))
  {
    if !ls.Arr? then Failure(NotAList)
    else if ls.items == [] then Failure(EmptyList)
    else if !ls.items[0].Obj? then Failure(NotAMapping)
    else if !ValidFieldNames(ls.items[0].fields.Keys) then Failure(InvalidFieldNames)
    else RowsOf(ls.items[0].fields.Keys, ls.items)
  }

  /** T = namedtuple(_, d); T(**d): a single row holding the fields of one dict. */
  function BuildRow(d: Value): (r: Result<Row>)
    ensures r.Success? <==> d.Obj? && ValidFieldNames(d.fields.Keys)
    ensures r.Success? ==> r.value.fields == d.fields
    ensures !d.Obj? ==> r == Failure(NotAMapping)
  {
    if !d.Obj? then Failure(NotAMapping)
    else if !ValidFieldNames(d.fields.Keys) then Failure(InvalidFieldNames)
    else Success(Row(d.fields))
  }

  /** [row.<attr> for row in rows]: the attribute of every row, or AttributeError as soon as
      one row lacks it. */
  function AttributeOf(rows: seq<Row>, attr: string): (r: Result<seq<Value>>)
    ensures r.Success? <==> forall i :: 0 <= i < |rows| ==> attr in rows[i].fields
    ensures r.Success? ==>
      && |r.value| == |rows|
      && forall i :: 0 <= i < |rows| ==> r.value[i] == rows[i].fields[attr]
    ensures r.Failure? ==> r.error == NoAttribute(attr)
  {
    if rows == [] then Success([])
    else
      var n := |rows| - 1;
      match AttributeOf(rows[..n], attr)
      case Failure(e) => Failure(e)
      case Success(init) =>
        if attr in rows[n].fields then Success(init + [rows[n].fields[attr]])
        else Failure(NoAttribute(attr))
  }
}
