/** A Zenodo repository record: the parsed metadata of one record, the datasets (files) it
    lists, lookup of a dataset by name, the metadata accessors, and the streamed download of
    one dataset into a directory. */
module Records {
  import opened Outcomes
  import opened Json
  import opened Paths
  import opened Rows
  import opened Files

  /** What requests.get(link, stream=True) delivers: either the call itself raises before any
      byte arrives, or iter_content yields these chunks and then either ends or raises. */
  datatype Response =
    | Refused
    | Streamed(chunks: seq<Bytes>, complete: bool)

  /** The message of the ValueError that find raises for a name no dataset has. */
  function NotFoundMessage(name: string): string {
    "No dataset in this record is named " + name + "."
  }

  /** A file entry whose 'links' is a dict holding a 'self' link. */
  ghost predicate HasSelfLink(e: Value) {
    e.Obj? && "links" in e.fields && e.fields["links"].Obj? && "self" in e.fields["links"].fields
  }

  /** dic['links'] = dic['links']['self'] for one entry of the file listing. */
  function Flatten(entry: Value): (r: Result<Value>)
    ensures r.Success? <==> HasSelfLink(entry)
    ensures r.Success? ==>
      && r.value.Obj?
      && r.value.fields.Keys == entry.fields.Keys
      && r.value.fields["links"] == entry.fields["links"].fields["self"]
      && forall k :: k in entry.fields && k != "links" ==> r.value.fields[k] == entry.fields[k]
    ensures r.Failure? ==> r == At(entry, ["links", "self"])
  {
    assert ["links", "self"][1..] == ["self"];
    var links :- Get(entry, "links");
    var selfLink :- Get(links, "self");
    Success(Obj(entry.fields["links" := selfLink]))
  }

  ghost predicate FirstFailure(es: seq<Value>, i: int) {
    && 0 <= i < |es|
    && Flatten(es[i]).Failure?
    && forall j :: 0 <= j < i ==> Flatten(es[j]).Success?
  }

  /** `for dic in ls: dic['links'] = dic['links']['self']` over the copied listing: every entry
      flattened in place, or the exception of the first entry that has no self link. */
  function FlattenAll(es: seq<Value>): (r: Result<seq<Value>>)
    ensures r.Success? <==> forall i :: 0 <= i < |es| ==> Flatten(es[i]).Success?
    ensures r.Success? ==>
      && |r.value| == |es|
      && forall i :: 0 <= i < |es| ==> Flatten(es[i]) == Success(r.value[i])
    ensures r.Failure? ==> exists i :: FirstFailure(es, i) && r.error == Flatten(es[i]).error
  {
    if es == [] then Success([])
    else
      var n := |es| - 1;
      assert forall i :: 0 <= i < n ==> es[..n][i] == es[i];
      match FlattenAll(es[..n])
      case Failure(e) =>
        assert forall i :: FirstFailure(es[..n], i) ==> FirstFailure(es, i);
        Failure(e)
      case Success(init) =>
        match Flatten(es[n])
        case Failure(e) =>
          assert FirstFailure(es, n);
          Failure(e)
        case Success(flat) =>
          var all := init + [flat];
          assert forall i :: 0 <= i < n ==> all[i] == init[i];
          Success(all)
  }

  /** Zenodo.datasets as a function of the stored JSON. */
  function DatasetsOf(json: Value): Result<seq<Row>> {
    var files :- Get(json, "files");
    if !files.Arr? then Failure(NotAList)
    else
      var flat :- FlattenAll(files.items);
      BuildRows(Arr(flat))
  }

  /** The file listing of a response that datasets turns into rows: a non-empty list of dicts
      with self links, whose first entry's keys are valid field names and which all have the
      keys of the first entry. */
  ghost predicate WellFormedListing(json: Value) {
    && json.Obj?
    && "files" in json.fields
    && json.fields["files"].Arr?
    && var files := json.fields["files"].items;
    && |files| > 0
    && (forall i :: 0 <= i < |files| ==> HasSelfLink(files[i]))
    && ValidFieldNames(files[0].fields.Keys)
    && forall i :: 0 <= i < |files| ==> files[i].fields.Keys == files[0].fields.Keys
  }

  /** datasets succeeds exactly on a well-formed listing. */
  lemma DatasetsSucceedIff(json: Value)
    ensures DatasetsOf(json).Success? <==> WellFormedListing(json)
  {
  }

  /** One row per file entry, in order; each row's links is the entry's self link and every
      other field is the entry's own. */
  lemma DatasetsRows(json: Value)
    requires DatasetsOf(json).Success?
    ensures json.Obj? && "files" in json.fields && json.fields["files"].Arr?
    ensures var files := json.fields["files"].items;
      var rows := DatasetsOf(json).value;
      && |rows| == |files|
      && forall i :: 0 <= i < |files| ==>
        && HasSelfLink(files[i])
        && rows[i].fields.Keys == files[i].fields.Keys
        && rows[i].fields["links"] == files[i].fields["links"].fields["self"]
        && forall k :: k in files[i].fields && k != "links" ==> rows[i].fields[k] == files[i].fields[k]
  {
  }

  /** The ways datasets fails, each with the exception records.py raises. */
  lemma DatasetsFailures(json: Value)
    ensures !json.Obj? ==> DatasetsOf(json) == Failure(NotAnObject("files"))
    ensures json.Obj? && "files" !in json.fields ==> DatasetsOf(json) == Failure(MissingKey("files"))
    ensures json.Obj? && "files" in json.fields ==>
      && (!json.fields["files"].Arr? ==> DatasetsOf(json) == Failure(NotAList))
      && (json.fields["files"] == Arr([]) ==> DatasetsOf(json) == Failure(EmptyList))
  {
  }

  /** An entry without a self link makes datasets fail with that entry's exception, the first
      such entry in listing order deciding which. */
  lemma DatasetsFirstBadLink(json: Value, i: nat)
    requires json.Obj? && "files" in json.fields && json.fields["files"].Arr?
    requires FirstFailure(json.fields["files"].items, i)
    ensures DatasetsOf(json) == Failure(Flatten(json.fields["files"].items[i]).error)
  {
  }

  /** When every entry has a self link and the first entry's keys are valid field names, an
      entry with other keys makes datasets fail at the first such entry. */
  lemma DatasetsFirstMismatch(json: Value, i: nat)
    requires json.Obj? && "files" in json.fields && json.fields["files"].Arr?
    requires var files := json.fields["files"].items;
      && i < |files|
      && (forall j :: 0 <= j < |files| ==> HasSelfLink(files[j]))
      && ValidFieldNames(files[0].fields.Keys)
      && files[i].fields.Keys != files[0].fields.Keys
      && forall j :: 0 <= j < i ==> files[j].fields.Keys == files[0].fields.Keys
    ensures DatasetsOf(json) == Failure(FieldsDiffer(i))
  {
    var files := json.fields["files"].items;
    var flat := FlattenAll(files).value;
    FlattenKeepsKeys(files, flat);
    assert FirstMisfit(flat[0].fields.Keys, flat, i);
  }

  /** Flattening keeps each entry a dict with the same keys. */
  lemma FlattenKeepsKeys(files: seq<Value>, flat: seq<Value>)
    requires FlattenAll(files) == Success(flat)
    ensures |flat| == |files|
    ensures forall j :: 0 <= j < |files| ==> flat[j].Obj? && files[j].Obj? && flat[j].fields.Keys == files[j].fields.Keys
  {
  }

  /** The first index of x in xs, as list.index finds it. */
  function IndexOf(xs: seq<Value>, x: Value): (r: Option<nat>)
    ensures r.Some? ==> r.value < |xs| && xs[r.value] == x && forall j :: 0 <= j < r.value ==> xs[j] != x
    ensures r.None? <==> forall j :: 0 <= j < |xs| ==> xs[j] != x
  {
    if xs == [] then None
    else
      var n := |xs| - 1;
      match IndexOf(xs[..n], x)
      case Some(i) => Some(i)
      case None => if xs[n] == x then Some(n) else None
  }

  /** A dataset whose key is the given name. */
  predicate Named(row: Row, name: string) {
    "key" in row.fields && row.fields["key"] == Str(name)
  }

  /** Every dataset has a key field. */
  predicate Keyed(rows: seq<Row>) {
    forall i :: 0 <= i < |rows| ==> "key" in rows[i].fields
  }

  ghost predicate FirstNamed(rows: seq<Row>, name: string, i: int) {
    && 0 <= i < |rows|
    && Named(rows[i], name)
    && forall j :: 0 <= j < i ==> !Named(rows[j], name)
  }

  /** dset.links as the string Path() accepts. */
  function LinkOf(dset: Row): (r: Result<string>)
    ensures r.Success? <==> "links" in dset.fields && dset.fields["links"].Str?
    ensures r.Success? ==> r.value == dset.fields["links"].s
    ensures "links" !in dset.fields ==> r == Failure(NoAttribute("links"))
    ensures "links" in dset.fields && !dset.fields["links"].Str? ==> r == Failure(LinkNotAPath)
  {
    if "links" !in dset.fields then Failure(NoAttribute("links"))
    else match dset.fields["links"]
      case Str(s) => Success(s)
      case _ => Failure(LinkNotAPath)
  }

  /** The file that download writes: the given directory, or the working directory when none
      (or an empty one) is given, joined with the last part of the link. */
  function TargetOf(link: string, path: Option<string>, cwd: Path): (t: Path)
    requires cwd.absolute && Normal(cwd)
    ensures Normal(t)
    ensures path == None || path == Some("") ==> t.absolute
    ensures var dir := if path == None || path == Some("") then cwd else Parse(path.value);
      var name := Name(Parse(link));
      && (name == "" ==> t == dir)
      && (name != "" ==> t.parts != [] && Parent(t) == dir && Name(t) == name)
  {
    var fname := Name(Parse(link));
    var dir := if path.None? || path.value == "" then cwd else Parse(path.value);
    JoinPath(dir, fname)
  }

  /** A link whose last part is n sends the download to a file named n. */
  lemma TargetNamedAfterLink(prefix: string, n: string, path: Option<string>, cwd: Path)
    requires IsPart(n)
    requires cwd.absolute && Normal(cwd)
    ensures Name(TargetOf(prefix + "/" + n, path, cwd)) == n
  {
    NameOfLastPart(prefix, n);
  }

  /** A file entry of the response whose key is the given name. */
  ghost predicate EntryNamed(e: Value, name: string) {
    e.Obj? && "key" in e.fields && e.fields["key"] == Str(name)
  }

  ghost predicate FirstEntryNamed(files: seq<Value>, name: string, i: int) {
    && 0 <= i < |files|
    && EntryNamed(files[i], name)
    && forall j :: 0 <= j < i ==> !EntryNamed(files[j], name)
  }

  /** The part of Record.download after the target is known: the request, then
      open(target, 'wb') and one write per chunk as the chunks arrive. */
  method Save(target: Path, response: Response, fs: FileSystem) returns (o: Outcome)
    modifies fs
    ensures response.Refused? ==> o == Fail(Transport) && unchanged(fs)
    ensures response.Streamed? && !old(fs.CanCreate(target)) ==>
      o == Fail(CannotOpen(target)) && unchanged(fs)
    ensures response.Streamed? && old(fs.CanCreate(target)) ==>
      && fs.dirs == old(fs.dirs)
      && fs.files == old(fs.files)[target := Concat(response.chunks)]
      && o == (if response.complete then Pass else Fail(Transport))
  {
    if response.Refused? {
      return Fail(Transport);
    }
    var created := fs.Open(target);
    if !created {
      return Fail(CannotOpen(target));
    }
    var chunks := response.chunks;
    var i := 0;
    while i < |chunks|
      invariant 0 <= i <= |chunks|
      invariant fs.dirs == old(fs.dirs)
      invariant fs.files == old(fs.files)[target := Concat(chunks[..i])]
    {
      fs.Write(target, chunks[i]);
      assert chunks[..i + 1][..i] == chunks[..i];
      i := i + 1;
    }
    assert chunks[..|chunks|] == chunks;
    o := if response.complete then Pass else Fail(Transport);
  }

  /** The body of Zenodo.datasets on a parsed response: copies the listing, flattens each
      entry's links in place, then makes one row per entry with the fields of the first. The
      response itself is left as it was. */
  method ListDatasets(json: Value) returns (r: Result<seq<Row>>)
    ensures r == DatasetsOf(json)
  {
    var files := Get(json, "files");
    if files.Failure? {
      return Failure(files.error);
    }
    if !files.value.Arr? {
      return Failure(NotAList);
    }
    ghost var listing := files.value.items;
    var ls := files.value.items;
    var i := 0;
    while i < |ls|
      invariant 0 <= i <= |ls| == |listing|
      invariant forall k :: 0 <= k < i ==> Flatten(listing[k]) == Success(ls[k])
      invariant forall k :: i <= k < |ls| ==> ls[k] == listing[k]
    {
      var flat := Flatten(ls[i]);
      if flat.Failure? {
        DatasetsFirstBadLink(json, i);
        return Failure(flat.error);
      }
      ls := ls[i := flat.value];
      i := i + 1;
    }
    assert FlattenAll(listing) == Success(ls) by {
      assert forall k :: 0 <= k < |listing| ==> Flatten(listing[k]).Success?;
      var flat := FlattenAll(listing).value;
      assert |flat| == |ls|;
      forall k | 0 <= k < |ls| ensures flat[k] == ls[k] {
        assert Flatten(listing[k]) == Success(flat[k]);
      }
      assert flat == ls;
    }
    r := BuildRows(Arr(ls));
  }

  class Zenodo {
    const url: string
    const json: Value
    const data: seq<Row>

    /** data is what datasets made of the stored JSON. */
    ghost predicate Valid() {
      DatasetsOf(json) == Success(data)
    }

    /** A record over the parsed JSON and the rows datasets made of it. */
    constructor (url: string, json: Value, data: seq<Row>)
      requires DatasetsOf(json) == Success(data)
      ensures this.url == url && this.json == json && this.data == data
      ensures Valid()
    {
      this.url := url;
      this.json := json;
      this.data := data;
    }

    /** Record.__init__ with the metadata GET's parsed body given: stores the JSON and
        computes data = self.datasets() once; a failure of datasets escapes construction. */
    static method Open(url: string, json: Value) returns (r: Result<Zenodo>)
      ensures r.Success? <==> DatasetsOf(json).Success?
      ensures r.Failure? ==> r.error == DatasetsOf(json).error
      ensures r.Success? ==> fresh(r.value) && r.value.url == url && r.value.json == json && r.value.Valid()
    {
      var ds := ListDatasets(json);
      if ds.Failure? {
        return Failure(ds.error);
      }
      var z := new Zenodo(url, json, ds.value);
      return Success(z);
    }

    /** Zenodo.datasets, which recomputes the rows from the stored JSON: on a record built by
        Open they are the rows it holds. */
    method Datasets() returns (r: Result<seq<Row>>)
      ensures r == DatasetsOf(json)
      ensures Valid() ==> r == Success(data)
    {
      r := ListDatasets(json);
    }

    /** Zenodo.find: the first dataset whose key is name; AttributeError when the datasets
        have no key field, ValueError naming the dataset when none has that key. */
    function Find(name: string): (r: Result<Row>)
      ensures r.Success? ==> exists i :: FirstNamed(data, name, i) && r.value == data[i]
      ensures Keyed(data) && (exists i :: 0 <= i < |data| && Named(data[i], name)) ==> r.Success?
      ensures !Keyed(data) ==> r == Failure(NoAttribute("key"))
      ensures Keyed(data) && (forall i :: 0 <= i < |data| ==> !Named(data[i], name)) ==>
        r == Failure(NotFound("No dataset in this record is named " + name + "."))
    {
      var names :- AttributeOf(data, "key");
      match IndexOf(names, Str(name))
      case None => Failure(NotFound(NotFoundMessage(name)))
      case Some(i) => Success(data[i])
    }

    /** The file download(name, path) writes to, or the exception it raises before any
        request is made. */
    function TargetFor(name: string, path: Option<string>, cwd: Path): Result<Path>
      requires cwd.absolute && Normal(cwd)
    {
      var dset :- Find(name);
      var link :- LinkOf(dset);
      Success(TargetOf(link, path, cwd))
    }

    /** Record.download with the streamed response given: find first, then the target, then
        the request, then open(target, 'wb') and one write per chunk. */
    method Download(name: string, path: Option<string>, cwd: Path, response: Response, fs: FileSystem)
      returns (o: Outcome)
      requires cwd.absolute && Normal(cwd)
      modifies fs
      ensures TargetFor(name, path, cwd).Failure? ==>
        o == Fail(TargetFor(name, path, cwd).error) && unchanged(fs)
      ensures TargetFor(name, path, cwd).Success? && response.Refused? ==>
        o == Fail(Transport) && unchanged(fs)
      ensures TargetFor(name, path, cwd).Success? && response.Streamed? ==>
        var target := TargetFor(name, path, cwd).value;
        !old(fs.CanCreate(target)) ==> o == Fail(CannotOpen(target)) && unchanged(fs)
      ensures TargetFor(name, path, cwd).Success? && response.Streamed? ==>
        var target := TargetFor(name, path, cwd).value;
        old(fs.CanCreate(target)) ==>
          && fs.dirs == old(fs.dirs)
          && fs.files == old(fs.files)[target := Concat(response.chunks)]
          && o == (if response.complete then Pass else Fail(Transport))
    {
      var found := Find(name);
      if found.Failure? {
        return Fail(found.error);
      }
      var link := LinkOf(found.value);
      if link.Failure? {
        return Fail(link.error);
      }
      var target := TargetOf(link.value, path, cwd);
      assert TargetFor(name, path, cwd) == Success(target);
      o := Save(target, response, fs);
    }

    /** Zenodo.doi: json['doi']. */
    function Doi(): (r: Result<Value>)
      ensures r == At(json, ["doi"])
    {
      assert ["doi"][1..] == [];
      Get(json, "doi")
    }

    /** Zenodo.date: json['metadata']['publication_date']. */
    function Date(): (r: Result<Value>)
      ensures r == At(json, ["metadata", "publication_date"])
    {
      assert ["metadata", "publication_date"][1..] == ["publication_date"];
      assert ["publication_date"][1..] == [];
      var metadata :- Get(json, "metadata");
      Get(metadata, "publication_date")
    }

    /** Zenodo.license: json['metadata']['license']['id']. */
    function License(): (r: Result<Value>)
      ensures r == At(json, ["metadata", "license", "id"])
    {
      assert ["metadata", "license", "id"][1..] == ["license", "id"];
      assert ["license", "id"][1..] == ["id"];
      assert ["id"][1..] == [];
      var metadata :- Get(json, "metadata");
      var license :- Get(metadata, "license");
      Get(license, "id")
    }

    /** Zenodo.description: json['metadata']['description']. */
    function Description(): (r: Result<Value>)
      ensures r == At(json, ["metadata", "description"])
    {
      assert ["metadata", "description"][1..] == ["description"];
      assert ["description"][1..] == [];
      var metadata :- Get(json, "metadata");
      Get(metadata, "description")
    }

    /** Zenodo.creators: one row per entry of json['metadata']['creators'], with the fields of
        the first entry. */
    function Creators(): (r: Result<seq<Row>>)
      ensures At(json, ["metadata", "creators"]).Failure? ==>
        r.Failure? && r.error == At(json, ["metadata", "creators"]).error
      ensures At(json, ["metadata", "creators"]).Success? ==>
        var ls := At(json, ["metadata", "creators"]).value;
        && (r.Success? <==> Uniform(ls))
        && (r.Success? ==> |r.value| == |ls.items| && forall i :: 0 <= i < |ls.items| ==> r.value[i].fields == ls.items[i].fields)
    {
      assert ["metadata", "creators"][1..] == ["creators"];
      assert ["creators"][1..] == [];
      var metadata :- Get(json, "metadata");
      var ls :- Get(metadata, "creators");
      BuildRows(ls)
    }

    /** Zenodo.statistics: one row whose fields are those of json['stats']. */
    function Statistics(): (r: Result<Row>)
      ensures Get(json, "stats").Failure? ==> r.Failure? && r.error == Get(json, "stats").error
      ensures Get(json, "stats").Success? ==>
        var stats := json.fields["stats"];
        && (r.Success? <==> stats.Obj? && ValidFieldNames(stats.fields.Keys))
        && (r.Success? ==> r.value.fields == stats.fields)
    {
      var stats :- Get(json, "stats");
      BuildRow(stats)
    }
  }

  /** The rows of a well-formed listing are named and keyed exactly as its entries are. */
  lemma NamedRows(json: Value, rows: seq<Row>, name: string)
    requires DatasetsOf(json) == Success(rows)
    ensures WellFormedListing(json)
    ensures var files := json.fields["files"].items;
      && |rows| == |files|
      && (Keyed(rows) <==> "key" in files[0].fields)
      && forall i :: 0 <= i < |rows| ==> (Named(rows[i], name) <==> EntryNamed(files[i], name))
  {
    DatasetsSucceedIff(json);
    DatasetsRows(json);
  }

  /** Row i of a well-formed listing holds entry i's fields, with its self link as links. */
  lemma RowOfEntry(json: Value, rows: seq<Row>, i: nat)
    requires DatasetsOf(json) == Success(rows)
    requires i < |rows|
    ensures WellFormedListing(json)
    ensures var e := json.fields["files"].items[i];
      && rows[i].fields.Keys == e.fields.Keys
      && rows[i].fields["links"] == e.fields["links"].fields["self"]
      && forall k :: k in e.fields && k != "links" ==> rows[i].fields[k] == e.fields[k]
  {
    DatasetsSucceedIff(json);
    DatasetsRows(json);
  }

  /** On a record built from a response, find answers from the response's file listing: it
      finds the dataset of the first entry whose key is the name, with that entry's fields and
      its self link as links; a listing without keys gives AttributeError, and a name that no
      entry has gives ValueError. */
  lemma FindInListing(z: Zenodo, name: string)
    requires z.Valid()
    ensures WellFormedListing(z.json)
    ensures var files := z.json.fields["files"].items;
      && ("key" !in files[0].fields ==> z.Find(name) == Failure(NoAttribute("key")))
      && ("key" in files[0].fields ==>
            (z.Find(name).Success? <==> exists i :: 0 <= i < |files| && EntryNamed(files[i], name)))
    ensures var files := z.json.fields["files"].items;
      z.Find(name).Success? ==> exists i ::
        && FirstEntryNamed(files, name, i)
        && z.Find(name).value.fields.Keys == files[i].fields.Keys
        && z.Find(name).value.fields["links"] == files[i].fields["links"].fields["self"]
        && forall k :: k in files[i].fields && k != "links" ==> z.Find(name).value.fields[k] == files[i].fields[k]
  {
    var files := z.json.fields["files"].items;
    var rows := z.data;
    NamedRows(z.json, rows, name);
    var r := z.Find(name);
    if "key" in files[0].fields {
      if exists i :: 0 <= i < |files| && EntryNamed(files[i], name) {
        var i :| 0 <= i < |files| && EntryNamed(files[i], name);
        assert Named(rows[i], name);
      }
    }
    if r.Success? {
      var i :| FirstNamed(rows, name, i) && r.value == rows[i];
      assert FirstEntryNamed(files, name, i);
      RowOfEntry(z.json, rows, i);
    }
  }
}
