# datarig records: a Dafny model

This project models the record layer of datarig (`records.py`). A Zenodo repository record
holds the parsed JSON description of one record. At construction it turns that JSON's `files`
listing into flat dataset records: each entry's nested `links` dict is replaced by its `self`
link, and one namedtuple is built per entry. The record finds a dataset by its `key`. It
downloads a dataset by streaming the dataset's link into a file named after the link's last
path segment. It also exposes fixed-path metadata accessors: doi, publication date, license,
description, statistics and creators.

Modules, one per concern of the source:

- `Outcomes` (outcomes.dfy): the exceptions the record lets escape, as an `Error` datatype, and
  the `Result`/`Option`/`Outcome` wrappers.
- `Json` (json.dfy): the parsed JSON value, Python subscripting (`Get`) and chains of
  subscripts (`At`).
- `Paths` (paths.dfy): the part of `pathlib.Path` on a POSIX platform that the download uses: parsing, `.name`,
  `.parent`, `joinpath`.
- `Rows` (rows.dfy): `collections.namedtuple` as the record uses it. It covers field-name
  validity, `T = namedtuple(_, ls[0])` followed by `[T(**d) for d in ls]`, and attribute access
  over a list of rows.
- `Files` (files.dfy): the file system as the download sees it: `open(target, 'wb')`,
  `outfile.write(chunk)`, and the concatenation of written chunks.
- `Records` (records.py's `Record` and `Zenodo`, merged into the class `Records.Zenodo`): the
  record, `datasets`, `find`, `download` and the accessors.

`Zenodo.url`, `Zenodo.json` and `Zenodo.data` are constants, and `Zenodo.Datasets` has no
`modifies` clause. So the stored JSON is never changed by computing the datasets, and computing
them again gives the rows the record holds. The source gets the same effect by deep-copying the
listing before mutating it. The constructor only accepts the rows that datasets makes of the
JSON, so every record satisfies `Zenodo.Valid`. `Zenodo.Open` computes those rows first and
fails with datasets' error when there are none.

The source does not enforce the following, and neither does the model:

- Creators must share the field set of the first creator, exactly like files. Otherwise
  `creators` fails.
- Dataset names are not checked for uniqueness; `find` returns the first match.
- Nothing ties the written file's length to the dataset's `size` field.

## Model

| member | source | states |
|---|---|---|
| `Paths.Split` | records.py:88 | splitting a link on '/' gives at least one piece, and no piece contains '/' |
| `Paths.Parts` | records.py:88-89 | every part pathlib keeps from the pieces is a proper part (non-empty, not ".", without '/'), and there are no more parts than pieces |
| `Paths.PartsAppend` | records.py:88-89 | the parts of two piece sequences laid end to end are the parts of each, in order |
| `Paths.PartsOfOne` | records.py:88-89 | a single piece is kept exactly when it is a proper part; with `PartsAppend` this fixes which pieces are kept and in what order |
| `Paths.LastPart` | records.py:88 | there are no parts exactly when no piece is proper; otherwise the last part is the last proper piece |
| `Paths.Parse` | records.py:88-89 | `Path(s)` has only proper parts, is absolute exactly when s starts with '/', and its name is "" or a proper part |
| `Paths.NameOfParse` | records.py:88 | `Path(s).name` is "" exactly when no piece of `s.split('/')` is a proper part, and otherwise is the last proper piece, so trailing and repeated slashes and "." pieces are skipped |
| `Paths.JoinPath` | records.py:90 | joining "" leaves the directory unchanged; joining a proper part appends it as the last part, so the result's parent is the directory and its name is that part |
| `Paths.SplitJoin` | records.py:88 | joining the pieces of a split with '/' gives back the original string |
| `Paths.SplitAround` | records.py:88 | splitting `a + "/" + b` gives the pieces of a followed by the pieces of b |
| `Paths.SplitWithoutSeparator` | records.py:88 | a string without '/' splits into itself alone |
| `Paths.NameOfLastPart` | records.py:88 | the `.name` of `prefix/n`, for a proper part n, is n whatever the prefix |
| `Rows.RowsOf` | records.py:152 | `[T(**d) for d in es]` succeeds exactly when every entry is a dict with T's fields; it then gives one row per entry, in order, holding that entry's fields; otherwise it fails with the error of the first entry that does not fit |
| `Rows.BuildRows` | records.py:151-152 | namedtuple from `ls[0]` and then one row per entry succeeds exactly on a non-empty list of dicts that share the first entry's valid keys; non-list, empty list, invalid names and the first misfit each give their own error |
| `Rows.BuildRow` | records.py:202-203 | `Stats(**stats)` succeeds exactly when stats is a dict with valid field names, and the row then holds stats' fields unchanged |
| `Rows.AttributeOf` | records.py:157 | `[dset.key for dset in data]` succeeds exactly when every row has the field, giving each row's value in order; otherwise AttributeError |
| `Files.ConcatAppend` | records.py:94-96 | writing chunk sequences one after the other gives the concatenation of what each writes |
| `Files.ChunkAt` | records.py:94-96 | chunk i sits in the written bytes right after the bytes of chunks 0..i-1, unchanged |
| `Files.FileSystem.Open` | records.py:94 | `open(p, 'wb')` succeeds exactly when p's parent is a directory and p is not one; it then truncates p to empty; on failure nothing changes |
| `Files.FileSystem.Write` | records.py:96 | `write(chunk)` appends the chunk to the open file and changes nothing else |
| `Records.Flatten` | records.py:149 | flattening an entry succeeds exactly when its links is a dict with a self link; it keeps the key set, sets links to the self link and leaves every other field unchanged; a failure is the failing subscript's error |
| `Records.FlattenAll` | records.py:146-149 | the loop over the copied listing succeeds exactly when every entry flattens, giving the flattened entries in order; otherwise it fails with the first bad entry's error |
| `Records.FlattenKeepsKeys` | records.py:147-149 | after the loop every entry is still a dict with its original keys |
| `Records.DatasetsSucceedIff` | records.py:146-152 | datasets succeeds exactly on a non-empty `files` list of dicts with self links, whose first entry's keys are valid field names and shared by every entry |
| `Records.DatasetsRows` | records.py:146-152 | on success there is one dataset per file entry, in order; each dataset's links is the entry's `links['self']` and every other field equals the entry's |
| `Records.DatasetsFailures` | records.py:146-151 | a non-dict response fails with TypeError on 'files', a missing `files` with KeyError, a non-list `files` fails, an empty `files` fails at `ls[0]` |
| `Records.DatasetsFirstBadLink` | records.py:147-149 | an entry without a self link makes datasets fail with that entry's error, the first such entry deciding |
| `Records.DatasetsFirstMismatch` | records.py:151-152 | with all links present and valid names, the first entry whose keys differ from the first entry's makes datasets fail at that index |
| `Records.IndexOf` | records.py:159 | `list.index` finds the first position holding the value, and finds none exactly when no position holds it |
| `Records.LinkOf` | records.py:88 | `Path(dset.links)` accepts the link exactly when the dataset has a string links field; a missing field gives AttributeError, a non-string TypeError |
| `Records.TargetOf` | records.py:88-90 | the target is a normal path, absolute when the working directory is used; its parent is the given directory, or the working directory when the given one is None or empty; its name is the link's last part; for a link with no last part the target is the directory itself |
| `Records.TargetNamedAfterLink` | records.py:88-90 | a link ending in `/n`, with n a proper part, is saved to a file named n |
| `Records.ListDatasets` | records.py:120-152 | the in-place loop over the copied listing and the namedtuple rows give exactly `DatasetsOf(json)`, whose shape and failures the lemmas above state |
| `Records.FindInListing` | records.py:154-164 | on a record built from a response, find gives the dataset of the first file entry whose key is the name, with that entry's fields and its self link; AttributeError when the entries have no key, and found exactly when some entry has the key |
| `Records.Zenodo.constructor` | records.py:50-53 | the record stores the URL, the parsed JSON and the rows datasets made of it, so it is valid |
| `Records.Zenodo.Open` | records.py:31-53 | construction succeeds exactly when datasets does, with the same error otherwise; the new record's data is what datasets made of its JSON |
| `Records.Zenodo.Datasets` | records.py:120-152 | calling datasets again gives `DatasetsOf(json)`, which on a valid record is the rows it holds |
| `Records.Zenodo.Find` | records.py:154-164 | a found dataset is the first whose key is the name; one is found whenever some dataset has that key; a dataset without a key field gives AttributeError; no match gives ValueError "No dataset in this record is named {name}." |
| `Records.Save` | records.py:93-96 | a refused request leaves the file system unchanged; if the target cannot be opened nothing changes; otherwise the target holds exactly the streamed chunks concatenated in arrival order, the directories are unchanged, and an interrupted stream leaves that partial file and fails |
| `Records.Zenodo.Download` | records.py:63-96 | find and the link check come first: their failure leaves the file system unchanged; otherwise the outcome and the new file system are those of saving the response to the target named after the link, as `Records.Save` states |
| `Records.Zenodo.Doi` | records.py:166-170 | the doi is `json['doi']`, with the subscript's error when absent |
| `Records.Zenodo.Date` | records.py:172-176 | the date is `json['metadata']['publication_date']`, failing at the first missing key |
| `Records.Zenodo.License` | records.py:178-182 | the license is `json['metadata']['license']['id']`, failing at the first missing key |
| `Records.Zenodo.Description` | records.py:192-196 | the description is `json['metadata']['description']`, failing at the first missing key |
| `Records.Zenodo.Creators` | records.py:184-190 | creators fail when the path to them is missing; otherwise they succeed exactly when the list is uniform, with one row per creator holding that creator's fields |
| `Records.Zenodo.Statistics` | records.py:198-203 | statistics fail when `stats` is missing; otherwise they succeed exactly when it is a dict with valid field names, and the row holds its fields |

## Left out

- The metadata GET (records.py:51-52): `requests.get` and `response.json()` are network I/O and a
  foreign parser. The parsed JSON is an input of `Zenodo.Open`. The request parameters and keyword
  arguments, and the stored response object, are not modelled.
- The dataset GET (records.py:93): its outcome is an input of type `Response`. It either raises
  before any byte arrives, or yields chunks and then ends or raises.
- `Records.Save`: does not model the `chunksize` bound on each chunk, because chunk
  boundaries are decided by the HTTP library, so the chunks are taken as given.
- `Records.Save`: the file system is keyed by the path as the code forms it. Relative
  paths are not resolved against the working directory, ".." is not resolved, and failures other
  than a missing parent directory or a target that is a directory (permissions, a full disk) are
  not modelled.
- `Paths.Parse`: the model assumes a POSIX platform. On Windows `pathlib.Path` is a
  `WindowsPath`, where '\\' also separates parts and drives are parsed, which changes `.name`.
- `Paths.Parse`: the POSIX special case of a path starting with exactly two slashes is not
  modelled. It does not change `.name`.
- `Rows.BuildRows`: field-name validity uses ASCII letters, digits and '_' for Python identifiers.
  Names with non-ASCII letters, which Python accepts, count as invalid here.
- `Rows.BuildRow`: same ASCII approximation of field names as `Rows.BuildRows`.
- `Rows.BuildRow`: the model reports `NotAMapping` when `stats` is not a dict. For some such
  values (`"1x"` or `["1"]`, say) Python raises ValueError from namedtuple first instead. Both
  are failures.
- `Rows.BuildRows`: the model reports `NotAMapping` when the first entry is not a dict. For some
  such values (a string that is not a valid field list, say) Python raises ValueError from
  namedtuple first instead. Both are failures.
- JSON objects are maps, so the order of a namedtuple's fields (the first entry's key order) and
  anything that depends on it (repr, positional access) is not modelled. Numbers are integers;
  floats are left out.
- Python's exception classes are collapsed into the `Error` datatype. A non-list `files` value
  fails in every case, as `NotAList`, whichever of TypeError, KeyError or IndexError Python raises.
- The abstract base class `Record` and its subclass are one class, because the model has no
  inheritance. `Figshare` (records.py:206-209) has no behaviour. The `ViewInstance` mixin is
  display only. The script blocks (records.py:211-221) are left out.
- Checksums are never validated by the source (records.py:129-131), and the model does not add
  validation.
- core.py is a stub that concatenates a base URL. dialogs.py wraps tkinter dialogs. Neither is
  part of this model.
