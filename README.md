# FastAPI tutorial handlers in Dafny

This project models the request handlers of seven snapshots of a FastAPI
tutorial application. Each handler is modelled as what it computes from its
validated inputs and the in-memory state it touches.

- **Item store** (`snapshots/12_main.py`). A dictionary of items keyed by an
  integer id, with a running id counter. Create stores under the counter and
  advances it. Delete answers 204 or 404. Update answers 404, overwrites the
  entry, or *returns* (does not raise) an `HTTPException(304)` when the data
  is equal. A legacy route passes a raw XML response through.
- **Public shapes** (`snapshots/10_main.py`). Stored users and items carry
  secrets: a password, an owner id and a secret code. The declared response
  models drop them.
- **Declared constraints** (`snapshots/06_main.py`). These are the
  length/range rules on every field of `Item`, plus the validator that
  rejects names containing "admin" in any case and title-cases the rest. The
  create/read handlers over a dictionary give new items the id
  `len(items_db) + 1`.
- **Downloads** (`snapshots/15_main.py`). The name is reduced to its
  basename and joined under `./downloadables/`. Then come a 404 check and a
  403 check, a MIME fallback and a suggested file name. The function
  `download_stream` is not registered as a route. Called, it would return
  ten text chunks as an attachment. Each chunk ends in a literal backslash and
  `n`, so the stream has no line break.
- **Uploads** (`snapshots/14_main.py`):
  - a chunked copy loop (1 MiB reads until an empty read);
  - save paths reduced to a basename under `./uploads`;
  - a single upload that answers 500 when the write fails;
  - a multi-file upload that records one entry per file and carries on past
    a failure.
- **Error responses** (`snapshots/09_main.py`):
  - a custom exception rendered as status 418;
  - validation failures rendered as 400 instead of 422;
  - a 404 with a custom header;
  - a route that raises a handled exception, raises an unhandled one, or
    answers normally.
- **Merged response dictionaries** (`snapshots/05_main.py`). `model_dump()`
  of the body is extended with `price_with_tax` when the tax is truthy. It
  can be nested beside the path id, or merged with the path id and a
  non-empty query value.

State that the source mutates in place is modelled as a class:
- `ItemStore.ItemDatabase` holds `items_db` and `item_next_id`;
- `PublicShapes.Stores` holds `fake_users_db` and `fake_items_db`;
- `ItemConstraints.ItemsDb` holds the dictionary of 06.

Every method of these classes is proved against a pure function of the old
state (`ItemStore.Create`, `ItemStore.Delete`, `ItemStore.Update`,
`ItemConstraints.Validate`). The invariant each class keeps is required and
ensured by the methods that change its state:
- the counter above every id in `ItemStore.ItemDatabase`;
- distinct item ids in `PublicShapes.Stores`, which `ReadSingleItem` also
  requires so that an id names one entry, as a dictionary key does;
- ids exactly 1..n and valid items in `ItemConstraints.ItemsDb`.

The filesystem (`os.path.isfile`), `mimetypes.guess_type` and the working
directory appear as parameters (`isFile`, `guessType`, `cwd`). Whether
opening or writing an upload destination fails is a parameter too, given per
file as the text of the exception.

Python's `os.path.basename` and `os.path.join`, `str(int)`, `str.join`,
`str.lower`, `str.title` and `in` on strings are modelled in the helper modules
`PosixPath` and `Strings`. Their lemmas establish the facts the handlers rely
on:
- the basename drops every directory part;
- the numeral round trip;
- title-case idempotence, and title case preserving `lower()`;
- the recursive substring test agrees with "a slice at some position equals `t`".

## Model

| member | source | states |
|---|---|---|
| ItemStore.Initial | snapshots/12_main.py:10-14 | the seeded store holds ids 1 and 2 with the counter at 3, which is above every id in use |
| ItemStore.ShapeAsItem | snapshots/12_main.py:30 | `response_model=Item` keeps exactly `name` and `price` of the returned dictionary |
| ItemStore.WithId | snapshots/12_main.py:36 | the created record is the item's fields plus the id it was stored under |
| ItemStore.ShapeDropsId | snapshots/12_main.py:36-42 | shaping the created record by the response model gives back exactly the item sent, so the id is not exposed |
| ItemStore.Create | snapshots/12_main.py:30-42 | the item is stored under the old counter, which advances by one; no other entry changes; the counter's invariant is kept and the ids in use grow by exactly one; the reply is 201 with the item |
| ItemStore.Delete | snapshots/12_main.py:49-64 | an existing id is removed and nothing else changes (204, no body); an absent id leaves the store unchanged and raises 404 "Item not found"; the invariant is kept |
| ItemStore.Update | snapshots/12_main.py:70-97 | an absent id raises 404 and changes nothing; equal data changes nothing and returns a 304 exception object; different data overwrites only that entry and is returned; the key set and the counter never change |
| ItemStore.GetLegacyData | snapshots/12_main.py:104-120 | a raw 200 `application/xml` response with the fixed XML content, not shaped by the response model |
| ItemStore.RunKeepsInvariant | snapshots/12_main.py:30-97 | after any sequence of create/delete/update requests the counter is above every id in use, and it has advanced by exactly the number of creates |
| ItemStore.NextIdIsFresh | snapshots/12_main.py:34-37 | from the initial state, the id the next create receives is never already in use, so no create overwrites an item, even after deletes |
| ItemStore.ItemDatabase.constructor | snapshots/12_main.py:10-14 | the module-level dictionary and counter start in the initial state |
| ItemStore.ItemDatabase.CreateItem | snapshots/12_main.py:30-42 | updating the fields in place yields exactly the new state and reply of `Create`, keeping the invariant |
| ItemStore.ItemDatabase.DeleteItem | snapshots/12_main.py:49-64 | in-place delete yields exactly the new state and reply of `Delete` |
| ItemStore.ItemDatabase.UpdateItem | snapshots/12_main.py:70-97 | in-place update yields exactly the new state and reply of `Update` |
| PublicShapes.ToUserOut | snapshots/10_main.py:21-24 | `UserOut` keeps username, email and full name of the user |
| PublicShapes.ToItemPublic | snapshots/10_main.py:34-36 | `ItemPublic` keeps name and price of the stored item |
| PublicShapes.UserOutIndependentOfPassword | snapshots/10_main.py:14-24 | users that differ only in their password have the same public shape |
| PublicShapes.ItemPublicIndependentOfSecrets | snapshots/10_main.py:27-36 | items that differ only in owner id and secret code have the same public shape |
| PublicShapes.FullNameDefaults | snapshots/10_main.py:14-24 | an omitted `full_name` is None in both shapes and projects to a `UserOut` without one |
| PublicShapes.UserOutWithPasswordRestores | snapshots/10_main.py:14-24 | the projection loses only the password: public fields plus password give back the stored user |
| PublicShapes.Lookup | snapshots/10_main.py:105-109 | absent exactly when no entry carries the id; when found, the entry with that id holds the record returned |
| PublicShapes.LookupAt | snapshots/10_main.py:105-109 | with distinct ids, looking up the id at a position returns the record at that position |
| PublicShapes.SeedItems | snapshots/10_main.py:43-47 | the seeded items are three, with distinct ids |
| PublicShapes.Stores.constructor | snapshots/10_main.py:42-47 | no users, the three seeded items |
| PublicShapes.Stores.CreateUser | snapshots/10_main.py:60-74 | the whole input, password included, is stored under its username (overwriting any earlier one), and the answer is 201 with the public shape only; the items and their distinct ids are untouched |
| PublicShapes.Stores.ReadUser | snapshots/10_main.py:78-87 | 404 "User not found" exactly when the username is unknown; otherwise the public shape of the stored user |
| PublicShapes.Stores.ReadItems | snapshots/10_main.py:92-99 | one public item per stored item, in store order |
| PublicShapes.Stores.ReadSingleItem | snapshots/10_main.py:103-112 | 404 "Item not found" exactly when no stored entry has the id; with ids distinct, the answer is the public shape of the one entry holding that id |
| PublicShapes.CreateThenRead | snapshots/10_main.py:60-87 | reading a just-created user gives the public shape of what was sent |
| ItemConstraints.Validate | snapshots/06_main.py:7-51 | accepted exactly when every declared constraint holds; the accepted item has the title-cased name and `[]` for an omitted tag list; a rejection carries every field error in declaration order and is never empty |
| ItemConstraints.RejectionNamesFailingFields | snapshots/06_main.py:9-40 | for each of the five fields: it is named among the errors if and only if its own constraints fail |
| ItemConstraints.AdminNameRejected | snapshots/06_main.py:46-51 | a name of valid length that contains "admin" in any letter case is rejected with the validator's message |
| ItemConstraints.RevalidationIsStable | snapshots/06_main.py:46-51 | a stored item sent again (tag list given) is accepted unchanged: title case is idempotent and keeps "admin" out |
| ItemConstraints.AcceptedSatisfiesInvariant | snapshots/06_main.py:7-51 | every accepted item meets the length, range and no-"admin" rules on its stored fields and is in title case |
| ItemConstraints.ItemsDb.constructor | snapshots/06_main.py:60 | the dictionary starts empty |
| ItemConstraints.ItemsDb.CreateItem | snapshots/06_main.py:64-70 | a rejected body changes nothing and yields 422 with the validation errors; an accepted one is stored under `len(items_db) + 1`, an id not in use, and returned with it; the ids stay exactly 1..n and every stored item stays valid |
| ItemConstraints.ItemsDb.ReadItem | snapshots/06_main.py:73-77 | 404 "Item not found" exactly when the id is absent; otherwise the id with the stored item |
| Downloads.AbsDownloadDir | snapshots/15_main.py:53 | `abspath("./downloadables/")` is absolute: it starts with `/` |
| Downloads.StartsWith | snapshots/15_main.py:53 | `str.startswith`: holds exactly when the prefix is no longer than the text and agrees with it character by character; this is the test that, as written, refuses every request |
| Downloads.ResolvedPath | snapshots/15_main.py:31-36 | the path is `./downloadables/` followed by the basename of the client's name, with no `/` after the directory |
| Downloads.CheckPath | snapshots/15_main.py:41-59 | a missing file raises 404 "File not found" before the containment check; an existing file outside the absolute directory raises 403 "Access denied"; an existing file inside it yields `Ok` with the resolved path, and any `Ok` carries that path |
| Downloads.DownloadBasic | snapshots/15_main.py:18-65 | raises exactly when the shared checks raise, with their error; otherwise serves the resolved path without media type or name |
| Downloads.MediaType | snapshots/15_main.py:105-109 | the guessed type, or `application/octet-stream` when there is none |
| Downloads.DownloadName | snapshots/15_main.py:116 | `download_` followed by the basename, which holds no `/` |
| Downloads.DownloadCustom | snapshots/15_main.py:77-126 | the same checks and errors as the basic download; otherwise serves the resolved path with the media type and the download name |
| Downloads.TraversalIsStripped | snapshots/15_main.py:31-36 | `../../etc/passwd` resolves to `./downloadables/passwd` and is offered as `download_passwd` |
| Downloads.EveryRequestIsRefused | snapshots/15_main.py:53-59 | as written, the relative resolved path never starts with the absolute directory: every request is refused, an existing file with 403 |
| Downloads.StreamChunks | snapshots/15_main.py:136-140 | ten chunks, chunk i being line i+1 |
| Downloads.StreamChunkShape | snapshots/15_main.py:140 | a chunk is "Line ", the decimal line number (which parses back), then ": Some data chunk", a backslash and `n`; it contains no newline character |
| Downloads.StreamChunk | snapshots/15_main.py:140 | a chunk starts with "Line " and is 24 characters longer than the decimal line number; the full layout and the parse back are given by `StreamChunkShape` |
| Downloads.DownloadStream | snapshots/15_main.py:145-156 | the stream's chunks in order, `text/plain`, and an attachment `Content-Disposition` naming `streamed_data.txt` |
| Uploads.ReadChunk | snapshots/14_main.py:84 | a read yields the next at most `size` bytes of the upload, and is empty exactly at the end |
| Uploads.CopyInChunks | snapshots/14_main.py:83-85 | the loop writes the concatenation of its chunks, which is the whole upload in order; every chunk is non-empty and at most 1 MiB |
| Uploads.NameOr | snapshots/14_main.py:71 | Python's `or`: the client name when present and non-empty, otherwise the fallback |
| Uploads.SavePath | snapshots/14_main.py:71-76 | `./uploads/` followed by the basename of the name (or fallback), with no `/` after the directory |
| Uploads.UploadSingleFile | snapshots/14_main.py:57-104 | a failed write raises 500 with "Could not dave file: " and the exception text; otherwise the whole upload is written and the body gives name, content type and save path |
| Uploads.EntryShape | snapshots/14_main.py:119-141 | each entry keeps the client's name as sent; it is a saved entry with the save path exactly when the write succeeded, otherwise an error entry with the exception text |
| Uploads.ProcessedMessage | snapshots/14_main.py:147 | the count in decimal followed by " files processed." |
| Uploads.SaveOne | snapshots/14_main.py:119-141 | the loop body records the entry fixed by the file, its write outcome and its position |
| Uploads.MultiFallback | snapshots/14_main.py:122 | `uploaded_file_{len(saved_files)}`: starts with `uploaded_file_`, holds more than that prefix, and contains no `/`, so the basename keeps it whole |
| Uploads.EntryFor | snapshots/14_main.py:122-141 | the entry dictionary for one file: it keeps the client's name as sent and is a saved entry exactly when the write succeeded; `EntryShape` adds the save path and the error text |
| Uploads.UploadMultipleFiles | snapshots/14_main.py:109-149 | one entry per file, in order, whatever happens to each write; the fallback name uses the entry's position; the message counts all the files |
| Uploads.ThreeFilesMiddleFails | snapshots/14_main.py:125-141 | when the second of three writes fails, all three are recorded, the middle one as an error, and the message says 3 |
| Uploads.UploadSmallFile | snapshots/14_main.py:24-52 | the body reports the upload's length and the fixed message |
| Uploads.UploadFileAndForm | snapshots/14_main.py:154-176 | the handler always fails on `os.path.goin`, an attribute that does not exist |
| ErrorResponses.UnicornExceptionHandler | snapshots/09_main.py:22-33 | status 418, error type "Unicorn Error", the exception's name and message, and the request URL |
| ErrorResponses.UnicornDefaultMessage | snapshots/09_main.py:15-18 | an exception raised without a message carries the default message into the body |
| ErrorResponses.LocTexts | snapshots/09_main.py:44 | `map(str, loc)`: one text per location part, in order |
| ErrorResponses.FormatDetailShape | snapshots/09_main.py:44-46 | a formatted detail is `field '`, the joined location, `':` and the message, and nothing else |
| ErrorResponses.FieldTextLength | snapshots/09_main.py:44 | the joined location is as long as its parts plus one 4-character separator between neighbours |
| ErrorResponses.FormatDetailExample | snapshots/09_main.py:44-46 | the location `body`, `price` is written `field 'body -> price':` before the message |
| ErrorResponses.FormatDetail | snapshots/09_main.py:44-46 | the f-string of one error: it starts with `field '` and holds at least the message and the nine fixed characters; `FormatDetailShape` gives the exact layout |
| ErrorResponses.FormatErrorDetails | snapshots/09_main.py:42-46 | one formatted detail per error, in order |
| ErrorResponses.ValidationExceptionHandler | snapshots/09_main.py:39-57 | status 400 (not 422), "Invalid input provided." and the unmodified error list; the formatted details are computed one per error and not sent |
| ErrorResponses.ReadItem | snapshots/09_main.py:63-72 | 404 exactly for an unknown id, with a detail naming the id and the `X-Error-Source` header; otherwise the stored value |
| ErrorResponses.NotFoundDetailNamesId | snapshots/09_main.py:69 | different missing ids produce different details |
| ErrorResponses.GenerateUnicornError | snapshots/09_main.py:76-85 | "sparkle" and only it raises the custom exception with its fixed message; "invalid" and only it raises a `ValueError`; any other name is answered with status "ok" |
| ErrorResponses.UnicornRoute | snapshots/09_main.py:76-85 | end to end: "sparkle" yields the 418 body naming it, "invalid" a generic 500, any other name a 200 echo |
| ErrorResponses.Dispatch | snapshots/09_main.py:76-85 | stands in for FastAPI's handler dispatch on this route: a returned body is sent with 200, a `UnicornException` goes to the handler registered at lines 22-33 (418 with its name and message), and a `ValueError`, for which no handler is registered, becomes a generic 500; each case if and only if |
| ErrorResponses.ValidateInputData | snapshots/09_main.py:89-90 | accepted exactly when the value exceeds 10; the error is located at `body -> value` |
| ErrorResponses.ValidateEndpoint | snapshots/09_main.py:93-96 | a value above 10 is echoed with "Data is valid!"; any other gives 400 with exactly one error located at `body -> value` |
| RequestMerge.Dump | snapshots/05_main.py:10-14 | `model_dump()` holds exactly the four declared fields |
| RequestMerge.LoadDump | snapshots/05_main.py:38 | the dump reads back as the same item: it loses nothing |
| RequestMerge.CreateItem | snapshots/05_main.py:28-46 | `price_with_tax` is added if and only if the tax is truthy (present and non-zero), and then equals price plus tax; every dumped field is kept as is |
| RequestMerge.CreateItemKeepsItem | snapshots/05_main.py:38-46 | the created response still reads back as the item sent |
| RequestMerge.UpdateItem | snapshots/05_main.py:51-58 | exactly `item_id` and `updated_item_data`, the latter reading back as the item sent |
| RequestMerge.UpdateItemComplex | snapshots/05_main.py:62-79 | the path id merged with every dumped field, plus `query_param_q` if and only if `q` is non-empty; the result reads back as the item |
| RequestMerge.DefaultsGiveNoTax | snapshots/05_main.py:12-14 | omitted description and tax dump as null, and then no `price_with_tax` is added |
| PosixPath.Basename | snapshots/15_main.py:31 | the basename holds no `/`, is a suffix of the path, and is preceded by `/` when shorter than the path |
| PosixPath.BasenameAfterSlash | snapshots/15_main.py:31-34 | whatever precedes the last `/` is dropped |
| PosixPath.Join | snapshots/15_main.py:36 | an absolute second part replaces the first; otherwise the result ends with the second part |
| PosixPath.JoinUnderDirectory | snapshots/15_main.py:36 | a directory ending in `/` joined with a bare name is plain concatenation |
| PosixPath.JoinAddsSeparator | snapshots/14_main.py:76 | a directory not ending in `/` joined with a bare name gets exactly one `/` inserted |
| Strings.NatToString | snapshots/15_main.py:140 | `str` of a natural: non-empty digits only, no leading zero, a single digit exactly below 10 |
| Strings.ParseNatToString | snapshots/14_main.py:147 | the decimal numeral of a natural parses back to it |
| Strings.IntToString | snapshots/09_main.py:69 | `str` of an integer: non-empty, starting with `-` exactly for a negative value; `IntToStringInjective` shows it determines the integer |
| Strings.IntToStringInjective | snapshots/09_main.py:69 | different integers are written differently |
| Strings.JoinLength | snapshots/09_main.py:44 | a join is as long as its parts plus one separator between each pair of neighbours |
| Strings.Join | snapshots/09_main.py:44 | `sep.join(parts)`: no parts give the empty text and one part gives that part; `JoinLength` and `JoinStartsWithFirst` give the length and the leading part |
| Strings.JoinStartsWithFirst | snapshots/09_main.py:44 | the joined text starts with the first part |
| Strings.Lower | snapshots/06_main.py:49 | `lower()` keeps the length and lower-cases each letter |
| Strings.Title | snapshots/06_main.py:51 | `title()`: its contract gives the length only; `TitleAt` gives the meaning position by position |
| Strings.TitleAt | snapshots/06_main.py:51 | `title()` position by position: a letter at the start or after a non-letter is upper-cased, a letter after a letter is lower-cased, any other character is unchanged |
| Strings.TitleIdempotent | snapshots/06_main.py:51 | title-casing twice is the same as once |
| Strings.LowerTitle | snapshots/06_main.py:49-51 | the title-cased name has the same `lower()` as the name, so the "admin" check answers the same on both |
| Strings.ContainsIff | snapshots/06_main.py:49 | `"admin" in v.lower()` holds exactly when "admin" is the slice of the lowered name at some position |
| Strings.Contains | snapshots/06_main.py:49 | `t in s`: its contract says only that a match needs `t` no longer than `s`; `ContainsIff` ties it to "a slice at some position equals `t`" |

## Left out

- FastAPI and pydantic machinery: routing, dependency injection, JSON
  parsing and coercion, and OpenAPI generation. Each handler is modelled
  from the point at which its validated arguments exist. Validation is
  modelled only where a file declares its own constraints (06 and 09).
- ItemStore.Update: the 304 branch returns the `HTTPException` object
  instead of raising it. The model records this as a returned value. What
  FastAPI then sends for it under `response_model=Item` is library behaviour
  and is not modelled.
- Strings.Lower and Strings.Title cover the ASCII letters only. Python's
  Unicode case mapping is not modelled. For a non-ASCII name, the title-cased
  name that ItemConstraints.Validate stores may therefore differ from
  Python's; for example, `'ß'.title()` is `'Ss'`, which also changes the
  length. The "admin" test compares ASCII letters only, so it is not
  affected.
- Prices and taxes are mathematical reals. Floating-point rounding, NaN and
  infinities are not modelled.
- JSON objects are maps, so key order in a response body is not modelled.
- The filesystem, `mimetypes.guess_type` and the working directory are
  parameters. They are not a model of the operating system.
  `os.makedirs(UPLOAD_DIR)` at import time is not modelled.
- Uploads.UploadMultipleFiles: only the recorded entries are modelled. What
  each saved file holds is stated for the single upload and for the copy
  loop, not per file here.
- A write failure is modelled as one exception text per file, with no
  partial write before the failure.
- Uploads.UploadSmallFile does not model the warning printed above 1 MiB,
  which is console output only.
- ErrorResponses.ValidateInputData uses one fixed message for the error. The
  validation library's other error fields (`type`, `input`, `ctx`) and its
  varying wording are not modelled.
- ErrorResponses.UnicornExceptionHandler takes the request URL as text.
  Building it from the request (`str(request.url)`) is not modelled.
- ErrorResponses.Dispatch models FastAPI's exception dispatch only for the
  outcomes of `generate_unicorn_error`. The handler registry, its lookup by
  exception class and the default error bodies are library behaviour and
  are not modelled.
- Async execution, concurrent requests and `print` logging are not modelled.
  Handlers run one at a time to completion.
- PublicShapes: the `ping` route is not modelled. `EmailStr` format checking
  is not modelled; emails are plain strings.
- The other snapshots and the top-level `main.py` are not part of this
  model.
