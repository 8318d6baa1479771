# edi-extract in Dafny

A model of the segment classification and extraction engine of
edi-extract, a small Python library that reads X12 and EDIFACT EDI
messages. The model covers:

- the dialect registry (`edi.py`): the accepted languages, the default
  separators, the segment codes of each role, and the forecast and timing
  cross-reference tables;
- the parser base `EdiBase` (`edi.py`): construction, the `DISPATCH_MAP`
  from segment codes to handlers, the failure log, and
  `universal_element_extract`, which pulls elements out of a segment. It
  never raises for a missing element or a bad date. Instead it records an
  `ElementExtractionFailure` and returns that object in place of the
  value;
- the document, part and release records the handlers assemble;
- the X12 dialect (`x12.py`): the version → date-format and
  document-type → start-segment tables, the record-number column of each
  start segment, release code decoding, and the handlers for the envelope,
  inner message, loop, document start, address and accumulation segments.
  The handlers act on a traversal state shared between them.

Modules:

- `Wrappers` (`wrappers.dfy`): Option, Result and Outcome.
- `PyStr` (`pystr.dfy`): Python's `str.split` with a one-character
  separator, subscripts that may be negative, and `s[:n]`.
- `EdiTables` (`edi_tables.dfy`): the static tables.
- `EdiExtract` (`edi_extract.dfy`): what an extraction returns and logs,
  stated as pure functions.
- `Edi` (`edi.py` → `edi.dfy`): the `EdiBase` class and its imperative
  extraction methods, each proved to return and log exactly what
  `EdiExtract` specifies, and the record classes.
- `X12` (`x12.dfy`): the X12 tables, and the class `EdiX12` whose handlers
  update parser fields, the traversal state and parts in place.

Modelling choices:

- **Dynamic values.** Python's dynamically typed values become datatypes.
  - A `position` argument is a `Request`: an int, a pair, a list, a dict
    of labelled entries kept in insertion order, or any other type.
  - A leaf result is a `Value`: the text, or the failure object that
    replaced it.
  - A failure's `position` is the bare element index for an
    'Element Index' failure. For the other two kinds it is the caller's
    whole request.
- **Dates.** `datetime.strptime(...).strftime(...)` is the `DateConverter`
  function that the parser is built with: it returns the reformatted
  date, or None when the text does not parse.
- **Date strictness.** A failed conversion becomes a failure object only
  for a plain int request, or for a dict entry with `"date": True`.
  Everywhere else the raw text is kept.
- **Inheritance.** `EdiX12` holds its `EdiBase` as `base` instead of
  inheriting from it.
- **Segment attributes.** The `<role>_segment` attributes are one record,
  `SegmentAttributes`. `record_start_segment` is a `SegmentTag`: the
  registry's tuple, or the single code that `handle_loop` stores.
- **Traversal state.** The `state` dict is the class `TraversalState`.
  Python's `None` is `null` for objects and `None` for optional values.

Facts of the source worth knowing:

- **EDIFACT dispatch map.** In EDIFACT the accumulation and release roles
  share the key `("",)`. The later accumulation entry replaces the release
  entry, so no key of the EDIFACT dispatch map leads to `handle_release`.
- **Separator arguments.** A separator argument that is actually given is
  never stored. Construction then fails with an AttributeError when it
  decodes the separators, so only the default separators ever work.
- **`handle_loop` and the dispatch map.** `handle_loop` replaces
  `record_start_segment`, but it does not rebuild the dispatch map, which
  keeps the key `("BFR",)`.
- **`handle_accum` dates.** `handle_accum` converts every extracted column
  as a date with the default format `%Y%m%d`, quantities included. It
  never uses the format chosen by `handle_inner`.
- **Abstract class.** `EdiX12` does not define `handle_part`,
  `handle_release` or `handle_end`, which `EdiBase` declares abstract, so
  Python refuses to instantiate `EdiX12` itself. The model gives its
  handlers as written.

## Model

| member | source | states |
|---|---|---|
| PyStr.Split | edi.py:202 | `str.split` always returns at least one piece |
| PyStr.SplitLength | edi.py:202 | splitting gives one more piece than there are separators |
| PyStr.SplitPiecesFree | edi.py:202 | no piece contains the separator |
| PyStr.SplitThenJoin | edi.py:202 | joining the pieces with the separator gives back the segment |
| PyStr.JoinThenSplit | edi.py:202 | splitting a join of separator-free pieces gives back the pieces |
| PyStr.SplitFree | edi.py:202 | text without the separator splits into itself alone |
| PyStr.SplitAfterFree | edi.py:202 | a separator after a separator-free prefix ends the first piece |
| PyStr.PyIndex | edi.py:202 | a subscript succeeds exactly for -len <= i < len; a negative index counts from the end; otherwise it is the IndexError case |
| PyStr.Prefix | x12.py:57 | `s[:n]` has length min(n, len(s)) and is a prefix of s |
| EdiTables.ParseLanguage | edi.py:32 | a language is accepted exactly when it is in VALID_LANGUAGES, and the result reads back as the same name |
| EdiTables.LanguageNameRoundTrip | edi.py:32 | every language's name is valid and is parsed back to that language |
| EdiTables.DefaultSeparators | edi.py:33-44 | the default element, segment and subelement separators of each language are pairwise distinct |
| Edi.InitOutcome | edi.py:120-132 | construction fails with ValueError exactly for an unknown language; it fails with AttributeError exactly when a known language comes with some separator argument; otherwise it yields that language |
| Edi.DefaultSegmentAttributes | edi.py:154-172 | the accumulation and release codes coincide, and the inner-message codes are empty, exactly for EDIFACT |
| Edi.X12Segments | edi.py:48-67 | the seventeen X12 segment attributes are the registry's tuples |
| Edi.EdifactSegments | edi.py:68-87 | the seventeen EDIFACT segment attributes are the registry's tuples, several of them empty |
| Edi.DispatchMapOf | edi.py:136-146 | the loop entry, inserted last, is always present and always leads to handle_loop, whatever other entries share its key |
| Edi.DispatchMapFor | edi.py:136-146 | the dispatch map of a new parser routes the language's loop codes to handle_loop |
| Edi.X12DispatchTable | edi.py:136-146 | the X12 dispatch map has nine distinct keys: ISA, GS, BFR, N1, LIN, FST, (SHP, ATH), SE and ST, each leading to its handler |
| Edi.X12DispatchComplete | edi.py:136-146 | in X12 every handler is reached through the segment codes of its own role |
| Edi.EdifactDispatchTable | edi.py:136-146 | in EDIFACT the accumulation and release codes are both `("",)`, the map has eight entries, and no key leads to handle_release |
| Edi.PartRev | edi.py:317 | `part_rev` begins with the part number followed by a dash |
| Edi.PartRevSplits | edi.py:317 | `part_rev` is the part number, a dash, then the revision text, and splits back into those parts |
| Edi.PartRevWithoutRevision | edi.py:317 | a part without a revision gets the `part_rev` "<part>-None" |
| Edi.PartPo | edi.py:319 | a part's po is the `po` keyword when given, otherwise `customer_po`, and is None only when neither is given |
| Edi.EdiDocument.constructor | edi.py:296-306 | a new document holds its reference number and an empty part list |
| Edi.EdiPart.constructor | edi.py:314-325 | a new part has its number, revision, part_rev, an empty release list, the po above, and every optional attribute None |
| Edi.EdiPart.SetIfNone | edi.py:328-330 | an optional attribute is written only when it is None; no other attribute and no identifying field changes |
| Edi.EdiPart.SetTextIfNone | edi.py:328-330 | `revision`, `po` or `customer_po` is written only when it is None; no other attribute changes, and `part_rev` keeps the revision given at construction |
| Edi.EdiPart.Set | x12.py:132-133 | assigning one attribute changes that attribute only |
| Edi.EdiReleaseDetails.constructor | edi.py:332-336 | a release keeps its language, date and quantity as given |
| Edi.EdiBase.constructor | edi.py:120-146 | a parser for a known language gets the default separators and default segments, the dispatch map built from them, and an empty failure log |
| Edi.EdiBase.Create | edi.py:120-146 | construction returns the parser exactly when InitOutcome succeeds, and otherwise returns InitOutcome's error |
| Edi.EdiBase.DefaultSegments | edi.py:154-172 | every segment attribute and record_start_segment take the registry's codes for the language |
| Edi.EdiBase.HandleExtractionError | edi.py:148-152 | the failure is appended to the end of the log and the same failure is returned |
| Edi.EdiBase.ExtractOne | edi.py:196-246 | one leaf is extracted as LeafValue specifies, and the log grows by exactly the failure it returns, if any |
| Edi.EdiBase.ExtractList | edi.py:254-255 | the list branch returns ExtractAll of the positions and logs their failures in position order |
| Edi.EdiBase.ExtractLabelled | edi.py:258-269 | the dict branch returns ExtractNamed of the entries and logs their failures in key order |
| Edi.EdiBase.UniversalElementExtract | edi.py:248-276 | the result is Extraction of the request, and the log grows by exactly the failures in that result, in order |
| EdiExtract.ConvertLeaf | edi.py:228-245 | without `date` the text is kept; the result is a failure exactly when `date` is set, the leaf is strict and the text does not parse, and that failure is the 'Date conversion' failure for the text |
| EdiExtract.LeafValue | edi.py:196-246 | every failure of extract_one carries the segment and a false `date` field; a 'Date conversion' failure arises only for a strict leaf with `date` set; an 'Element Index' failure holds the bare element index |
| EdiExtract.Extraction | edi.py:248-276 | exactly another type of request is the TypeError; an int or a tuple gives one value; a list gives one value per position; a dict gives one entry per key |
| EdiExtract.ExtractAll | edi.py:255 | a list request returns one value per position |
| EdiExtract.ExtractNamed | edi.py:259-269 | a dict request returns one entry per key |
| EdiExtract.LeafElementIndexFailure | edi.py:201-212 | an element index outside the split segment gives an 'Element Index' failure holding the segment and the bare index |
| EdiExtract.LeafSubelementIndexFailure | edi.py:213-227 | for any element index within the segment, negative ones included, a subelement index past either end of the element gives a 'Subelement Index' failure holding the element, the request and the subindex |
| EdiExtract.LeafIndexFailureIffMissing | edi.py:201-227 | a leaf is an index failure exactly when the element or subelement is missing |
| EdiExtract.LeafWithoutDate | edi.py:228-246 | without `date` a present leaf is its raw text |
| EdiExtract.LeafDateFailureIffStrict | edi.py:228-245 | a date that does not parse is a 'Date conversion' failure carrying the caller's formats when strict, and the raw text otherwise |
| EdiExtract.LeafDateConverted | edi.py:228-230 | a date that parses is replaced by its reformatted text |
| EdiExtract.StrictnessNeedsDate | edi.py:228-232 | without `date`, strictness makes no difference |
| EdiExtract.LenientLeafNoDateFailure | edi.py:232 | a non-strict leaf is never a 'Date conversion' failure |
| EdiExtract.SingleOutOfRange | edi.py:248-251 | an int request past either end of the segment returns and logs one 'Element Index' failure |
| EdiExtract.SingleInRange | edi.py:248-251 | an int request inside the segment, without dates, returns that element and logs nothing |
| EdiExtract.PairSubelementOutOfRange | edi.py:213-227 | a tuple request past the end of the element returns and logs one 'Subelement Index' failure |
| EdiExtract.PairInRange | edi.py:197-215 | a tuple request inside the element, without dates, returns that subelement and logs nothing |
| EdiExtract.SingleDateFailure | edi.py:228-248 | an int request whose date does not parse returns and logs a 'Date conversion' failure with the given formats |
| EdiExtract.PairDateKeepsText | edi.py:232-251 | a tuple request whose date does not parse returns the raw subelement and logs nothing |
| EdiExtract.ExtractAllAt | edi.py:254-255 | the k-th value of a list request is the non-strict leaf at the k-th position |
| EdiExtract.ExtractNamedAt | edi.py:258-269 | a dict request keeps the keys in order, and each value is strict exactly when its entry says `"date": True` |
| EdiExtract.FailuresOfSnoc | edi.py:148-152 | the log of one more leaf is the previous log followed by that leaf's failure |
| EdiExtract.FailuresOfEntriesSnoc | edi.py:259-268 | the log of one more dict entry is the previous log followed by that entry's failure |
| EdiExtract.FailuresOfAreLeaves | edi.py:255 | a list extraction logs exactly the failures among its values |
| EdiExtract.FailuresOfEntriesAreLeaves | edi.py:259-268 | a dict extraction logs exactly the failures stored under its keys |
| EdiExtract.NoDateFailureForPairOrList | edi.py:248-255 | tuple and list requests never log a 'Date conversion' failure |
| EdiExtract.UnforcedEntryNoDateFailure | edi.py:260-268 | a dict entry without `"date": True` never holds a 'Date conversion' failure |
| EdiExtract.UnsupportedRejected | edi.py:271-276 | exactly a request of another type is the TypeError, and it logs nothing |
| X12.VersionToken | x12.py:57 | the version token is the first four characters of the GS version |
| X12.DateFormatFor | x12.py:58 | a listed version token gets its DATE_FORMATS entry, any other token gets `%Y%m%d`, and the result is one of the two formats |
| X12.DateFormatTwoDigitYears | x12.py:4-10 | the format is `%y%m%d` exactly for 0020 and 0030; every other token, listed or not, gets `%Y%m%d` |
| X12.VersionTokenExamples | x12.py:57-58 | GS version 002003 reads with two-digit years, 004010 and short tokens with four-digit years |
| X12.RecordNoIndex | x12.py:77-87 | the record column is 3 exactly for a code in GROUP_3; 2 exactly for one in GROUP_2 but not GROUP_3; 1 exactly for one in GROUP_1 only; 0 for the initial tuple and every other code |
| X12.StartSegmentRecordColumns | x12.py:11-29 | across START_SEGMENTS, the record column is 1 exactly for 861 and 810, 3 exactly for 830, 850, 855 and 860, and 0 exactly for 864 and 832 |
| X12.AccumColumns | x12.py:130-143 | each qualifier reads as many columns as it has target attributes |
| X12.AccumTargets | x12.py:130-143 | qualifier 01 writes two attributes, 02 and PQ write three, and any other qualifier writes none |
| X12.AccumTargetsDistinct | x12.py:127-143 | each qualifier writes distinct attributes; only 01, 02 and PQ write any; address and plant are never written |
| X12.DateColumnsLenient | x12.py:100 | each extracted date column is an 'Element Index' failure when the element is missing, its converted date when it parses, and its raw text otherwise |
| X12.CrossrefLabel | x12.py:149-150 | a code decodes to its cross-reference label exactly when it is in the X12 table, and to None otherwise |
| X12.ReleaseCodeLabels | edi.py:5-23 | forecast C is Firm and D is Planning; timing W is Weekly Bucket; unknown codes decode to None |
| X12.NewX12ReleaseDetails | x12.py:145-150 | an X12 release keeps its date and quantity and decodes its type and timing codes |
| X12.EdiX12.constructor | x12.py:30-32 | a new X12 parser wraps an X12 base and has none of the handler attributes yet |
| X12.EdiX12.Create | x12.py:31-32 | X12 construction succeeds exactly when no separator is given; otherwise it fails with AttributeError |
| X12.EdiX12.ExtractElement | x12.py:39 | an int-position call of universal_element_extract returns the leaf Element gives and logs only its failure |
| X12.EdiX12.ExtractElements | x12.py:100 | a list-position call of universal_element_extract returns the values Elements gives and logs their failures in order |
| X12.EdiX12.HandleEnvelope | x12.py:34-46 | the sender id and qualifier, the receiver id and qualifier, and the control number are elements 6, 5, 8, 7 and 13, logged in that order |
| X12.EdiX12.HandleInner | x12.py:48-59 | the version is the first four characters of element 8; the date format is chosen from it; the issue date is element 4 converted with it, strictly |
| X12.EdiX12.HandleLoop | x12.py:61-63 | the document type is element 1 and is stored first; a type in START_SEGMENTS sets record_start_segment to its start code; any other type, a failure included, is a KeyError that leaves record_start_segment unchanged |
| X12.EdiX12.HandleStart | x12.py:65-101 | an open document is appended itself to the list; the new document gets the record number from the start segment's column, the inner message's issue date and the horizon dates of elements 6 and 7; the log records the record number first, then the horizon |
| X12.EdiX12.HandleAddress | x12.py:103-125 | the address changes only on an ST qualifier; an open part's plant becomes the address whenever it is truthy, whatever the qualifier, and nothing else of the part changes |
| X12.EdiX12.HandleAccum | x12.py:127-143 | element 1 is always logged; without a part nothing else happens; with a part the qualifier's columns are written to its target attributes and all other attributes are unchanged |
| X12.EdiX12.Accumulate | x12.py:129-143 | for an open part, the columns of 01, 02 or PQ are extracted as dates in the default format, leniently, and assigned in order; any other qualifier changes nothing |
| X12.EdiX12.RecordShipment | x12.py:130-133 | qualifier 01 sets the last received quantity and date from elements 2 and 4, converted leniently, and changes no other attribute |
| X12.EdiX12.RecordTotals | x12.py:134-143 | qualifiers 02 and PQ set the total and its start and end dates from their three columns, converted leniently, and change no other attribute |

## Left out

- `warn(...)` calls and the text of `failure_reason`: a diagnostic side
  channel that has no effect on what is returned or logged.
- Calendar semantics of `datetime.strptime` / `strftime` (padding, the
  `%y` century pivot, date validity): the parser receives the conversion
  as the `DateConverter` parameter `strptime`.
- `unicode_escape` decoding of separators: separators are single
  characters.
- Keyword-argument attribute injection (`**kwargs` / `setattr`,
  `add_attr`) and `__repr__` / `__str__`: the model has fixed field sets.
  Passing `po=None` explicitly is not distinguished from omitting it.
- The failure log is created only when the first failure is appended, so
  before any failure reading `extraction_errors` raises AttributeError. The
  model starts every parser with an empty log and has no such error.
- Failures are compared by value. Python's failure objects compare by
  identity, so two equal failures are distinct objects there.
- A dict request is a sequence of distinct keys in insertion order. List
  items are ints or tuples only.
- Badly shaped requests are outside the `Request` and `Entry` types, so
  their exceptions are not modelled:
  - a tuple that is not a pair raises ValueError when unpacked
    (edi.py:197-198);
  - a dict entry such as `{"date": True}` without `"pos"` indexes the split
    segment with None and raises TypeError (edi.py:263, 202);
  - a list or dict value that is itself a list or a dict (other than an
    entry spec) raises TypeError at the subscript (edi.py:202).
- The segment-splitting loop and the `startswith` dispatch driver are not
  part of this model. The dispatch map is modelled as data only, and no
  traversal order is assumed. The initial contents of the `state` dict
  come from that driver, so `TraversalState` has no constructor.
- `handle_part`, `handle_release`, `handle_end` and every EDIFACT handler
  are not defined in the modelled files.
- Attributes that Python creates only when a handler first assigns them
  exist from construction in the model, holding None. These are `plant`
  and `last_received_ship_*` of `EdiPart`; `document_issue_date` and
  `horizon_*` of `EdiDocument`; and `sender_id` … `document_type` of
  `EdiX12`. No modelled operation reads one of them before writing it.
- Edi.EdiPart.SetTextIfNone: writes text only. Python's `set_if_none` can
  store any object, a failure object included, in `revision`, `po` or
  `customer_po`; those fields are typed as text in the model.
- `set_if_none` with an attribute name that the part never had creates that
  attribute in Python. The model names only the part's own attributes.
- `EdiReleaseDetails` carries `rel_type` and `rel_timing` as None for a
  base release, where Python has no such attributes.
- X12.EdiX12.HandleInner: requires element 8 to be present. When it is
  missing, Python slices a failure object and raises TypeError; that path
  is not modelled.
- X12.EdiX12.HandleStart: requires a prior `handle_inner`, which provides
  `date_format` and `state['document_issue_date']`. Without one, Python
  raises AttributeError or KeyError; that path is not modelled.
- X12.EdiX12.Create: Python cannot instantiate `EdiX12` at all. `EdiBase`
  declares `handle_part`, `handle_release` and `handle_end` abstract
  (edi.py:287-294) and `EdiX12` defines none of them, so `EdiX12(...)`
  raises TypeError before `__init__` runs. The model stands for a concrete
  subclass that supplies those three handlers, and states only the outcome
  of the inherited `__init__`.
- X12.EdiX12.constructor: stands likewise for such a concrete subclass;
  the TypeError of instantiating `EdiX12` itself is not modelled.
- Edi.EdiBase.constructor: builds only a parser for a recognised language
  with the default separators. The failing cases are covered by
  `Edi.EdiBase.Create` and `Edi.InitOutcome`.
