/**
 * The positional element extractor of edi.py (universal_element_extract),
 * stated as pure functions: what each request returns and which failures
 * it records, in the order they occur.
 */
module EdiExtract {
  import opened Wrappers
  import opened PyStr
  import opened EdiTables

  const DefaultDateFormatIn: string := "%Y%m%d"
  const DefaultDateFormatOut: string := "%m-%d-%Y"

  /**
   * `datetime.strptime(text, formatIn).strftime(formatOut)`: the reformatted
   * date, or None when the text does not parse under formatIn.
   */
  type DateConverter = (string, string, string) -> Option<string>

  /** One leaf position: an element index, or an element and subelement index. */
  datatype Pos = Elem(index: int) | SubElem(index: int, sub: int)

  /** A value of a labelled request: a bare position, or `{"pos": p, "date": d}`. */
  datatype Entry = Plain(pos: Pos) | Spec(pos: Pos, date: bool)

  /**
   * The `position` argument: an int, an `(int, int)` tuple, a list of those,
   * a dict of labelled entries (in insertion order), or a value of any other
   * type.
   */
  datatype Request =
    | Single(index: int)
    | Pair(index: int, sub: int)
    | List(items: seq<Pos>)
    | Named(entries: seq<(string, Entry)>)
    | Unsupported

  datatype FailurePoint = ElementIndex | SubelementIndex | DateConversion

  /**
   * ElementExtractionFailure. `position` is a request-shaped value: the bare
   * element index for an index failure, the caller's whole request otherwise.
   */
  datatype ExtractionFailure = ExtractionFailure(
    failurePoint: FailurePoint,
    segment: string,
    position: Request,
    element: Option<string>,
    subposition: Option<int>,
    date: bool,
    dateFormatIn: string,
    dateFormatOut: string)

  /** A leaf of an extraction: the text, or the failure put in its place. */
  datatype Value = Text(text: string) | Failed(failure: ExtractionFailure)

  /** What universal_element_extract returns for each request shape. */
  datatype Extracted =
    | Scalar(value: Value)
    | Values(values: seq<Value>)
    | Labelled(entries: seq<(string, Value)>)

  /** A successful extraction, or the TypeError for an unsupported request. */
  datatype ExtractResult = Ok(extracted: Extracted) | UnsupportedType

  /** The keyword arguments `date`, `date_format_in`, `date_format_out`. */
  datatype DateOptions = DateOptions(date: bool, formatIn: string, formatOut: string)

  /** The keyword defaults: no date conversion. */
  const NoDate: DateOptions := DateOptions(false, DefaultDateFormatIn, DefaultDateFormatOut)

  /** `date=True` with the given input format and the default output format. */
  function AsDate(formatIn: string): DateOptions
  {
    DateOptions(true, formatIn, DefaultDateFormatOut)
  }

  /** Python's truth value of an element field: non-empty text, or any failure object. */
  predicate Truthy(v: Option<Value>)
  {
    match v
    case None => false
    case Some(Text(s)) => s != ""
    case Some(Failed(_)) => true
  }

  /** The failure recorded when the element index is out of range. */
  function ElementIndexFailure(segment: string, index: int): ExtractionFailure
  {
    ExtractionFailure(ElementIndex, segment, Single(index), None, None, false,
                      DefaultDateFormatIn, DefaultDateFormatOut)
  }

  /** The failure recorded when the subelement index is out of range. */
  function SubelementIndexFailure(segment: string, request: Request, element: string, sub: int): ExtractionFailure
  {
    ExtractionFailure(SubelementIndex, segment, request, Some(element), Some(sub), false,
                      DefaultDateFormatIn, DefaultDateFormatOut)
  }

  /** The failure recorded when a strict date conversion fails. */
  function DateConversionFailure(segment: string, request: Request, element: string,
                                 sub: Option<int>, opts: DateOptions): ExtractionFailure
  {
    ExtractionFailure(DateConversion, segment, request, Some(element), sub, false,
                      opts.formatIn, opts.formatOut)
  }

  /** The raw text at a leaf position, or None when an index is out of range. */
  function RawLeaf(segment: string, seps: Separators, pos: Pos): Option<string>
  {
    match PyIndex(Split(segment, seps.element), pos.index)
    case None => None
    case Some(element) =>
      if pos.Elem? then Some(element) else PyIndex(Split(element, seps.subelement), pos.sub)
  }

  /** The date step of extract_one, applied to the text found at the leaf. */
  function ConvertLeaf(segment: string, request: Request, element: string, sub: Option<int>,
                       opts: DateOptions, strict: bool, convert: DateConverter): (v: Value)
    ensures !opts.date ==> v == Text(element)
    ensures v.Failed? <==> opts.date && strict && convert(element, opts.formatIn, opts.formatOut).None?
    ensures v.Failed? ==> v.failure == DateConversionFailure(segment, request, element, sub, opts)
  {
    if !opts.date then Text(element)
    else
      match convert(element, opts.formatIn, opts.formatOut)
      case Some(d) => Text(d)
      case None =>
        if strict then Failed(DateConversionFailure(segment, request, element, sub, opts))
        else Text(element)
  }

  /**
   * extract_one: the value at one leaf. `strict` is `single_date or
   * force_date`, the condition under which a failed date conversion is a
   * failure rather than the unconverted text.
   */
  function LeafValue(segment: string, seps: Separators, request: Request, pos: Pos,
                     opts: DateOptions, strict: bool, convert: DateConverter): (v: Value)
    ensures v.Failed? ==> v.failure.segment == segment && !v.failure.date
    ensures v.Failed? && v.failure.failurePoint == DateConversion ==> strict && opts.date
    ensures v.Failed? && v.failure.failurePoint == ElementIndex ==> v.failure.position == Single(pos.index)
  {
    match PyIndex(Split(segment, seps.element), pos.index)
    case None => Failed(ElementIndexFailure(segment, pos.index))
    case Some(element) =>
      if pos.Elem? then ConvertLeaf(segment, request, element, None, opts, strict, convert)
      else
        match PyIndex(Split(element, seps.subelement), pos.sub)
        case None => Failed(SubelementIndexFailure(segment, request, element, pos.sub))
        case Some(subelement) => ConvertLeaf(segment, request, subelement, Some(pos.sub), opts, strict, convert)
  }

  /** The list branch: every position extracted leniently, in order. */
  function ExtractAll(segment: string, seps: Separators, request: Request, ps: seq<Pos>,
                      opts: DateOptions, convert: DateConverter): (vs: seq<Value>)
    ensures |vs| == |ps|
  {
    if ps == [] then []
    else ExtractAll(segment, seps, request, ps[..|ps| - 1], opts, convert)
         + [LeafValue(segment, seps, request, ps[|ps| - 1], opts, false, convert)]
  }

  /** Whether a labelled entry forces a strict date conversion (`"date": True`). */
  predicate Forced(e: Entry)
  {
    e.Spec? && e.date
  }

  /** The dict branch: every entry extracted under its own strictness, keys kept in order. */
  function ExtractNamed(segment: string, seps: Separators, request: Request, es: seq<(string, Entry)>,
                        opts: DateOptions, convert: DateConverter): (rs: seq<(string, Value)>)
    ensures |rs| == |es|
  {
    if es == [] then []
    else
      var last := es[|es| - 1];
      ExtractNamed(segment, seps, request, es[..|es| - 1], opts, convert)
      + [(last.0, LeafValue(segment, seps, request, last.1.pos, opts, Forced(last.1), convert))]
  }

  /** universal_element_extract. Only a plain int request converts dates strictly. */
  function Extraction(segment: string, seps: Separators, request: Request,
                      opts: DateOptions, convert: DateConverter): (r: ExtractResult)
    ensures r.UnsupportedType? <==> request.Unsupported?
    ensures request.Single? || request.Pair? ==> r.Ok? && r.extracted.Scalar?
    ensures request.List? ==> r.Ok? && r.extracted.Values? && |r.extracted.values| == |request.items|
    ensures request.Named? ==> r.Ok? && r.extracted.Labelled?
                               && |r.extracted.entries| == |request.entries|
  {
    match request
    case Single(i) => Ok(Scalar(LeafValue(segment, seps, request, Elem(i), opts, true, convert)))
    case Pair(i, j) => Ok(Scalar(LeafValue(segment, seps, request, SubElem(i, j), opts, false, convert)))
    case List(ps) => Ok(Values(ExtractAll(segment, seps, request, ps, opts, convert)))
    case Named(es) => Ok(Labelled(ExtractNamed(segment, seps, request, es, opts, convert)))
    case Unsupported => UnsupportedType
  }

  /** The failure a leaf contributes to the log. */
  function FailuresIn(v: Value): seq<ExtractionFailure>
  {
    if v.Failed? then [v.failure] else []
  }

  /** The failures of a list of leaves, in leaf order. */
  function FailuresOf(vs: seq<Value>): seq<ExtractionFailure>
  {
    if vs == [] then [] else FailuresOf(vs[..|vs| - 1]) + FailuresIn(vs[|vs| - 1])
  }

  /** Logging one more leaf appends its failure, if any. */
  lemma FailuresOfSnoc(vs: seq<Value>, v: Value)
    ensures FailuresOf(vs + [v]) == FailuresOf(vs) + FailuresIn(v)
  {
    assert (vs + [v])[..|vs|] == vs;
  }

  /** The failures of labelled leaves, in key order. */
  function FailuresOfEntries(rs: seq<(string, Value)>): seq<ExtractionFailure>
  {
    if rs == [] then [] else FailuresOfEntries(rs[..|rs| - 1]) + FailuresIn(rs[|rs| - 1].1)
  }

  /** Logging one more labelled leaf appends its failure, if any. */
  lemma FailuresOfEntriesSnoc(rs: seq<(string, Value)>, r: (string, Value))
    ensures FailuresOfEntries(rs + [r]) == FailuresOfEntries(rs) + FailuresIn(r.1)
  {
    assert (rs + [r])[..|rs|] == rs;
  }

  /** Everything one call appends to the parser's failure log. */
  function Logged(r: ExtractResult): seq<ExtractionFailure>
  {
    match r
    case Ok(Scalar(v)) => FailuresIn(v)
    case Ok(Values(vs)) => FailuresOf(vs)
    case Ok(Labelled(rs)) => FailuresOfEntries(rs)
    case UnsupportedType => []
  }

  // ---------------------------------------------------------------------
  // Properties of a single leaf
  // ---------------------------------------------------------------------

  /**
   * An out-of-range element index gives an 'Element Index' failure whose
   * position is that index alone, whatever the request looked like.
   */
  lemma LeafElementIndexFailure(segment: string, seps: Separators, request: Request, pos: Pos,
                                opts: DateOptions, strict: bool, convert: DateConverter)
    requires pos.index > Count(segment, seps.element) || pos.index + Count(segment, seps.element) + 1 < 0
    ensures LeafValue(segment, seps, request, pos, opts, strict, convert)
            == Failed(ElementIndexFailure(segment, pos.index))
  {
    SplitLength(segment, seps.element);
  }

  /**
   * An element that exists but has too few subelements gives a
   * 'Subelement Index' failure carrying the element, the subposition and the
   * caller's whole request.
   */
  lemma LeafSubelementIndexFailure(segment: string, seps: Separators, request: Request, i: int, j: int,
                                   opts: DateOptions, strict: bool, convert: DateConverter)
    requires -|Split(segment, seps.element)| <= i < |Split(segment, seps.element)|
    requires var e := PyIndex(Split(segment, seps.element), i).value;
             j > Count(e, seps.subelement) || j + Count(e, seps.subelement) + 1 < 0
    ensures LeafValue(segment, seps, request, SubElem(i, j), opts, strict, convert)
            == Failed(SubelementIndexFailure(segment, request, PyIndex(Split(segment, seps.element), i).value, j))
  {
    SplitLength(PyIndex(Split(segment, seps.element), i).value, seps.subelement);
  }

  /** A leaf is an index failure exactly when no raw text exists at its position. */
  lemma LeafIndexFailureIffMissing(segment: string, seps: Separators, request: Request, pos: Pos,
                                   opts: DateOptions, strict: bool, convert: DateConverter)
    ensures var v := LeafValue(segment, seps, request, pos, opts, strict, convert);
            RawLeaf(segment, seps, pos).None?
            <==> v.Failed? && v.failure.failurePoint in {ElementIndex, SubelementIndex}
  {
  }

  /** Without date conversion a present leaf is exactly its raw text. */
  lemma LeafWithoutDate(segment: string, seps: Separators, request: Request, pos: Pos,
                        opts: DateOptions, strict: bool, convert: DateConverter)
    requires !opts.date
    requires RawLeaf(segment, seps, pos).Some?
    ensures LeafValue(segment, seps, request, pos, opts, strict, convert)
            == Text(RawLeaf(segment, seps, pos).value)
  {
  }

  /**
   * With date conversion requested and a conversion that fails, the leaf is
   * a 'Date conversion' failure exactly when it is strict; otherwise it is
   * the unconverted text.
   */
  lemma LeafDateFailureIffStrict(segment: string, seps: Separators, request: Request, pos: Pos,
                                 opts: DateOptions, strict: bool, convert: DateConverter)
    requires opts.date
    requires RawLeaf(segment, seps, pos).Some?
    requires convert(RawLeaf(segment, seps, pos).value, opts.formatIn, opts.formatOut).None?
    ensures var raw := RawLeaf(segment, seps, pos).value;
            var sub := if pos.SubElem? then Some(pos.sub) else None;
            LeafValue(segment, seps, request, pos, opts, strict, convert)
            == if strict then Failed(DateConversionFailure(segment, request, raw, sub, opts)) else Text(raw)
  {
  }

  /** A successful conversion replaces the raw text whatever the strictness. */
  lemma LeafDateConverted(segment: string, seps: Separators, request: Request, pos: Pos,
                          opts: DateOptions, strict: bool, convert: DateConverter)
    requires opts.date
    requires RawLeaf(segment, seps, pos).Some?
    requires convert(RawLeaf(segment, seps, pos).value, opts.formatIn, opts.formatOut).Some?
    ensures LeafValue(segment, seps, request, pos, opts, strict, convert)
            == Text(convert(RawLeaf(segment, seps, pos).value, opts.formatIn, opts.formatOut).value)
  {
  }

  /** Strictness (`"date": True`) has no effect unless `date` is requested. */
  lemma StrictnessNeedsDate(segment: string, seps: Separators, request: Request, pos: Pos,
                            opts: DateOptions, convert: DateConverter)
    requires !opts.date
    ensures LeafValue(segment, seps, request, pos, opts, true, convert)
            == LeafValue(segment, seps, request, pos, opts, false, convert)
  {
  }

  /** A lenient leaf is never a 'Date conversion' failure. */
  lemma LenientLeafNoDateFailure(segment: string, seps: Separators, request: Request, pos: Pos,
                                 opts: DateOptions, convert: DateConverter)
    ensures var v := LeafValue(segment, seps, request, pos, opts, false, convert);
            v.Failed? ==> v.failure.failurePoint != DateConversion
  {
  }

  // ---------------------------------------------------------------------
  // Properties of whole requests
  // ---------------------------------------------------------------------

  /**
   * An int position beyond the segment's elements yields an 'Element Index'
   * failure for that segment and index, and logs exactly that failure.
   */
  lemma SingleOutOfRange(segment: string, seps: Separators, i: int, opts: DateOptions, convert: DateConverter)
    requires i > Count(segment, seps.element) || i + Count(segment, seps.element) + 1 < 0
    ensures var f := ElementIndexFailure(segment, i);
            var r := Extraction(segment, seps, Single(i), opts, convert);
            r == Ok(Scalar(Failed(f))) && Logged(r) == [f]
  {
    LeafElementIndexFailure(segment, seps, Single(i), Elem(i), opts, true, convert);
  }

  /**
   * A pair `(i, j)` whose element `i` has no subelement `j` yields a
   * 'Subelement Index' failure whose position is the pair itself, and logs it.
   */
  lemma PairSubelementOutOfRange(segment: string, seps: Separators, i: int, j: int,
                                 opts: DateOptions, convert: DateConverter)
    requires 0 <= i <= Count(segment, seps.element)
    ensures i < |Split(segment, seps.element)|
    ensures var element := Split(segment, seps.element)[i];
            var f := SubelementIndexFailure(segment, Pair(i, j), element, j);
            var r := Extraction(segment, seps, Pair(i, j), opts, convert);
            j > Count(element, seps.subelement) ==> r == Ok(Scalar(Failed(f))) && Logged(r) == [f]
  {
    SplitLength(segment, seps.element);
    var element := Split(segment, seps.element)[i];
    if j > Count(element, seps.subelement) {
      LeafSubelementIndexFailure(segment, seps, Pair(i, j), i, j, opts, false, convert);
    }
  }

  /**
   * Without date conversion, an in-range int position returns exactly the
   * i-th piece of the split, and nothing is logged.
   */
  lemma SingleInRange(segment: string, seps: Separators, i: nat, opts: DateOptions, convert: DateConverter)
    requires !opts.date
    requires i <= Count(segment, seps.element)
    ensures i < |Split(segment, seps.element)|
    ensures var r := Extraction(segment, seps, Single(i), opts, convert);
            r == Ok(Scalar(Text(Split(segment, seps.element)[i]))) && Logged(r) == []
  {
    SplitLength(segment, seps.element);
  }

  /**
   * Without date conversion, an in-range pair returns exactly the j-th
   * sub-piece of the i-th piece, and nothing is logged.
   */
  lemma PairInRange(segment: string, seps: Separators, i: nat, j: nat, opts: DateOptions, convert: DateConverter)
    requires !opts.date
    requires i <= Count(segment, seps.element)
    ensures i < |Split(segment, seps.element)|
    ensures var element := Split(segment, seps.element)[i];
            var r := Extraction(segment, seps, Pair(i, j), opts, convert);
            j <= Count(element, seps.subelement) ==>
              j < |Split(element, seps.subelement)|
              && r == Ok(Scalar(Text(Split(element, seps.subelement)[j]))) && Logged(r) == []
  {
    SplitLength(segment, seps.element);
    SplitLength(Split(segment, seps.element)[i], seps.subelement);
  }

  /**
   * A plain int request is strict: a date that does not convert is returned
   * and logged as a 'Date conversion' failure carrying both formats.
   */
  lemma SingleDateFailure(segment: string, seps: Separators, i: int, opts: DateOptions, convert: DateConverter)
    requires opts.date
    requires RawLeaf(segment, seps, Elem(i)).Some?
    requires convert(RawLeaf(segment, seps, Elem(i)).value, opts.formatIn, opts.formatOut).None?
    ensures var f := DateConversionFailure(segment, Single(i), RawLeaf(segment, seps, Elem(i)).value, None, opts);
            var r := Extraction(segment, seps, Single(i), opts, convert);
            r == Ok(Scalar(Failed(f))) && Logged(r) == [f]
            && f.dateFormatIn == opts.formatIn && f.dateFormatOut == opts.formatOut
  {
    LeafDateFailureIffStrict(segment, seps, Single(i), Elem(i), opts, true, convert);
  }

  /** A tuple request is lenient: a date that does not convert is returned as text. */
  lemma PairDateKeepsText(segment: string, seps: Separators, i: int, j: int, opts: DateOptions, convert: DateConverter)
    requires opts.date
    requires RawLeaf(segment, seps, SubElem(i, j)).Some?
    requires convert(RawLeaf(segment, seps, SubElem(i, j)).value, opts.formatIn, opts.formatOut).None?
    ensures var r := Extraction(segment, seps, Pair(i, j), opts, convert);
            r == Ok(Scalar(Text(RawLeaf(segment, seps, SubElem(i, j)).value))) && Logged(r) == []
  {
    LeafDateFailureIffStrict(segment, seps, Pair(i, j), SubElem(i, j), opts, false, convert);
  }

  /** A list request returns one value per position: the k-th is the k-th position's leniently extracted leaf. */
  lemma {:induction false} ExtractAllAt(segment: string, seps: Separators, request: Request, ps: seq<Pos>,
                                        opts: DateOptions, convert: DateConverter)
    ensures var vs := ExtractAll(segment, seps, request, ps, opts, convert);
            forall k :: 0 <= k < |ps| ==> vs[k] == LeafValue(segment, seps, request, ps[k], opts, false, convert)
  {
    if ps != [] {
      var init := ps[..|ps| - 1];
      ExtractAllAt(segment, seps, request, init, opts, convert);
      assert forall k :: 0 <= k < |init| ==> init[k] == ps[k];
    }
  }

  /**
   * A dict request returns the same keys in the same order; each value is
   * that entry's leaf, strict exactly when the entry says `"date": True`.
   */
  lemma {:induction false} ExtractNamedAt(segment: string, seps: Separators, request: Request, es: seq<(string, Entry)>,
                                          opts: DateOptions, convert: DateConverter)
    ensures var rs := ExtractNamed(segment, seps, request, es, opts, convert);
            forall k :: 0 <= k < |es| ==>
              rs[k].0 == es[k].0
              && rs[k].1 == LeafValue(segment, seps, request, es[k].1.pos, opts, Forced(es[k].1), convert)
  {
    if es != [] {
      var init := es[..|es| - 1];
      ExtractNamedAt(segment, seps, request, init, opts, convert);
      assert forall k :: 0 <= k < |init| ==> init[k] == es[k];
    }
  }

  /** The log of a list of leaves holds exactly the failures found at its leaves. */
  lemma {:induction false} FailuresOfAreLeaves(vs: seq<Value>)
    ensures forall f :: f in FailuresOf(vs) <==> Failed(f) in vs
  {
    if vs != [] {
      var init := vs[..|vs| - 1];
      FailuresOfAreLeaves(init);
      assert vs == init + [vs[|vs| - 1]];
    }
  }

  /** The log of labelled leaves holds exactly the failures found under its keys. */
  lemma {:induction false} FailuresOfEntriesAreLeaves(rs: seq<(string, Value)>)
    ensures forall f :: f in FailuresOfEntries(rs) <==> exists k :: 0 <= k < |rs| && rs[k].1 == Failed(f)
  {
    if rs != [] {
      var init := rs[..|rs| - 1];
      FailuresOfEntriesAreLeaves(init);
      forall f
        ensures f in FailuresOfEntries(rs) <==> exists k :: 0 <= k < |rs| && rs[k].1 == Failed(f)
      {
        if exists k :: 0 <= k < |rs| && rs[k].1 == Failed(f) {
          var k :| 0 <= k < |rs| && rs[k].1 == Failed(f);
          if k < |init| {
            assert init[k] == rs[k];
          }
        }
        if exists k :: 0 <= k < |init| && init[k].1 == Failed(f) {
          var k :| 0 <= k < |init| && init[k].1 == Failed(f);
          assert rs[k] == init[k];
        }
      }
    }
  }

  /** Tuple and list requests never log a 'Date conversion' failure. */
  lemma NoDateFailureForPairOrList(segment: string, seps: Separators, request: Request,
                                   opts: DateOptions, convert: DateConverter)
    requires request.Pair? || request.List?
    ensures forall f :: f in Logged(Extraction(segment, seps, request, opts, convert))
              ==> f.failurePoint != DateConversion
  {
    match request
    case Pair(i, j) =>
      LenientLeafNoDateFailure(segment, seps, request, SubElem(i, j), opts, convert);
    case List(ps) =>
      var vs := ExtractAll(segment, seps, request, ps, opts, convert);
      ExtractAllAt(segment, seps, request, ps, opts, convert);
      FailuresOfAreLeaves(vs);
      forall k | 0 <= k < |ps| {
        LenientLeafNoDateFailure(segment, seps, request, ps[k], opts, convert);
      }
  }

  /** In a dict request, an entry without `"date": True` never holds a 'Date conversion' failure. */
  lemma UnforcedEntryNoDateFailure(segment: string, seps: Separators, es: seq<(string, Entry)>,
                                   opts: DateOptions, convert: DateConverter, k: nat)
    requires k < |es| && !Forced(es[k].1)
    ensures var rs := ExtractNamed(segment, seps, Named(es), es, opts, convert);
            rs[k].1.Failed? ==> rs[k].1.failure.failurePoint != DateConversion
  {
    ExtractNamedAt(segment, seps, Named(es), es, opts, convert);
    LenientLeafNoDateFailure(segment, seps, Named(es), es[k].1.pos, opts, convert);
  }

  /** A request of any other type is a TypeError, and nothing is logged. */
  lemma UnsupportedRejected(segment: string, seps: Separators, request: Request, opts: DateOptions, convert: DateConverter)
    ensures var r := Extraction(segment, seps, request, opts, convert);
            r == UnsupportedType <==> request.Unsupported?
    ensures request.Unsupported? ==> Logged(Extraction(segment, seps, request, opts, convert)) == []
  {
  }
}
