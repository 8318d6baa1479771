/**
 * The X12 dialect of x12.py: the version and document-type tables, the
 * record-number column of each start segment, the release code decoding,
 * and the segment handlers that assemble documents in the traversal state.
 */
module X12 {
  import opened Wrappers
  import opened PyStr
  import opened EdiTables
  import opened EdiExtract
  import opened Edi

  // ---------------------------------------------------------------------
  // Tables
  // ---------------------------------------------------------------------

  /** DATE_FORMATS: the date input format of each GS version token. */
  const DateFormats: map<string, string> :=
    map["0020" := "%y%m%d", "0030" := "%y%m%d", "0040" := "%Y%m%d", "0050" := "%Y%m%d", "0060" := "%Y%m%d"]

  /** The version token of the GS version element: its first four characters. */
  function VersionToken(element: string): (token: string)
    ensures |token| == if |element| < 4 then |element| else 4
    ensures token <= element
  {
    Prefix(element, 4)
  }

  /** `DATE_FORMATS.get(version, '%Y%m%d')`. */
  function DateFormatFor(version: string): (fmt: string)
    ensures version in DateFormats ==> fmt == DateFormats[version]
    ensures version !in DateFormats ==> fmt == DefaultDateFormatIn
    ensures fmt == "%y%m%d" || fmt == "%Y%m%d"
  {
    if version in DateFormats then DateFormats[version] else DefaultDateFormatIn
  }

  /**
   * Only the versions 0020 and 0030 use two-digit years; every other token,
   * listed or not, falls back to the four-digit format.
   */
  lemma DateFormatTwoDigitYears(version: string)
    ensures DateFormatFor(version) == "%y%m%d" <==> version in {"0020", "0030"}
    ensures DateFormatFor(version) != "%y%m%d" ==> DateFormatFor(version) == "%Y%m%d"
  {
  }

  /** The GS versions 002003 and 004010 read as the two date styles. */
  lemma VersionTokenExamples()
    ensures DateFormatFor(VersionToken("002003")) == "%y%m%d"
    ensures DateFormatFor(VersionToken("004010")) == "%Y%m%d"
    ensures DateFormatFor(VersionToken("00")) == "%Y%m%d"
  {
    assert VersionToken("002003") == "0020";
    assert VersionToken("004010") == "0040";
  }

  /** START_SEGMENTS: the segment that opens a document of each transaction set. */
  const StartSegments: map<string, string> :=
    map["861" := "BRA", "810" := "BIG", "824" := "BGN", "997" := "AK1", "856" := "BSN",
        "822" := "BGN", "862" := "BSS", "142" := "BGN", "853" := "BGN", "830" := "BFR",
        "850" := "BEG", "855" := "BAK", "860" := "BCH", "864" := "BMG", "820" := "TRN",
        "832" := "BCT"]

  /** The three groups of start segments, by the element holding the record number. */
  const Group3: seq<string> := ["BFR", "BEG", "BAK", "BCH"]
  const Group2: seq<string> := ["BSN", "BSS", "BGN", "AK1", "TRN"]
  const Group1: seq<string> := ["BRA", "BIG"]

  /**
   * The record-number element of the current start segment. The initial
   * value of record_start_segment is a tuple, which is in none of the
   * groups, so it gives element 0.
   */
  function RecordNoIndex(tag: SegmentTag): (i: int)
    ensures 0 <= i <= 3
    ensures tag.Codes? ==> i == 0
    ensures i == 3 <==> tag.Code? && tag.code in Group3
    ensures i == 2 <==> tag.Code? && tag.code !in Group3 && tag.code in Group2
    ensures i == 1 <==> tag.Code? && tag.code !in Group3 && tag.code !in Group2 && tag.code in Group1
    ensures i == 0 <==> tag.Codes? || (tag.code !in Group3 && tag.code !in Group2 && tag.code !in Group1)
  {
    match tag
    case Codes(_) => 0
    case Code(c) =>
      if c in Group3 then 3
      else if c in Group2 then 2
      else if c in Group1 then 1
      else 0
  }

  /**
   * The record-number columns of the start segment table: 1 for 861 and
   * 810, 3 for 830, 850, 855 and 860, 0 for 864 and 832, 2 otherwise.
   */
  lemma StartSegmentRecordColumns(documentType: string)
    requires documentType in StartSegments
    ensures var i := RecordNoIndex(Code(StartSegments[documentType]));
            && (i == 1 <==> documentType in {"861", "810"})
            && (i == 3 <==> documentType in {"830", "850", "855", "860"})
            && (i == 0 <==> documentType in {"864", "832"})
  {
  }

  /** The accumulation qualifiers handle_accum knows and the element columns each reads. */
  function AccumColumns(accumType: Value): (ps: seq<Pos>)
    ensures |ps| == |AccumTargets(accumType)|
  {
    if accumType == Text("01") then [Elem(2), Elem(4)]
    else if accumType == Text("02") then [Elem(2), Elem(4), Elem(6)]
    else if accumType == Text("PQ") then [Elem(3), Elem(5), Elem(2)]
    else []
  }

  /** The part attributes handle_accum writes for a qualifier, in column order. */
  function AccumTargets(accumType: Value): (targets: seq<PartAttribute>)
    ensures |targets| == 0 || |targets| == 2 || |targets| == 3
    ensures |targets| == 2 <==> accumType == Text("01")
    ensures |targets| == 3 <==> accumType == Text("02") || accumType == Text("PQ")
  {
    if accumType == Text("01") then [LastReceivedShipQuantity, LastReceivedShipDate]
    else if accumType in {Text("02"), Text("PQ")} then [TotalAccum, TotalAccumStartDate, TotalAccumEndDate]
    else []
  }

  /**
   * Each qualifier writes distinct attributes, and only the three known
   * qualifiers write any: a failure object or another code writes nothing.
   */
  lemma AccumTargetsDistinct(accumType: Value)
    ensures forall i, j :: 0 <= i < j < |AccumTargets(accumType)| ==>
              AccumTargets(accumType)[i] != AccumTargets(accumType)[j]
    ensures AccumTargets(accumType) != [] <==> accumType in {Text("01"), Text("02"), Text("PQ")}
    ensures forall a :: a in AccumTargets(accumType) ==> a !in {PartAttribute.Address, Plant}
  {
  }

  /**
   * The horizon dates of handle_start and the quantities and dates of
   * handle_accum are list requests with date conversion: a missing element
   * is an 'Element Index' failure, a present one is its converted date, or
   * its raw text when it does not parse, never a 'Date conversion' failure.
   */
  lemma DateColumnsLenient(segment: string, seps: Separators, ps: seq<Pos>, formatIn: string,
                           convert: DateConverter)
    requires forall k :: 0 <= k < |ps| ==> ps[k].Elem?
    ensures var vs := ExtractAll(segment, seps, List(ps), ps, AsDate(formatIn), convert);
            forall k :: 0 <= k < |ps| ==>
              vs[k] == (match RawLeaf(segment, seps, ps[k])
                        case None => Failed(ElementIndexFailure(segment, ps[k].index))
                        case Some(raw) =>
                          (match convert(raw, formatIn, DefaultDateFormatOut)
                           case Some(d) => Text(d)
                           case None => Text(raw)))
  {
    ExtractAllAt(segment, seps, List(ps), ps, AsDate(formatIn), convert);
  }

  /** `FORECAST_CROSSREF['X12'].get(code)` and `TIMING_CROSSREF['X12'].get(code)`. */
  function CrossrefLabel(table: map<Language, map<string, string>>, code: string): (r: Option<string>)
    requires X12 in table
    ensures r.Some? <==> code in table[X12]
    ensures r.Some? ==> r.value == table[X12][code]
  {
    if code in table[X12] then Some(table[X12][code]) else None
  }

  /** The forecast and timing codes of an 830 release line decode to these labels. */
  lemma ReleaseCodeLabels()
    ensures CrossrefLabel(ForecastCrossref, "C") == Some("Firm")
    ensures CrossrefLabel(ForecastCrossref, "D") == Some("Planning")
    ensures CrossrefLabel(TimingCrossref, "W") == Some("Weekly Bucket")
    ensures CrossrefLabel(ForecastCrossref, "X") == None
    ensures CrossrefLabel(TimingCrossref, "") == None
  {
  }

  /** X12ReleaseDetails: a release line with its type and timing codes decoded. */
  method NewX12ReleaseDetails(date: string, quantity: string, relType: string, relTiming: string)
    returns (r: EdiReleaseDetails)
    ensures fresh(r)
    ensures r.language == X12 && r.date == date && r.quantity == quantity
    ensures r.relType == CrossrefLabel(ForecastCrossref, relType)
    ensures r.relTiming == CrossrefLabel(TimingCrossref, relTiming)
  {
    r := new EdiReleaseDetails(X12, date, quantity);
    r.relType := CrossrefLabel(ForecastCrossref, relType);
    r.relTiming := CrossrefLabel(TimingCrossref, relTiming);
  }

  // ---------------------------------------------------------------------
  // Traversal state and the parser
  // ---------------------------------------------------------------------

  /**
   * The `state` dict the handlers share: the open document, the sealed
   * documents, the issue date of the inner message (None while the key is
   * absent), the ship-to address and the open part (null for None).
   */
  class TraversalState {
    var ediClass: EdiDocument?
    var ediClassList: seq<EdiDocument>
    var documentIssueDate: Option<Value>
    var address: Option<Value>
    var partRecord: EdiPart?
  }

  /** What handle_loop raises for a document type missing from START_SEGMENTS. */
  datatype LoopError = KeyError(documentType: Value)

  /** EdiX12: the X12 parser, built on an EdiBase for the language X12. */
  class EdiX12 {
    const base: EdiBase

    /** Attributes set by the handlers; None until the handler first runs. */
    var senderId: Option<Value>
    var senderQualifier: Option<Value>
    var receiverId: Option<Value>
    var receiverQualifier: Option<Value>
    var transactionNo: Option<Value>
    var ediVersion: Option<string>
    var dateFormat: Option<string>
    var documentType: Option<Value>

    constructor (base: EdiBase)
      requires base.language == X12
      ensures this.base == base
      ensures senderId == None && senderQualifier == None && receiverId == None
      ensures receiverQualifier == None && transactionNo == None
      ensures ediVersion == None && dateFormat == None && documentType == None
    {
      this.base := base;
      senderId := None;
      senderQualifier := None;
      receiverId := None;
      receiverQualifier := None;
      transactionNo := None;
      ediVersion := None;
      dateFormat := None;
      documentType := None;
    }

    /**
     * `EdiX12(element, subelement, segment)`: the base construction for X12,
     * which succeeds exactly when no separator is given.
     */
    static method Create(elementSeparator: string, subelementSeparator: string, segmentSeparator: string,
                         strptime: DateConverter)
      returns (r: Result<EdiX12, InitError>)
      ensures r.Failure? <==> elementSeparator != "" || subelementSeparator != "" || segmentSeparator != ""
      ensures r.Failure? ==> r.error == AttributeError
      ensures r.Success? ==>
                && fresh(r.value) && fresh(r.value.base)
                && r.value.base.language == X12 && r.value.base.strptime == strptime
                && r.value.base.Seps() == DefaultSeparators(X12)
                && r.value.base.recordStartSegment == Codes(["BFR"])
                && r.value.base.dispatchMap == DispatchMapFor(X12)
                && r.value.base.extractionErrors == []
                && r.value.dateFormat == None
    {
      var b := EdiBase.Create("X12", elementSeparator, subelementSeparator, segmentSeparator, strptime);
      match b {
        case Failure(e) =>
          r := Failure(e);
        case Success(p) =>
          var x := new EdiX12(p);
          r := Success(x);
      }
    }

    /** `universal_element_extract(segment, i, ...)` for an int position. */
    method ExtractElement(segment: string, i: int, opts: DateOptions) returns (v: Value)
      modifies base`extractionErrors
      ensures v == base.Element(segment, i, opts)
      ensures base.extractionErrors == old(base.extractionErrors) + FailuresIn(v)
    {
      var r := base.UniversalElementExtract(segment, Single(i), opts);
      v := r.extracted.value;
    }

    /** `universal_element_extract(segment, [...], ...)` for a list of positions. */
    method ExtractElements(segment: string, ps: seq<Pos>, opts: DateOptions) returns (vs: seq<Value>)
      modifies base`extractionErrors
      ensures vs == base.Elements(segment, ps, opts)
      ensures base.extractionErrors == old(base.extractionErrors) + FailuresOf(vs)
    {
      var r := base.UniversalElementExtract(segment, List(ps), opts);
      vs := r.extracted.values;
    }

    /** handle_envelope (ISA): the sender, the receiver and the control number. */
    method HandleEnvelope(segment: string)
      modifies this, base`extractionErrors
      ensures senderId == Some(base.Element(segment, 6, NoDate))
      ensures senderQualifier == Some(base.Element(segment, 5, NoDate))
      ensures receiverId == Some(base.Element(segment, 8, NoDate))
      ensures receiverQualifier == Some(base.Element(segment, 7, NoDate))
      ensures transactionNo == Some(base.Element(segment, 13, NoDate))
      ensures base.extractionErrors
              == old(base.extractionErrors) + FailuresIn(senderId.value) + FailuresIn(senderQualifier.value)
                 + FailuresIn(receiverId.value) + FailuresIn(receiverQualifier.value) + FailuresIn(transactionNo.value)
      ensures ediVersion == old(ediVersion) && dateFormat == old(dateFormat)
      ensures documentType == old(documentType)
    {
      var v := ExtractElement(segment, 6, NoDate);
      senderId := Some(v);
      v := ExtractElement(segment, 5, NoDate);
      senderQualifier := Some(v);
      v := ExtractElement(segment, 8, NoDate);
      receiverId := Some(v);
      v := ExtractElement(segment, 7, NoDate);
      receiverQualifier := Some(v);
      v := ExtractElement(segment, 13, NoDate);
      transactionNo := Some(v);
    }

    /**
     * handle_inner (GS): the version token of element 8 chooses the date
     * format, and element 4 converted with it is the issue date of the
     * inner message. Element 8 must be present (slicing a failure raises).
     */
    method HandleInner(segment: string, state: TraversalState)
      requires 8 <= Count(segment, base.elementSeparator)
      modifies this`ediVersion, this`dateFormat, state`documentIssueDate, base`extractionErrors
      ensures 8 < |Split(segment, base.elementSeparator)|
      ensures var version := VersionToken(Split(segment, base.elementSeparator)[8]);
              && ediVersion == Some(version)
              && dateFormat == Some(DateFormatFor(version))
      ensures dateFormat.Some?
      ensures var issued := base.Element(segment, 4, AsDate(dateFormat.value));
              && state.documentIssueDate == Some(issued)
              && base.extractionErrors == old(base.extractionErrors) + FailuresIn(issued)
    {
      SingleInRange(segment, base.Seps(), 8, NoDate, base.strptime);
      var v := ExtractElement(segment, 8, NoDate);
      ediVersion := Some(VersionToken(v.text));
      dateFormat := Some(DateFormatFor(ediVersion.value));
      v := ExtractElement(segment, 4, AsDate(dateFormat.value));
      state.documentIssueDate := Some(v);
    }

    /**
     * handle_loop (ST): element 1 is the document type, stored first; its
     * start segment becomes record_start_segment, and a type missing from
     * START_SEGMENTS raises KeyError. The dispatch map is not rebuilt.
     */
    method HandleLoop(segment: string) returns (outcome: Outcome<LoopError>)
      modifies this`documentType, base`recordStartSegment, base`extractionErrors
      ensures var t := base.Element(segment, 1, NoDate);
              && documentType == Some(t)
              && base.extractionErrors == old(base.extractionErrors) + FailuresIn(t)
              && (outcome.Pass? <==> t.Text? && t.text in StartSegments)
              && (outcome.Pass? ==> base.recordStartSegment == Code(StartSegments[t.text]))
              && (outcome.Fail? ==> outcome.error == KeyError(t)
                                    && base.recordStartSegment == old(base.recordStartSegment))
    {
      var t := ExtractElement(segment, 1, NoDate);
      documentType := Some(t);
      if t.Text? && t.text in StartSegments {
        base.recordStartSegment := Code(StartSegments[t.text]);
        outcome := Pass;
      } else {
        outcome := Fail(KeyError(t));
      }
    }

    /**
     * handle_start: seals the open document (the same object) into the
     * list, then opens a new document numbered from the start segment's
     * record column, dated from the inner message and with horizon dates
     * from elements 6 and 7 converted leniently. Needs a prior handle_inner.
     */
    method HandleStart(segment: string, state: TraversalState)
      requires dateFormat.Some? && state.documentIssueDate.Some?
      modifies state`ediClass, state`ediClassList, base`extractionErrors
      ensures state.ediClassList
              == old(state.ediClassList) + (if old(state.ediClass) != null then [old(state.ediClass)] else [])
      ensures var recordNo := base.Element(segment, RecordNoIndex(base.recordStartSegment), NoDate);
              var horizon := base.Elements(segment, [Elem(6), Elem(7)], AsDate(dateFormat.value));
              && state.ediClass != null && fresh(state.ediClass)
              && state.ediClass.refNo == recordNo && state.ediClass.partList == []
              && state.ediClass.documentIssueDate == state.documentIssueDate
              && state.ediClass.horizonStartDate == Some(horizon[0])
              && state.ediClass.horizonEndDate == Some(horizon[1])
              && base.extractionErrors == old(base.extractionErrors) + FailuresIn(recordNo) + FailuresOf(horizon)
    {
      var recordNo := ExtractElement(segment, RecordNoIndex(base.recordStartSegment), NoDate);
      if state.ediClass != null {
        state.ediClassList := state.ediClassList + [state.ediClass];
        state.ediClass := null;
      }
      var doc := new EdiDocument(recordNo);
      doc.documentIssueDate := state.documentIssueDate;
      var horizon := ExtractElements(segment, [Elem(6), Elem(7)], AsDate(dateFormat.value));
      doc.horizonStartDate := Some(horizon[0]);
      doc.horizonEndDate := Some(horizon[1]);
      state.ediClass := doc;
    }

    /**
     * handle_address (N1): a ship-to qualifier replaces the current address
     * with element 4; whenever the address is truthy and a part is open,
     * the part's plant becomes that address, whatever the qualifier.
     */
    method HandleAddress(segment: string, state: TraversalState)
      modifies state`address, state.partRecord, base`extractionErrors
      ensures var q := base.Element(segment, 1, NoDate);
              var shipTo := base.Element(segment, 4, NoDate);
              && state.address == (if q == Text("ST") then Some(shipTo) else old(state.address))
              && base.extractionErrors
                 == old(base.extractionErrors) + FailuresIn(q) + (if q == Text("ST") then FailuresIn(shipTo) else [])
      ensures var p := state.partRecord;
              p != null ==>
                && p.Get(Plant) == (if Truthy(state.address) then state.address else old(p.Get(Plant)))
                && (forall a :: a != Plant ==> p.Get(a) == old(p.Get(a)))
                && p.Identity() == old(p.Identity())
    {
      var q := ExtractElement(segment, 1, NoDate);
      if q == Text("ST") {
        var shipTo := ExtractElement(segment, 4, NoDate);
        state.address := Some(shipTo);
      }
      if Truthy(state.address) && state.partRecord != null {
        state.partRecord.plant := state.address;
      }
    }

    /**
     * handle_accum (SHP/ATH): element 1 is always extracted; with a part
     * open, the qualifier's columns are written to it.
     */
    method HandleAccum(segment: string, state: TraversalState)
      modifies state.partRecord, base`extractionErrors
      ensures var q := base.Element(segment, 1, NoDate);
              var vs := base.Elements(segment, AccumColumns(q), AsDate(DefaultDateFormatIn));
              var p := state.partRecord;
              && base.extractionErrors
                 == old(base.extractionErrors) + FailuresIn(q) + (if p != null then FailuresOf(vs) else [])
              && (p != null ==>
                    && (forall k :: 0 <= k < |AccumTargets(q)| ==> p.Get(AccumTargets(q)[k]) == Some(vs[k]))
                    && (forall a :: a !in AccumTargets(q) ==> p.Get(a) == old(p.Get(a)))
                    && p.Identity() == old(p.Identity()))
    {
      var q := ExtractElement(segment, 1, NoDate);
      if state.partRecord != null {
        Accumulate(segment, q, state.partRecord);
      }
    }

    /**
     * The writes of handle_accum for an open part: a known qualifier's
     * columns, extracted as dates in the default format (never the inner
     * message's) and leniently, go to the qualifier's attributes; an
     * unknown qualifier changes nothing.
     */
    method Accumulate(segment: string, q: Value, p: EdiPart)
      modifies p, base`extractionErrors
      ensures var vs := base.Elements(segment, AccumColumns(q), AsDate(DefaultDateFormatIn));
              && base.extractionErrors == old(base.extractionErrors) + FailuresOf(vs)
              && (forall k :: 0 <= k < |AccumTargets(q)| ==> p.Get(AccumTargets(q)[k]) == Some(vs[k]))
              && (forall a :: a !in AccumTargets(q) ==> p.Get(a) == old(p.Get(a)))
              && p.Identity() == old(p.Identity())
    {
      if q == Text("01") {
        RecordShipment(segment, p);
      } else if q == Text("02") {
        RecordTotals(segment, [Elem(2), Elem(4), Elem(6)], p);
      } else if q == Text("PQ") {
        RecordTotals(segment, [Elem(3), Elem(5), Elem(2)], p);
      } else {
        assert base.Elements(segment, AccumColumns(q), AsDate(DefaultDateFormatIn)) == [];
      }
    }

    /** The `01` branch: the last received quantity and date, from elements 2 and 4. */
    method RecordShipment(segment: string, p: EdiPart)
      modifies p, base`extractionErrors
      ensures var vs := base.Elements(segment, [Elem(2), Elem(4)], AsDate(DefaultDateFormatIn));
              && base.extractionErrors == old(base.extractionErrors) + FailuresOf(vs)
              && p.Get(LastReceivedShipQuantity) == Some(vs[0])
              && p.Get(LastReceivedShipDate) == Some(vs[1])
              && (forall a :: a !in [LastReceivedShipQuantity, LastReceivedShipDate] ==> p.Get(a) == old(p.Get(a)))
              && p.Identity() == old(p.Identity())
    {
      var vs := ExtractElements(segment, [Elem(2), Elem(4)], AsDate(DefaultDateFormatIn));
      p.Set(LastReceivedShipQuantity, vs[0]);
      p.Set(LastReceivedShipDate, vs[1]);
    }

    /** The `02` and `PQ` branches: the total, its start and its end, from three columns. */
    method RecordTotals(segment: string, columns: seq<Pos>, p: EdiPart)
      requires |columns| == 3
      modifies p, base`extractionErrors
      ensures var vs := base.Elements(segment, columns, AsDate(DefaultDateFormatIn));
              && base.extractionErrors == old(base.extractionErrors) + FailuresOf(vs)
              && p.Get(TotalAccum) == Some(vs[0])
              && p.Get(TotalAccumStartDate) == Some(vs[1])
              && p.Get(TotalAccumEndDate) == Some(vs[2])
              && (forall a :: a !in [TotalAccum, TotalAccumStartDate, TotalAccumEndDate] ==> p.Get(a) == old(p.Get(a)))
              && p.Identity() == old(p.Identity())
    {
      var vs := ExtractElements(segment, columns, AsDate(DefaultDateFormatIn));
      p.Set(TotalAccum, vs[0]);
      p.Set(TotalAccumStartDate, vs[1]);
      p.Set(TotalAccumEndDate, vs[2]);
    }
  }
}
