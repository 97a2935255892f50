/** Citations key by key: from Bedrock's locations (src/ttllm/core/providers/bedrock/converse.py)
    to the dicts of Anthropic's format (src/ttllm/core/adapters/anthropic.py), and from the dicts
    of a request to citations. */
module CitationWire {
  import opened Model
  import opened AnthropicWire
  import opened ConverseStream
  import SE = SseEncoder

  // --- Printed ---

  lemma PrintsCharacters(c: Citation)
    requires c.kind.Char?
    ensures CitationToWire(c)
         == map["type" := JStr("char_location"), "cited_text" := JStr(c.citedText),
                "document_index" := JInt(c.documentIndex.GetOr(0)),
                "document_title" := (if c.documentTitle.Some? then JStr(c.documentTitle.value) else JNull),
                "start_char_index" := JInt(c.start.GetOr(0)), "end_char_index" := JInt(c.end.GetOr(0))]
  {
  }

  lemma PrintsPages(c: Citation)
    requires c.kind.Page?
    ensures CitationToWire(c)
         == map["type" := JStr("page_location"), "cited_text" := JStr(c.citedText),
                "document_index" := JInt(c.documentIndex.GetOr(0)),
                "document_title" := (if c.documentTitle.Some? then JStr(c.documentTitle.value) else JNull),
                "start_page_number" := JInt(c.start.GetOr(0)), "end_page_number" := JInt(c.end.GetOr(0))]
  {
  }

  lemma PrintsChunks(c: Citation)
    requires c.kind.Chunked?
    ensures CitationToWire(c)
         == map["type" := JStr("content_block_location"), "cited_text" := JStr(c.citedText),
                "document_index" := JInt(c.documentIndex.GetOr(0)),
                "document_title" := (if c.documentTitle.Some? then JStr(c.documentTitle.value) else JNull),
                "start_block_index" := JInt(c.start.GetOr(0)), "end_block_index" := JInt(c.end.GetOr(0))]
  {
  }

  lemma PrintsSearchResults(c: Citation)
    requires c.kind.SearchResult?
    ensures CitationToWire(c)
         == map["type" := JStr("search_result_location"), "cited_text" := JStr(c.citedText),
                "search_result_index" := JInt(c.searchResultIndex.GetOr(0)),
                "source" := JStr(c.source.GetOr("")),
                "title" := (if c.title.Some? then JStr(c.title.value) else JNull),
                "start_block_index" := JInt(c.start.GetOr(0)), "end_block_index" := JInt(c.end.GetOr(0))]
  {
  }

  lemma PrintsWeb(c: Citation)
    requires c.kind.Web?
    ensures CitationToWire(c)
         == map["type" := JStr("web_search_result_location"), "cited_text" := JStr(c.citedText),
                "url" := JStr(c.url.GetOr("")),
                "title" := (if c.title.Some? then JStr(c.title.value) else JNull), "encrypted_index" := JStr("")]
  {
  }

  // --- From Bedrock to the client ---

  lemma {:induction false} ConcatJoins(a: seq<string>, b: seq<string>)
    ensures Concat(a + b) == Concat(a) + Concat(b)
    decreases |a|
  {
    if a == [] {
      assert a + b == b;
    } else {
      assert (a + b)[1..] == a[1..] + b;
      ConcatJoins(a[1..], b);
    }
  }

  lemma ConcatOfOne(text: string)
    ensures Concat([text]) == text && Concat([]) == ""
  {
    assert [text][1..] == [];
  }

  /** What a citation of Bedrock's is for the client; a location of a kind that the gateway does not
      know is nothing. */
  lemma LocationIsPrinted(b: BedrockCitation)
    ensures CitationFromBedrock(b).None? <==> b.location.UnknownLocation?
    ensures CitationFromBedrock(b).Some? ==>
              var cited := JStr(Concat(b.sourceContent));
              var title := if b.title.Some? then JStr(b.title.value) else JNull;
              CitationToWire(CitationFromBedrock(b).value)
              == match b.location
                 case DocumentChar(i, start, end) =>
                   map["type" := JStr("char_location"), "cited_text" := cited,
                       "document_index" := JInt(i.GetOr(0)), "document_title" := title,
                       "start_char_index" := JInt(start.GetOr(0)), "end_char_index" := JInt(end.GetOr(0))]
                 case DocumentPage(i, start, end) =>
                   map["type" := JStr("page_location"), "cited_text" := cited,
                       "document_index" := JInt(i.GetOr(0)), "document_title" := title,
                       "start_page_number" := JInt(start.GetOr(0)), "end_page_number" := JInt(end.GetOr(0))]
                 case DocumentChunk(i, start, end) =>
                   map["type" := JStr("content_block_location"), "cited_text" := cited,
                       "document_index" := JInt(i.GetOr(0)), "document_title" := title,
                       "start_block_index" := JInt(start.GetOr(0)), "end_block_index" := JInt(end.GetOr(0))]
                 case SearchResultLocation(i, start, end) =>
                   map["type" := JStr("search_result_location"), "cited_text" := cited,
                       "search_result_index" := JInt(i.GetOr(0)), "source" := JStr(b.source.GetOr("")),
                       "title" := title,
                       "start_block_index" := JInt(start.GetOr(0)), "end_block_index" := JInt(end.GetOr(0))]
                 case WebLocation(url) =>
                   map["type" := JStr("web_search_result_location"), "cited_text" := cited,
                       "url" := JStr(url.GetOr("")), "title" := title, "encrypted_index" := JStr("")]
                 case UnknownLocation => map[]
  {
    var c := CitationFromBedrock(b);
    match b.location {
      case DocumentChar(_, _, _) => PrintsCharacters(c.value);
      case DocumentPage(_, _, _) => PrintsPages(c.value);
      case DocumentChunk(_, _, _) => PrintsChunks(c.value);
      case SearchResultLocation(_, _, _) => PrintsSearchResults(c.value);
      case WebLocation(_) => PrintsWeb(c.value);
      case UnknownLocation =>
    }
  }

  /** A citation delta that Bedrock streams is one citations_delta for the same block, printed so. */
  lemma CitationReachesClient(s: Loop, index: int, b: BedrockCitation)
    requires index in s.open && !b.location.UnknownLocation?
    ensures CitationFromBedrock(b).Some?
    ensures var emitted := Handle(s, ContentBlockDelta(Some(index), DCitation(b))).emitted;
            && |emitted| == 1 && emitted[0].chunk.IsDelta()
            && SE.DeltaOf(emitted[0].chunk)
               == SE.BlockDeltaE(index, SE.CitationsDeltaW(CitationToWire(CitationFromBedrock(b).value)))
  {
    LocationIsPrinted(b);
  }

  // --- Read from a request ---

  /** A key holds an integer, or nothing. */
  function IntAt(w: Dict, key: string): Option<int> {
    if key in w && w[key].JInt? then Some(w[key].n) else None
  }

  function StringAt(w: Dict, key: string): Option<string> {
    if key in w && w[key].JStr? then Some(w[key].s) else None
  }

  predicate HoldsInt(w: Dict, key: string) {
    key in w && !w[key].JNull? ==> w[key].JInt?
  }

  predicate HoldsString(w: Dict, key: string) {
    key in w && !w[key].JNull? ==> w[key].JStr?
  }

  /** The values of a citation dict have the types that a citation takes. */
  predicate HasFields(w: Dict, startKey: string, endKey: string) {
    && ("cited_text" in w ==> w["cited_text"].JStr?)
    && HoldsInt(w, "document_index") && HoldsString(w, "document_title") && HoldsInt(w, "search_result_index")
    && HoldsInt(w, startKey) && HoldsInt(w, endKey)
    && HoldsString(w, "source") && HoldsString(w, "title") && HoldsString(w, "url")
  }

  /** The keys of start and end for each type of location. */
  function EndKeys(locationType: string): Option<(CitationKind, string, string)> {
    if locationType == "char_location" then Some((Char, "start_char_index", "end_char_index"))
    else if locationType == "page_location" then Some((Page, "start_page_number", "end_page_number"))
    else if locationType == "content_block_location" then Some((Chunked, "start_block_index", "end_block_index"))
    else if locationType == "search_result_location" then Some((SearchResult, "start_block_index", "end_block_index"))
    else if locationType == "web_search_result_location" then Some((Web, "", ""))
    else None
  }

  lemma ValuesAreRead(w: Dict, key: string)
    ensures GetInt(w, key).Ok? <==> HoldsInt(w, key)
    ensures HoldsInt(w, key) ==> GetInt(w, key) == Ok(IntAt(w, key))
    ensures GetString(w, key).Ok? <==> HoldsString(w, key)
    ensures HoldsString(w, key) ==> GetString(w, key) == Ok(StringAt(w, key))
  {
  }

  function FieldsOf(w: Dict, kind: CitationKind, startKey: string, endKey: string): Citation {
    Citation(kind, StringAt(w, "cited_text").GetOr(""), IntAt(w, "document_index"), StringAt(w, "document_title"),
             IntAt(w, "search_result_index"), IntAt(w, startKey), IntAt(w, endKey),
             StringAt(w, "source"), StringAt(w, "title"), StringAt(w, "url"))
  }

  lemma FieldsAreRead(w: Dict, kind: CitationKind)
    requires "type" in w && w["type"].JStr? && WireKind(w["type"].s) == Some(kind)
    ensures CitationFromWire(w).Ok? <==> HasFields(w, IndexFields(kind).0, IndexFields(kind).1)
    ensures CitationFromWire(w).Ok? ==>
              CitationFromWire(w) == Ok(Some(FieldsOf(w, kind, IndexFields(kind).0, IndexFields(kind).1)))
  {
    ValuesAreRead(w, "document_index");
    ValuesAreRead(w, "document_title");
    ValuesAreRead(w, "search_result_index");
    ValuesAreRead(w, IndexFields(kind).0);
    ValuesAreRead(w, IndexFields(kind).1);
    ValuesAreRead(w, "source");
    ValuesAreRead(w, "title");
    ValuesAreRead(w, "url");
  }

  lemma TypesAreKnown(name: string)
    ensures WireKind(name)
         == match EndKeys(name) case None => None case Some((kind, startKey, endKey)) => Some(kind)
    ensures EndKeys(name).Some? ==>
              IndexFields(EndKeys(name).value.0) == (EndKeys(name).value.1, EndKeys(name).value.2)
  {
  }

  /** A dict of a known type is read key by key, and rejected if a value has another type than a
      citation takes; a dict of any other type is no citation, and no error. */
  lemma CitationIsRead(w: Dict)
    ensures var known := if StringAt(w, "type").Some? then EndKeys(StringAt(w, "type").value) else None;
            match known
            case None => CitationFromWire(w) == Ok(None)
            case Some((kind, startKey, endKey)) =>
              && (CitationFromWire(w).Ok? <==> HasFields(w, startKey, endKey))
              && (HasFields(w, startKey, endKey) ==>
                    CitationFromWire(w) == Ok(Some(FieldsOf(w, kind, startKey, endKey))))
  {
    if StringAt(w, "type").Some? {
      TypesAreKnown(w["type"].s);
      if EndKeys(w["type"].s).Some? {
        FieldsAreRead(w, EndKeys(w["type"].s).value.0);
      }
    }
  }

  /** A list of them is read in order, without the ones of other types. */
  lemma {:induction false} CitationsAreRead(a: seq<Dict>, b: seq<Dict>)
    ensures CitationsFromWire(a + b).Ok? <==> CitationsFromWire(a).Ok? && CitationsFromWire(b).Ok?
    ensures CitationsFromWire(a + b).Ok? ==>
              CitationsFromWire(a + b).value == CitationsFromWire(a).value + CitationsFromWire(b).value
    decreases |a|
  {
    if a == [] {
      assert a + b == b;
    } else {
      assert (a + b)[0] == a[0] && (a + b)[1..] == a[1..] + b;
      CitationsAreRead(a[1..], b);
    }
  }

  lemma CitationOfOne(w: Dict)
    ensures CitationsFromWire([]) == Ok([])
    ensures CitationsFromWire([w]).Ok? <==> CitationFromWire(w).Ok?
    ensures CitationFromWire(w).Ok? ==>
              CitationsFromWire([w]).value
              == match CitationFromWire(w).value case None => [] case Some(c) => [c]
  {
    assert [w][1..] == [];
  }
}
