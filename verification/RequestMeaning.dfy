/** The small conversions of a Bedrock request, read off the media types, texts and marks themselves:
    the part converters of src/ttllm/core/providers/bedrock/converse.py. */
module RequestMeaning {
  import opened Model
  import opened DocumentNames
  import opened BedrockRequest

  // --- Media types ---

  predicate Without(s: string, c: char) {
    forall i :: 0 <= i < |s| ==> s[i] != c
  }

  lemma {:induction false} UntilFound(a: string, stop: char, rest: string)
    requires Without(a, stop)
    ensures Until(a + [stop] + rest, stop) == a && After(a + [stop] + rest, stop) == rest
    decreases |a|
  {
    var s := a + [stop] + rest;
    if a == "" {
      assert s[1..] == rest;
    } else {
      assert s[1..] == a[1..] + [stop] + rest && s[0] == a[0] != stop;
      UntilFound(a[1..], stop, rest);
    }
  }

  lemma {:induction false} UntilEnd(s: string, stop: char)
    requires Without(s, stop)
    ensures Until(s, stop) == s && After(s, stop) == ""
  {
    if s != "" {
      UntilEnd(s[1..], stop);
    }
  }

  /** The format for the name of an image type. */
  predicate IsImageFormat(name: string, format: Option<string>) {
    match format
    case None => name !in {"png", "jpeg", "jpg", "gif", "webp"}
    case Some(f) => if name == "jpg" then f == "jpeg" else f == name && f in {"png", "jpeg", "gif", "webp"}
  }

  /** An image's format is the second part of its media type, or all of it if there are no parts, in
      lower case. */
  lemma ImageTypesAreRead(main: string, sub: string, rest: string, strings: Strings)
    requires Without(main, '/') && Without(sub, '/')
    ensures IsImageFormat(strings.lower(main), ImageFormat(main, strings))
    ensures IsImageFormat(strings.lower(sub), ImageFormat(main + "/" + sub, strings))
    ensures IsImageFormat(strings.lower(sub), ImageFormat(main + "/" + sub + "/" + rest, strings))
  {
    assert '/' !in main;
    var two := main + "/" + sub;
    assert two[|main|] == '/';
    UntilFound(main, '/', sub);
    UntilEnd(sub, '/');
    var three := main + "/" + sub + "/" + rest;
    assert three[|main|] == '/' && three == main + "/" + (sub + "/" + rest);
    UntilFound(main, '/', sub + "/" + rest);
    UntilFound(sub, '/', rest);
  }

  /** The formats of documents, by media type. */
  function FormatNamed(mediaType: string): Option<string> {
    match mediaType
    case "application/pdf" => Some("pdf")
    case "text/plain" => Some("txt")
    case "text/markdown" => Some("md")
    case "text/x-markdown" => Some("md")
    case "text/csv" => Some("csv")
    case "text/html" => Some("html")
    case "application/msword" => Some("doc")
    case "application/vnd.openxmlformats-officedocument.wordprocessingml.document" => Some("docx")
    case "application/vnd.ms-excel" => Some("xls")
    case "application/vnd.openxmlformats-officedocument.spreadsheetml.sheet" => Some("xlsx")
    case _ => None
  }

  lemma FormatsAreNamed(name: string)
    ensures FormatNamed(name) == if name in DOCUMENT_FORMATS then Some(DOCUMENT_FORMATS[name]) else None
  {
  }

  /** A document's media type counts without its parameters, stripped and in lower case. */
  lemma DocumentTypesAreRead(mediaType: string, parameters: string, strings: Strings)
    requires Without(mediaType, ';')
    ensures DocumentFormat(mediaType, strings) == FormatNamed(strings.lower(strings.strip(mediaType)))
    ensures DocumentFormat(mediaType + ";" + parameters, strings)
         == FormatNamed(strings.lower(strings.strip(mediaType)))
  {
    UntilEnd(mediaType, ';');
    UntilFound(mediaType, ';', parameters);
    FormatsAreNamed(strings.lower(strings.strip(mediaType)));
  }

  // --- Documents ---

  /** Pieces are put together as paragraphs. */
  lemma {:induction false} ParagraphsJoin(a: seq<string>, b: seq<string>)
    ensures Paragraphs([]) == ""
    ensures forall s :: Paragraphs([s]) == s
    ensures a != [] && b != [] ==> Paragraphs(a + b) == Paragraphs(a) + "\n\n" + Paragraphs(b)
    decreases |a|
  {
    if a != [] && b != [] {
      assert (a + b)[0] == a[0] && (a + b)[1..] == a[1..] + b;
      if |a| == 1 {
        assert a[1..] + b == b;
      } else {
        ParagraphsJoin(a[1..], b);
        assert Paragraphs(a) == a[0] + "\n\n" + Paragraphs(a[1..]);
        assert Paragraphs(a + b) == a[0] + "\n\n" + (Paragraphs(a[1..]) + "\n\n" + Paragraphs(b));
      }
    }
  }

  lemma {:induction false} PiecesAreTexts(items: seq<DocumentItem>)
    ensures Pieces(items).Some? <==> forall i :: 0 <= i < |items| ==> items[i].TextItem?
    ensures Pieces(items).Some? ==>
              |Pieces(items).value| == |items|
              && forall i :: 0 <= i < |items| ==> Pieces(items).value[i] == items[i].text.text
  {
    if items != [] {
      PiecesAreTexts(items[1..]);
      assert forall i :: 1 <= i < |items| ==> items[i] == items[1..][i - 1];
    }
  }

  /** Text is sent as text only with citations enabled, and as bytes otherwise; encoded data is always
      sent as bytes. A document of pieces must be made of texts alone, and encoded data of a
      type that Bedrock takes. */
  lemma SourcesAreSent(p: DocumentPart, strings: Strings)
    ensures match p.sourceKind
            case PlainText =>
              var text := match p.text case Some(t) => t case None => "";
              SourceOf(p, strings) == Some(("txt", if p.citations then CitableText(text) else TextBytes(text)))
            case Content =>
              var items := match p.content case Some(list) => list case None => [];
              if exists i :: 0 <= i < |items| && items[i].ImageItem? then SourceOf(p, strings).None?
              else
                && SourceOf(p, strings).Some? && SourceOf(p, strings).value.0 == "txt"
                && exists pieces: seq<string> ::
                     && |pieces| == |items| && (forall i :: 0 <= i < |items| ==> pieces[i] == items[i].text.text)
                     && SourceOf(p, strings).value.1
                        == if p.citations then CitablePieces(pieces) else TextBytes(Paragraphs(pieces))
            case Base64 =>
              match DocumentFormat(p.mediaType, strings)
              case None => SourceOf(p, strings).None?
              case Some(format) => SourceOf(p, strings) == Some((format, DecodedBytes(p.data)))
  {
    if p.sourceKind.Content? {
      PiecesAreTexts(p.content.GetOr([]));
    }
  }

  /** An empty context is not sent, and any other one is as it is. */
  lemma ContextIsSent(p: DocumentPart, used: set<string>, strings: Strings)
    requires DocumentWith(p, used, strings).Ok?
    ensures var sent := DocumentWith(p, used, strings).value.context;
            match p.context
            case None => sent == None
            case Some(context) => sent == if context == "" then None else Some(context)
  {
  }

  // --- Cache points ---

  /** Every kind of part can ask for a cache point, and gets it right after its block. */
  lemma CachePointsAreSent(part: Part, used: set<string>, strings: Strings)
    requires PartWith(part, used, strings).Ok? && PartWith(part, used, strings).value.Some?
    ensures var asked := match part
                         case Text(t) => t.cacheControl
                         case Image(i) => i.cacheControl
                         case Document(d) => d.cacheControl
                         case Search(s) => s.cacheControl
                         case ToolCall(_, _, _, cacheControl) => cacheControl
                         case ToolResult(_, _, _, cacheControl) => cacheControl
                         case Thinking(_, _, cacheControl) => cacheControl
                         case RedactedThinking(_, cacheControl) => cacheControl
                         case ServerToolCall(_, _, _, _, _, cacheControl) => cacheControl
                         case ServerToolResult(_, _, _, _, cacheControl) => cacheControl;
            var block := PartWith(part, used, strings).value;
            WithCachePoint(block, part) == if asked then [block.value, CachePoint] else [block.value]
  {
  }

  /** A redacted thought is left out, mark and all. */
  lemma RedactedIsLeftOut(data: string, cacheControl: bool, used: set<string>, strings: Strings)
    ensures PartWith(RedactedThinking(data, cacheControl), used, strings) == Ok(None)
    ensures WithCachePoint(None, RedactedThinking(data, cacheControl)) == []
  {
  }

  // --- Errors ---

  predicate IsServerTool(part: Part) {
    part.ServerToolCall? || part.ServerToolResult?
  }

  lemma {:induction false} ItemErrors(items: seq<ResultItem>, used: set<string>, strings: Strings)
    ensures InnersWith(items, used, strings).Raised? ==> InnersWith(items, used, strings).error == UnsupportedContent
  {
    if items != [] {
      ItemErrors(items[1..], UsedAfter(TitleOfItem(items[0]), used, strings), strings);
    }
  }

  lemma PartErrors(part: Part, used: set<string>, strings: Strings)
    ensures PartWith(part, used, strings).Raised? ==>
              PartWith(part, used, strings).error == if IsServerTool(part) then ServerToolUsed else UnsupportedContent
  {
    if part.ToolResult? {
      ItemErrors(part.content, used, strings);
    }
  }

  /** The first part that is not supported decides the error: a server tool, or content that Bedrock
      does not take. */
  lemma {:induction false} FirstUnsupportedDecides(parts: seq<Part>, used: set<string>, strings: Strings, i: nat)
    requires i < |parts| && !PartIsSupported(parts[i], strings)
    requires forall j :: 0 <= j < i ==> PartIsSupported(parts[j], strings)
    ensures MessageWith(parts, used, strings)
         == Raised(if IsServerTool(parts[i]) then ServerToolUsed else UnsupportedContent)
    decreases |parts|
  {
    PartConvertsWhenSupported(parts[0], used, strings);
    PartErrors(parts[0], used, strings);
    if i > 0 {
      assert forall j :: 0 <= j < i - 1 ==> parts[1..][j] == parts[j + 1];
      FirstUnsupportedDecides(parts[1..], UsedAfter(TitlesOfPart(parts[0]), used, strings), strings, i - 1);
    }
  }
}
