/**
  * Gmail result handling (ReadEmail.py): paginated message search with a hard cap,
  * the recursive walk over a message's MIME part tree, header extraction and the
  * character-cleaning map.
  *
  * The Gmail service is replaced by data: the listing is a finite sequence of pages
  * (the i-th `messages().list` call is answered by the i-th page) and a message is a
  * `Payload` holding a header list and a tree of `Part`s. Base64url decoding of part
  * data is an abstract function passed in by the caller.
  */
module ReadEmail {
  import opened Wrappers
  import opened Strings

  // ---------------------------------------------------------------------------
  // search_messages
  // ---------------------------------------------------------------------------

  /** One entry of a listing: `{"id": ..., "threadId": ...}`; only the id is used later. */
  datatype MessageRef = MessageRef(id: string, threadId: string)

  /** One response of `messages().list`: its `messages` (empty when the key is absent)
      and its optional `nextPageToken`. */
  datatype ListPage = ListPage(messages: seq<MessageRef>, nextPageToken: Option<string>)

  /** The arguments of one `messages().list` call (userId is always 'me'). */
  datatype ListRequest = ListRequest(query: string, pageToken: Option<string>, maxResults: int)

  /** The listed messages of the pages, in page order. */
  function Flatten(pages: seq<ListPage>): (r: seq<MessageRef>)
    ensures pages == [] ==> r == []
  {
    if pages == [] then [] else Flatten(pages[..|pages| - 1]) + pages[|pages| - 1].messages
  }

  lemma FlattenSnoc(pages: seq<ListPage>, k: nat)
    requires k < |pages|
    ensures Flatten(pages[..k + 1]) == Flatten(pages[..k]) + pages[k].messages
  {
    assert pages[..k + 1][..k] == pages[..k];
  }

  /** The last page search_messages fetches, given that `pages[..i + 1]` are fetched: the
      first from `i` on that has no token or brings the total to the cap. */
  function LastFetched(pages: seq<ListPage>, maxResults: nat, i: nat): (k: nat)
    requires i < |pages| && pages[|pages| - 1].nextPageToken == None
    ensures i <= k < |pages|
    decreases |pages| - i
  {
    if pages[i].nextPageToken.None? || |Flatten(pages[..i + 1])| >= maxResults then i
    else LastFetched(pages, maxResults, i + 1)
  }

  /** What search_messages returns: the ids of the fetched pages, cut to the cap. */
  function SearchResult(pages: seq<ListPage>, maxResults: nat): (r: seq<MessageRef>)
    requires |pages| > 0 && pages[|pages| - 1].nextPageToken == None
  {
    Take(Flatten(pages[..LastFetched(pages, maxResults, 0) + 1]), maxResults)
  }

  /**
    * search_messages: asks for the first page with `maxResults`, then follows
    * `nextPageToken` while the last page had one and fewer than `maxResults` ids are
    * collected, each time asking for exactly the number still missing; the result is
    * cut to `maxResults`.
    *
    * `requests` are the list calls made, in order; `pages[i]` answers `requests[i]`.
    * The requirement on `pages` says the listing is finite: its last page carries no
    * continuation token.
    */
  method SearchMessages(pages: seq<ListPage>, query: string, maxResults: nat)
    returns (messages: seq<MessageRef>, requests: seq<ListRequest>)
    requires |pages| > 0 && pages[|pages| - 1].nextPageToken == None
    ensures |messages| <= maxResults
    ensures messages == SearchResult(pages, maxResults)
    ensures 1 <= |requests| <= |pages|
    // the result is a prefix of the fetched pages' ids in fetch order, cut at the cap
    ensures messages == Take(Flatten(pages[..|requests|]), maxResults)
    // the first call asks for the whole cap, every follow-up for what is still missing
    ensures requests[0] == ListRequest(query, None, maxResults)
    ensures forall k :: 1 <= k < |requests| ==>
              requests[k] == ListRequest(query, pages[k - 1].nextPageToken,
                                         maxResults - |Flatten(pages[..k])|)
    // a follow-up is made only after a page with a token while under the cap ...
    ensures forall k :: 0 <= k < |requests| - 1 ==>
              pages[k].nextPageToken.Some? && |Flatten(pages[..k + 1])| < maxResults
    // ... and fetching stops at the first page without a token or once the cap is met
    ensures pages[|requests| - 1].nextPageToken.None? ||
            |Flatten(pages[..|requests|])| >= maxResults
  {
    var result := pages[0];
    requests := [ListRequest(query, None, maxResults)];
    messages := [];
    messages := messages + result.messages;
    FlattenSnoc(pages, 0);
    var i := 0;
    while result.nextPageToken.Some? && |messages| < maxResults
      invariant 0 <= i < |pages|
      invariant LastFetched(pages, maxResults, i) == LastFetched(pages, maxResults, 0)
      invariant result == pages[i]
      invariant messages == Flatten(pages[..i + 1])
      invariant RequestsMade(requests, pages, query, maxResults, i)
      decreases |pages| - i
    {
      var pageToken := result.nextPageToken.value;
      RequestsStep(requests, pages, query, maxResults, i);
      requests := requests + [ListRequest(query, Some(pageToken), maxResults - |messages|)];
      i := i + 1;
      result := pages[i];
      FlattenSnoc(pages, i);
      messages := messages + result.messages;
    }
    messages := Take(messages, maxResults);
  }

  /** The list calls made once `pages[..i + 1]` are fetched: the first asks for the whole
      cap, each follow-up for what is still missing, and each follows a page with a token
      that left the total under the cap. */
  ghost predicate RequestsMade(requests: seq<ListRequest>, pages: seq<ListPage>, query: string, maxResults: nat, i: nat)
  {
    i < |pages| && |requests| == i + 1 &&
    requests[0] == ListRequest(query, None, maxResults) &&
    (forall k :: 1 <= k < |requests| ==>
       requests[k] == ListRequest(query, pages[k - 1].nextPageToken, maxResults - |Flatten(pages[..k])|)) &&
    (forall k :: 0 <= k < i ==> pages[k].nextPageToken.Some? && |Flatten(pages[..k + 1])| < maxResults)
  }

  /** Following the token of page `i` while under the cap keeps RequestsMade. */
  lemma RequestsStep(requests: seq<ListRequest>, pages: seq<ListPage>, query: string, maxResults: nat, i: nat)
    requires RequestsMade(requests, pages, query, maxResults, i) && i + 1 < |pages|
    requires pages[i].nextPageToken.Some? && |Flatten(pages[..i + 1])| < maxResults
    ensures RequestsMade(requests + [ListRequest(query, pages[i].nextPageToken, maxResults - |Flatten(pages[..i + 1])|)],
                         pages, query, maxResults, i + 1)
  {
  }

  // ---------------------------------------------------------------------------
  // clean
  // ---------------------------------------------------------------------------

  /** clean: every alphanumeric character kept, every other one replaced by '_'. */
  function Clean(text: string): (r: string)
    ensures |r| == |text|
    ensures forall i :: 0 <= i < |text| ==> r[i] == if IsAlnum(text[i]) then text[i] else '_'
  {
    if text == [] then [] else [if IsAlnum(text[0]) then text[0] else '_'] + Clean(text[1..])
  }

  /** A cleaned name consists of alphanumerics and underscores only, and cleaning it again
      changes nothing. */
  lemma CleanIdempotent(text: string)
    ensures forall i :: 0 <= i < |Clean(text)| ==> IsAlnum(Clean(text)[i]) || Clean(text)[i] == '_'
    ensures Clean(Clean(text)) == Clean(text)
  {
  }

  // ---------------------------------------------------------------------------
  // parse_parts
  // ---------------------------------------------------------------------------

  datatype Header = Header(name: string, value: string)

  /** A part of a `full` Gmail message: `mimeType`, `body.data` (empty when absent),
      its `headers` and its nested `parts` (empty when absent). */
  datatype Part = Part(mimeType: string, data: string, headers: seq<Header>, parts: seq<Part>)

  /** A value of the result dictionary: a string, or the list under "attachments". */
  datatype Value = Text(text: string) | Markers(items: seq<string>)

  const AttachmentMarker := "Attachment found but not saved."

  /** The part whose data becomes the body: `mimeType == "text/plain" and data`. */
  predicate IsTextWithData(p: Part) {
    p.mimeType == "text/plain" && p.data != ""
  }

  /** The header test of parse_parts: exact (case-sensitive) name, substring in the value. */
  predicate IsAttachmentHeader(h: Header) {
    h.name == "Content-Disposition" && Contains(h.value, "attachment")
  }

  /** The number of attachment headers in a header list. */
  function AttachmentHeaders(headers: seq<Header>): (n: nat)
    ensures n <= |headers|
  {
    if headers == [] then 0
    else AttachmentHeaders(headers[..|headers| - 1])
         + (if IsAttachmentHeader(headers[|headers| - 1]) then 1 else 0)
  }

  /** The markers one part appends itself: none for a body part, one per attachment header otherwise. */
  function OwnMarkers(p: Part): nat {
    if IsTextWithData(p) then 0 else AttachmentHeaders(p.headers)
  }

  /**
    * The length of the "attachments" list after a walk over `parts`. A part with nested
    * parts replaces the list by the nested walk's list, dropping what came before it;
    * every part then appends its own markers.
    */
  function AttachmentCount(parts: seq<Part>): nat
    decreases parts
  {
    if parts == [] then 0
    else
      var p := parts[|parts| - 1];
      (if p.parts != [] then AttachmentCount(p.parts) else AttachmentCount(parts[..|parts| - 1]))
      + OwnMarkers(p)
  }

  /**
    * The still-encoded data that ends up as "body": a part's own text wins over what its
    * nested walk found, which wins over what earlier parts left.
    */
  function LastBody(parts: seq<Part>): Option<string>
    decreases parts
  {
    if parts == [] then None
    else
      var p := parts[|parts| - 1];
      if IsTextWithData(p) then Some(p.data)
      else
        var nested := if p.parts != [] then LastBody(p.parts) else None;
        if nested.Some? then nested else LastBody(parts[..|parts| - 1])
  }

  /** The dictionary holding `count` markers and, when present, the decoded body. */
  function PartsData(count: nat, body: Option<string>): (m: map<string, Value>)
    ensures "attachments" in m && m["attachments"] == Markers(seq(count, _ => AttachmentMarker))
    ensures "body" in m <==> body.Some?
    ensures body.Some? ==> m["body"] == Text(body.value)
    ensures m.Keys <= {"attachments", "body"}
  {
    var m := map["attachments" := Markers(seq(count, _ => AttachmentMarker))];
    if body.Some? then m["body" := Text(body.value)] else m
  }

  function Decoded(data: Option<string>, decode: string -> string): Option<string> {
    match data
    case Some(d) => Some(decode(d))
    case None => None
  }

  /** The dictionary parse_parts returns for `parts`. */
  function PartsResult(parts: seq<Part>, decode: string -> string): map<string, Value> {
    PartsData(AttachmentCount(parts), Decoded(LastBody(parts), decode))
  }

  lemma AttachmentCountSnoc(parts: seq<Part>, i: nat)
    requires i < |parts|
    ensures AttachmentCount(parts[..i + 1]) ==
            (if parts[i].parts != [] then AttachmentCount(parts[i].parts) else AttachmentCount(parts[..i]))
            + OwnMarkers(parts[i])
    ensures LastBody(parts[..i + 1]) ==
            if IsTextWithData(parts[i]) then Some(parts[i].data)
            else if parts[i].parts != [] && LastBody(parts[i].parts).Some? then LastBody(parts[i].parts)
            else LastBody(parts[..i])
  {
    assert parts[..i + 1][..i] == parts[..i];
  }

  /** The result after one more part, by the three cases of parse_parts' loop body. */
  lemma PartsResultSnoc(parts: seq<Part>, i: nat, decode: string -> string)
    requires i < |parts|
    ensures PartsResult(parts[..i + 1], decode) ==
            PartsData((if parts[i].parts != [] then AttachmentCount(parts[i].parts) else AttachmentCount(parts[..i]))
                      + OwnMarkers(parts[i]),
                      if IsTextWithData(parts[i]) then Some(decode(parts[i].data))
                      else if parts[i].parts != [] && LastBody(parts[i].parts).Some?
                      then Decoded(LastBody(parts[i].parts), decode)
                      else Decoded(LastBody(parts[..i]), decode))
  {
    AttachmentCountSnoc(parts, i);
  }

  lemma AttachmentHeadersSnoc(headers: seq<Header>, k: nat)
    requires k < |headers|
    ensures AttachmentHeaders(headers[..k + 1]) ==
            AttachmentHeaders(headers[..k]) + if IsAttachmentHeader(headers[k]) then 1 else 0
  {
    assert headers[..k + 1][..k] == headers[..k];
  }

  /** `update` with a nested walk's dictionary: its list replaces the list, and its body,
      when it has one, replaces the body. */
  lemma MergeNested(count: nat, body: Option<string>, nested: seq<Part>, decode: string -> string)
    ensures PartsData(count, body) + PartsResult(nested, decode) ==
            PartsData(AttachmentCount(nested),
                      if LastBody(nested).Some? then Decoded(LastBody(nested), decode) else body)
  {
  }

  lemma SetBody(count: nat, body: Option<string>, text: string)
    ensures PartsData(count, body)["body" := Text(text)] == PartsData(count, Some(text))
  {
  }

  /** The inner loop of parse_parts: one marker appended per attachment header of a part. */
  method AppendAttachmentMarkers(emailData: map<string, Value>, headers: seq<Header>, count: nat, body: Option<string>)
    returns (updated: map<string, Value>)
    requires emailData == PartsData(count, body)
    ensures updated == PartsData(count + AttachmentHeaders(headers), body)
  {
    updated := emailData;
    for k := 0 to |headers|
      invariant updated == PartsData(count + AttachmentHeaders(headers[..k]), body)
    {
      AttachmentHeadersSnoc(headers, k);
      var header := headers[k];
      if header.name == "Content-Disposition" && Contains(header.value, "attachment") {
        var n := count + AttachmentHeaders(headers[..k]);
        updated := updated["attachments" := Markers(updated["attachments"].items + [AttachmentMarker])];
        assert updated["attachments"].items == seq(n + 1, _ => AttachmentMarker);
      }
    }
    assert headers[..|headers|] == headers;
  }

  /**
    * parse_parts: walks the parts in order; a part with nested parts first merges the
    * nested walk's dictionary (`update`), then a `text/plain` part with data sets "body",
    * and any other part appends one marker per `Content-Disposition` header mentioning
    * "attachment".
    */
  method ParseParts(parts: seq<Part>, decode: string -> string) returns (emailData: map<string, Value>)
    ensures emailData == PartsResult(parts, decode)
    decreases parts
  {
    emailData := map["attachments" := Markers([])];
    PartsResultShape([], decode);
    for i := 0 to |parts|
      invariant emailData == PartsResult(parts[..i], decode)
    {
      var part := parts[i];
      PartsResultSnoc(parts, i, decode);
      var count := AttachmentCount(parts[..i]);
      var body := Decoded(LastBody(parts[..i]), decode);
      if part.parts != [] {
        var nestedData := ParseParts(part.parts, decode);
        MergeNested(count, body, part.parts, decode);
        emailData := emailData + nestedData;
        count := AttachmentCount(part.parts);
        if LastBody(part.parts).Some? {
          body := Decoded(LastBody(part.parts), decode);
        }
      }
      if IsTextWithData(part) {
        SetBody(count, body, decode(part.data));
        emailData := emailData["body" := Text(decode(part.data))];
        body := Some(decode(part.data));
      } else {
        emailData := AppendAttachmentMarkers(emailData, part.headers, count, body);
      }
    }
    assert parts[..|parts|] == parts;
  }

  // Properties of the parse_parts result

  /** The result always holds "attachments"; with no parts it is exactly `{"attachments": []}`. */
  lemma PartsResultShape(parts: seq<Part>, decode: string -> string)
    ensures "attachments" in PartsResult(parts, decode)
    ensures PartsResult(parts, decode).Keys <= {"attachments", "body"}
    ensures parts == [] ==> PartsResult(parts, decode) == map["attachments" := Markers([])]
  {
    if parts == [] {
      assert seq(0, _ => AttachmentMarker) == [];
    }
  }

  /** Every part of the tree, each after its own nested parts: the order of parse_parts' assignments. */
  function PostOrder(parts: seq<Part>): seq<Part>
    decreases parts
  {
    if parts == [] then []
    else PostOrder(parts[..|parts| - 1]) + PostOrder(parts[|parts| - 1].parts) + [parts[|parts| - 1]]
  }

  /** The data of the last body part of a flat sequence of parts. */
  function LastTextData(s: seq<Part>): Option<string> {
    if s == [] then None
    else if IsTextWithData(s[|s| - 1]) then Some(s[|s| - 1].data)
    else LastTextData(s[..|s| - 1])
  }

  lemma {:induction false} LastTextDataAppend(a: seq<Part>, b: seq<Part>)
    ensures LastTextData(a + b) == if LastTextData(b).Some? then LastTextData(b) else LastTextData(a)
    decreases |b|
  {
    if b != [] {
      assert (a + b)[..|a + b| - 1] == a + b[..|b| - 1];
      LastTextDataAppend(a, b[..|b| - 1]);
    } else {
      assert a + b == a;
    }
  }

  /**
    * The body parse_parts keeps is the data of the LAST `text/plain` part with data in
    * post-order, nested parts before their parent: later assignments overwrite earlier ones.
    */
  lemma {:induction false} BodyIsLastTextPart(parts: seq<Part>)
    ensures LastBody(parts) == LastTextData(PostOrder(parts))
    decreases parts
  {
    if parts != [] {
      var p := parts[|parts| - 1];
      var init := parts[..|parts| - 1];
      BodyIsLastTextPart(init);
      BodyIsLastTextPart(p.parts);
      LastTextDataAppend(PostOrder(init) + PostOrder(p.parts), [p]);
      LastTextDataAppend(PostOrder(init), PostOrder(p.parts));
      assert [p][..0] == [];
    }
  }

  /**
    * A part with nested parts replaces the attachment list wholesale: the markers of the
    * parts before it are lost, whatever they were.
    */
  lemma NestedResultReplacesAttachments(before: seq<Part>, p: Part)
    requires p.parts != []
    ensures AttachmentCount(before + [p]) == AttachmentCount(p.parts) + OwnMarkers(p)
  {
    assert (before + [p])[..|before|] == before;
  }

  /** Without nested parts the markers simply add up over the parts. */
  function SumOwnMarkers(parts: seq<Part>): nat {
    if parts == [] then 0 else SumOwnMarkers(parts[..|parts| - 1]) + OwnMarkers(parts[|parts| - 1])
  }

  lemma {:induction false} FlatPartsAccumulateAttachments(parts: seq<Part>)
    requires forall i :: 0 <= i < |parts| ==> parts[i].parts == []
    ensures AttachmentCount(parts) == SumOwnMarkers(parts)
  {
    if parts != [] {
      FlatPartsAccumulateAttachments(parts[..|parts| - 1]);
    }
  }

  // ---------------------------------------------------------------------------
  // read_message
  // ---------------------------------------------------------------------------

  /** The `payload` of a message fetched with `format='full'`: its headers and its parts. */
  datatype Payload = Payload(headers: seq<Header>, parts: seq<Part>)

  /** The value of the last header whose lower-cased name is `key`. */
  function LastHeader(headers: seq<Header>, key: string): Option<string> {
    if headers == [] then None
    else if Lower(headers[|headers| - 1].name) == key then Some(headers[|headers| - 1].value)
    else LastHeader(headers[..|headers| - 1], key)
  }

  /** The header keys read_message copies. */
  const HeaderKeys: set<string> := {"from", "to", "subject", "date"}

  /** The header part of read_message's dictionary. */
  function HeaderFields(headers: seq<Header>): map<string, Value> {
    map key | key in HeaderKeys && LastHeader(headers, key).Some? :: Text(LastHeader(headers, key).value)
  }

  /** The dictionary read_message returns for a payload: header fields, then parse_parts' result. */
  function EmailRecord(payload: Payload, decode: string -> string): map<string, Value> {
    HeaderFields(payload.headers) + PartsResult(payload.parts, decode)
  }

  lemma HeaderFieldsSnoc(headers: seq<Header>, k: nat)
    requires k < |headers|
    ensures var name := Lower(headers[k].name);
            HeaderFields(headers[..k + 1]) ==
              if name in HeaderKeys then HeaderFields(headers[..k])[name := Text(headers[k].value)]
              else HeaderFields(headers[..k])
  {
    assert headers[..k + 1][..k] == headers[..k];
  }

  /**
    * read_message: fetches the message by id (`get` stands for `messages().get`), copies
    * from/to/subject/date from headers matched case-insensitively, later ones overwriting
    * earlier ones, then merges parse_parts' result.
    */
  method ReadMessage(message: MessageRef, get: string -> Payload, decode: string -> string)
    returns (emailData: map<string, Value>)
    ensures emailData == EmailRecord(get(message.id), decode)
  {
    var payload := get(message.id);
    var headers := payload.headers;
    emailData := map[];
    for k := 0 to |headers|
      invariant emailData == HeaderFields(headers[..k])
    {
      HeaderFieldsSnoc(headers, k);
      var name := headers[k].name;
      var value := headers[k].value;
      if Lower(name) == "from" {
        emailData := emailData["from" := Text(value)];
      }
      if Lower(name) == "to" {
        emailData := emailData["to" := Text(value)];
      }
      if Lower(name) == "subject" {
        emailData := emailData["subject" := Text(value)];
      }
      if Lower(name) == "date" {
        emailData := emailData["date" := Text(value)];
      }
    }
    assert headers[..|headers|] == headers;
    var partsData := ParseParts(payload.parts, decode);
    emailData := emailData + partsData;
  }

  /** `headers[i]` is the last header whose lower-cased name is `key`. */
  predicate IsLastMatch(headers: seq<Header>, key: string, i: int) {
    0 <= i < |headers| && Lower(headers[i].name) == key &&
    forall j :: i < j < |headers| ==> Lower(headers[j].name) != key
  }

  /** Header matching is case-insensitive and the last matching header wins; with no
      matching header the key is absent. */
  lemma {:induction false} LastHeaderWins(headers: seq<Header>, key: string)
    ensures forall i :: IsLastMatch(headers, key, i) ==> LastHeader(headers, key) == Some(headers[i].value)
    ensures LastHeader(headers, key).None? <==>
            forall i :: 0 <= i < |headers| ==> Lower(headers[i].name) != key
  {
    if headers != [] {
      var n := |headers| - 1;
      var init := headers[..n];
      LastHeaderWins(init, key);
      forall i | IsLastMatch(headers, key, i)
        ensures LastHeader(headers, key) == Some(headers[i].value)
      {
        if i < n {
          assert IsLastMatch(init, key, i);
        }
      }
      if Lower(headers[n].name) != key {
        forall i | 0 <= i < n
          ensures Lower(headers[i].name) == Lower(init[i].name)
        {
        }
      }
    }
  }

  /**
    * The dictionary of read_message: each of from/to/subject/date is present exactly when a
    * header of that name exists, holding the last such value; "attachments" is always
    * present and, like "body", comes from parse_parts.
    */
  lemma EmailRecordFields(payload: Payload, decode: string -> string)
    ensures forall key :: key in HeaderKeys ==>
              (key in EmailRecord(payload, decode) <==> LastHeader(payload.headers, key).Some?) &&
              (key in EmailRecord(payload, decode) ==>
                 EmailRecord(payload, decode)[key] == Text(LastHeader(payload.headers, key).value))
    ensures "attachments" in EmailRecord(payload, decode)
    ensures forall key :: key in PartsResult(payload.parts, decode) ==>
              EmailRecord(payload, decode)[key] == PartsResult(payload.parts, decode)[key]
    ensures EmailRecord(payload, decode).Keys <= HeaderKeys + {"attachments", "body"}
  {
  }
}
