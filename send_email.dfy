/**
  * Outgoing message construction (SendEmail.py): the attachment content-type fallback
  * and classification, the attachment part with its Content-Disposition header, and the
  * single-part or multipart message with its three headers.
  *
  * MIME objects are a small datatype; the message being built is a `MimeMessage` object
  * whose headers and attached parts are updated in place. `mimetypes.guess_type`, reading
  * an attachment file, UTF-8 decoding and `urlsafe_b64encode(message.as_bytes())` are
  * functions passed in by the caller.
  */
module SendEmail {
  import opened Wrappers
  import opened Strings

  /** `self.our_email`, the sender of every message. */
  const OurEmail := "umang.s23@iiits.in"
  const FallbackMain := "application"
  const FallbackSub := "octet-stream"
  /** `application/octet-stream`. */
  const FallbackType := FallbackMain + "/" + FallbackSub

  /** The pair `guess_type` returns: a content type and an encoding, each possibly None. */
  datatype Guess = Guess(contentType: Option<string>, encoding: Option<string>)

  /** The content type used for an attachment: the guessed one unless it is unknown or the
      file is reported as encoded (compressed), then `application/octet-stream`. */
  function EffectiveType(g: Guess): string {
    if g.contentType.None? || g.encoding.Some? then FallbackType else g.contentType.value
  }

  /** `content_type.split('/', 1)` unpacked into two names: None stands for the ValueError
      raised when there is no '/'. */
  function SplitType(contentType: string): (r: Option<(string, string)>)
    ensures r.Some? <==> '/' in contentType
    ensures r.Some? ==> r.value.0 + "/" + r.value.1 == contentType && '/' !in r.value.0
  {
    if contentType == [] then None
    else if contentType[0] == '/' then Some(([], contentType[1..]))
    else
      match SplitType(contentType[1..])
      case None => None
      case Some((main, sub)) => Some(([contentType[0]] + main, sub))
  }

  /** Splitting a type written as `main/sub`, with no '/' in `main`, gives back its two halves. */
  lemma {:induction false} SplitTypeAt(mainType: string, subType: string)
    requires '/' !in mainType
    ensures SplitType(mainType + "/" + subType) == Some((mainType, subType))
  {
    if mainType != [] {
      assert (mainType + "/" + subType)[1..] == mainType[1..] + "/" + subType;
      SplitTypeAt(mainType[1..], subType);
      assert [mainType[0]] + mainType[1..] == mainType;
    }
  }

  /** `os.path.basename`: what follows the last '/'. */
  function Basename(path: string): (r: string)
    ensures '/' !in r
    ensures |r| <= |path| && path[|path| - |r|..] == r
    ensures |r| < |path| ==> path[|path| - |r| - 1] == '/'
  {
    if path == [] then []
    else if path[|path| - 1] == '/' then []
    else
      var r := Basename(path[..|path| - 1]) + [path[|path| - 1]];
      assert path[|path| - |r|..] == path[..|path| - 1][|path| - |r|..] + [path[|path| - 1]];
      r
  }

  /** The email.mime class a part is made with. */
  datatype PartKind = TextPart | ImagePart | AudioPart | BasePart | MultipartPart

  /** The headers the modelled code sets: plain fields, and the attachment disposition
      `add_header('Content-Disposition', 'attachment', filename=...)`. */
  datatype Header = Field(name: string, value: string) | AttachmentDisposition(filename: string)

  datatype Payload = TextBody(text: string) | Bytes(data: seq<Byte>) | Attached(parts: seq<MimePart>)

  /** A MIME object: its class, `maintype/subtype`, the headers set on it, its payload. */
  datatype MimePart = MimePart(kind: PartKind, mainType: string, subType: string,
                               headers: seq<Header>, payload: Payload)

  /** The class add_attachment picks for a main type. */
  function KindOf(mainType: string): PartKind {
    if mainType == "text" then TextPart
    else if mainType == "image" then ImagePart
    else if mainType == "audio" then AudioPart
    else BasePart
  }

  /**
    * The part add_attachment attaches for a file with the given guess and contents, or None
    * when the content type cannot be split. A text file's bytes are decoded; every other
    * kind carries the bytes.
    */
  function AttachmentPart(filename: string, g: Guess, content: seq<Byte>, utf8: seq<Byte> -> string)
    : Option<MimePart>
  {
    match SplitType(EffectiveType(g))
    case None => None
    case Some((mainType, subType)) =>
      var kind := KindOf(mainType);
      var payload := if kind == TextPart then TextBody(utf8(content)) else Bytes(content);
      Some(MimePart(kind, mainType, subType, [AttachmentDisposition(Basename(filename))], payload))
  }

  /** The fallback type splits into `application` and `octet-stream`. */
  lemma FallbackSplit()
    ensures SplitType(FallbackType) == Some((FallbackMain, FallbackSub))
  {
    SplitTypeAt(FallbackMain, FallbackSub);
  }

  /** The part built once the effective type is split into `mainType` and `subType`. */
  lemma AttachmentPartOfSplit(filename: string, g: Guess, content: seq<Byte>, utf8: seq<Byte> -> string,
                              mainType: string, subType: string)
    requires SplitType(EffectiveType(g)) == Some((mainType, subType))
    ensures AttachmentPart(filename, g, content, utf8) ==
            Some(MimePart(KindOf(mainType), mainType, subType, [AttachmentDisposition(Basename(filename))],
                          if KindOf(mainType) == TextPart then TextBody(utf8(content)) else Bytes(content)))
  {
  }

  /** `application` gets the generic class. */
  lemma FallbackKind()
    ensures KindOf(FallbackMain) == BasePart
  {
    assert |FallbackMain| == 11;
  }

  /** A file whose type is unknown, or reported as encoded (compressed), is attached as a
      generic `application/octet-stream` part carrying its bytes. */
  lemma AttachmentPartFallback(filename: string, g: Guess, content: seq<Byte>, utf8: seq<Byte> -> string)
    requires g.contentType.None? || g.encoding.Some?
    ensures AttachmentPart(filename, g, content, utf8) ==
            Some(MimePart(BasePart, FallbackMain, FallbackSub,
                          [AttachmentDisposition(Basename(filename))], Bytes(content)))
  {
    assert EffectiveType(g) == FallbackType;
    FallbackSplit();
    AttachmentPartOfSplit(filename, g, content, utf8, FallbackMain, FallbackSub);
    FallbackKind();
  }

  /**
    * The attachment part: its type is the effective content type, main type before the
    * first '/', its class follows the main type (text, image, audio, anything else the
    * generic class), and it carries exactly one header, the disposition naming the file's
    * base name.
    */
  lemma AttachmentPartShape(filename: string, g: Guess, content: seq<Byte>, utf8: seq<Byte> -> string)
    ensures AttachmentPart(filename, g, content, utf8).Some? <==> '/' in EffectiveType(g)
    ensures AttachmentPart(filename, g, content, utf8).Some? ==>
              var p := AttachmentPart(filename, g, content, utf8).value;
              p.mainType + "/" + p.subType == EffectiveType(g) && '/' !in p.mainType &&
              p.kind == KindOf(p.mainType) &&
              (p.kind == TextPart ==> p.payload == TextBody(utf8(content))) &&
              (p.kind != TextPart ==> p.payload == Bytes(content)) &&
              p.headers == [AttachmentDisposition(Basename(filename))]
  {
  }

  /** The class follows the main type: text, image and audio have their own classes, every
      other main type gets the generic one. */
  lemma KindOfMainType(mainType: string)
    ensures KindOf(mainType) == TextPart <==> mainType == "text"
    ensures KindOf(mainType) == ImagePart <==> mainType == "image"
    ensures KindOf(mainType) == AudioPart <==> mainType == "audio"
    ensures KindOf(mainType) == BasePart <==> mainType != "text" && mainType != "image" && mainType != "audio"
  {
  }

  /** The message built_message composes from its body and the attachment parts. */
  function Compose(destination: string, obj: string, body: string, parts: seq<MimePart>): MimePart {
    var headers := [Field("to", destination), Field("from", OurEmail), Field("subject", obj)];
    if parts == [] then MimePart(TextPart, "text", "plain", headers, TextBody(body))
    else MimePart(MultipartPart, "multipart", "mixed", headers,
                  Attached([MimePart(TextPart, "text", "plain", [], TextBody(body))] + parts))
  }

  /**
    * The message under construction, updated in place: `message['x'] = v` appends a header
    * and `message.attach(part)` appends a part to a multipart payload.
    */
  class MimeMessage {
    var kind: PartKind
    var mainType: string
    var subType: string
    var headers: seq<Header>
    var payload: Payload

    function Value(): MimePart
      reads this
    {
      MimePart(kind, mainType, subType, headers, payload)
    }

    /** `MIMEText(text)`: a `text/plain` part. */
    constructor Text(text: string)
      ensures Value() == MimePart(TextPart, "text", "plain", [], TextBody(text))
    {
      kind, mainType, subType, headers, payload := TextPart, "text", "plain", [], TextBody(text);
    }

    /** `MIMEMultipart()`: an empty `multipart/mixed` container. */
    constructor Multipart()
      ensures Value() == MimePart(MultipartPart, "multipart", "mixed", [], Attached([]))
    {
      kind, mainType, subType, headers, payload := MultipartPart, "multipart", "mixed", [], Attached([]);
    }

    /** `message[name] = value`: the header is appended. */
    method SetHeader(name: string, value: string)
      modifies this`headers
      ensures headers == old(headers) + [Field(name, value)]
    {
      headers := headers + [Field(name, value)];
    }

    /** `message.attach(part)`; only multipart messages are attached to. */
    method Attach(part: MimePart)
      requires payload.Attached?
      modifies this`payload
      ensures payload == Attached(old(payload).parts + [part])
    {
      payload := Attached(payload.parts + [part]);
    }
  }

  /**
    * add_attachment: guesses the type, falls back to `application/octet-stream`, splits it,
    * builds the part of the matching class, sets its disposition and attaches it. `ok` is
    * false where the source raises because the type has no '/'; nothing is attached then.
    */
  method AddAttachment(message: MimeMessage, filename: string, guess: string -> Guess,
                       files: string -> seq<Byte>, utf8: seq<Byte> -> string)
    returns (ok: bool)
    requires message.payload.Attached?
    modifies message`payload
    ensures ok <==> PartOfFile(guess, files, utf8)(filename).Some?
    ensures message.payload ==
            if ok then Attached(old(message.payload).parts + [PartOfFile(guess, files, utf8)(filename).value])
            else old(message.payload)
  {
    PartOfFileApply(guess, files, utf8, filename);
    var g := guess(filename);
    var contentType := if g.contentType.None? || g.encoding.Some? then FallbackType else g.contentType.value;
    assert contentType == EffectiveType(g);
    var split := SplitType(contentType);
    if split.None? {
      return false;
    }
    var (mainType, subType) := split.value;
    var content := files(filename);
    var kind, payload;
    if mainType == "text" {
      kind, payload := TextPart, TextBody(utf8(content));
    } else if mainType == "image" {
      kind, payload := ImagePart, Bytes(content);
    } else if mainType == "audio" {
      kind, payload := AudioPart, Bytes(content);
    } else {
      kind, payload := BasePart, Bytes(content);
    }
    // the part as built, with its Content-Disposition header naming the file's base name
    var msg := MimePart(kind, mainType, subType, [AttachmentDisposition(Basename(filename))], payload);
    message.Attach(msg);
    ok := true;
  }

  /** The attachment parts of a list of files, in list order, or None if one of them
      cannot be built; `build` makes the part of one file. */
  function AttachmentParts(attachments: seq<string>, build: string -> Option<MimePart>): Option<seq<MimePart>> {
    if attachments == [] then Some([])
    else
      match AttachmentParts(attachments[..|attachments| - 1], build)
      case None => None
      case Some(parts) =>
        match build(attachments[|attachments| - 1])
        case None => None
        case Some(p) => Some(parts + [p])
  }

  /** One part per attachment, the i-th built from the i-th file; None exactly when some
      attachment cannot be built. */
  lemma {:induction false} AttachmentPartsInOrder(attachments: seq<string>, build: string -> Option<MimePart>)
    ensures AttachmentParts(attachments, build).Some? <==>
            forall i :: 0 <= i < |attachments| ==> build(attachments[i]).Some?
    ensures AttachmentParts(attachments, build).Some? ==>
            var parts := AttachmentParts(attachments, build).value;
            |parts| == |attachments| &&
            forall i :: 0 <= i < |attachments| ==> parts[i] == build(attachments[i]).value
  {
    if attachments != [] {
      var init := attachments[..|attachments| - 1];
      AttachmentPartsInOrder(init, build);
      assert forall i :: 0 <= i < |init| ==> init[i] == attachments[i];
    }
  }

  lemma AttachmentPartsSnoc(attachments: seq<string>, i: nat, build: string -> Option<MimePart>)
    requires i < |attachments|
    requires AttachmentParts(attachments[..i], build).Some? && build(attachments[i]).Some?
    ensures AttachmentParts(attachments[..i + 1], build) ==
            Some(AttachmentParts(attachments[..i], build).value + [build(attachments[i]).value])
  {
    assert attachments[..i + 1][..i] == attachments[..i];
  }

  lemma AppendOne<T>(front: seq<T>, back: seq<T>, x: T)
    ensures front + back + [x] == front + (back + [x])
  {
  }

  /** One file whose part cannot be built makes the whole list fail. */
  lemma AttachmentPartsFail(attachments: seq<string>, i: nat, build: string -> Option<MimePart>)
    requires i < |attachments| && build(attachments[i]).None?
    ensures AttachmentParts(attachments, build).None?
  {
    AttachmentPartsInOrder(attachments, build);
  }

  /** The part add_attachment builds for one file. */
  function PartOfFile(guess: string -> Guess, files: string -> seq<Byte>, utf8: seq<Byte> -> string)
    : string -> Option<MimePart>
  {
    f => AttachmentPart(f, guess(f), files(f), utf8)
  }

  lemma PartOfFileApply(guess: string -> Guess, files: string -> seq<Byte>, utf8: seq<Byte> -> string, f: string)
    ensures PartOfFile(guess, files, utf8)(f) == AttachmentPart(f, guess(f), files(f), utf8)
  {
  }

  /** The loop of build_message: each file's part is attached in turn, and the first file
      whose type cannot be split stops it (`ok` is false then). */
  method AttachAll(message: MimeMessage, attachments: seq<string>, guess: string -> Guess,
                   files: string -> seq<Byte>, utf8: seq<Byte> -> string)
    returns (ok: bool)
    requires message.payload.Attached?
    modifies message`payload
    ensures ok <==> AttachmentParts(attachments, PartOfFile(guess, files, utf8)).Some?
    ensures ok ==> message.payload ==
                   Attached(old(message.payload).parts + AttachmentParts(attachments, PartOfFile(guess, files, utf8)).value)
  {
    var build := PartOfFile(guess, files, utf8);
    ghost var start := message.payload.parts;
    ghost var parts: seq<MimePart> := [];
    for i := 0 to |attachments|
      invariant AttachmentParts(attachments[..i], build) == Some(parts)
      invariant message.payload == Attached(start + parts)
    {
      ok := AddAttachment(message, attachments[i], guess, files, utf8);
      if !ok {
        AttachmentPartsFail(attachments, i, build);
        return;
      }
      ghost var part := build(attachments[i]).value;
      AttachmentPartsSnoc(attachments, i, build);
      AppendOne(start, parts, part);
      parts := parts + [part];
    }
    assert attachments[..|attachments|] == attachments;
    ok := true;
  }

  /**
    * build_message: without attachments a single text part, otherwise a multipart message
    * holding the body part then one part per attachment; either way with to, from and
    * subject set, and returned as the single-key dictionary `{'raw': ...}`. It fails (the
    * source raises) when an attachment's content type cannot be split.
    * `encode` stands for `urlsafe_b64encode(message.as_bytes()).decode()`.
    */
  method BuildMessage(destination: string, obj: string, body: string, attachments: seq<string>,
                      guess: string -> Guess, files: string -> seq<Byte>, utf8: seq<Byte> -> string,
                      encode: MimePart -> string)
    returns (r: Option<map<string, string>>)
    ensures r.Some? <==> AttachmentParts(attachments, PartOfFile(guess, files, utf8)).Some?
    ensures r.Some? ==> r.value.Keys == {"raw"}
    ensures r.Some? ==>
              r.value["raw"] == encode(Compose(destination, obj, body,
                                               AttachmentParts(attachments, PartOfFile(guess, files, utf8)).value))
  {
    var message;
    if attachments == [] {
      message := new MimeMessage.Text(body);
      message.SetHeader("to", destination);
      message.SetHeader("from", OurEmail);
      message.SetHeader("subject", obj);
      assert message.Value() == Compose(destination, obj, body, []);
    } else {
      message := new MimeMessage.Multipart();
      message.SetHeader("to", destination);
      message.SetHeader("from", OurEmail);
      message.SetHeader("subject", obj);
      var bodyPart := MimePart(TextPart, "text", "plain", [], TextBody(body));
      message.Attach(bodyPart);
      ghost var headers := [Field("to", destination), Field("from", OurEmail), Field("subject", obj)];
      assert message.Value() == MimePart(MultipartPart, "multipart", "mixed", headers, Attached([bodyPart]));
      var ok := AttachAll(message, attachments, guess, files, utf8);
      if !ok {
        return None;
      }
      ghost var parts := AttachmentParts(attachments, PartOfFile(guess, files, utf8)).value;
      assert message.Value() == MimePart(MultipartPart, "multipart", "mixed", headers, Attached([bodyPart] + parts));
      AttachmentPartsInOrder(attachments, PartOfFile(guess, files, utf8));
      assert message.Value() == Compose(destination, obj, body, parts);
    }
    r := Some(map["raw" := encode(message.Value())]);
  }

  /**
    * The composed message: a single `text/plain` part without attachments, else a
    * `multipart/mixed` one whose first part is the body and whose later parts are the
    * attachments in order; the headers are to, from (our address) and subject, in that order.
    */
  lemma ComposeShape(destination: string, obj: string, body: string, parts: seq<MimePart>)
    ensures var m := Compose(destination, obj, body, parts);
            m.headers == [Field("to", destination), Field("from", OurEmail), Field("subject", obj)] &&
            (parts == [] ==> m.kind == TextPart && m.payload == TextBody(body)) &&
            (parts != [] ==> m.kind == MultipartPart && m.payload.Attached? &&
                             |m.payload.parts| == |parts| + 1 &&
                             m.payload.parts[0] == MimePart(TextPart, "text", "plain", [], TextBody(body)) &&
                             m.payload.parts[1..] == parts)
  {
  }
}
