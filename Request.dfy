/** The decisions `POST /send` takes on the request alone: the bearer-token
    check, the ordered body validation, the chat id, and which content is sent. */
module Request {
  import opened Values
  import opened Text

  const BearerPrefix: string := "Bearer "

  /** The messaging network's suffix for a personal chat. */
  const ChatSuffix: string := "@c.us"

  /** The destructured request body; a missing field is `undefined`. */
  datatype RequestBody = RequestBody(
    phoneNumber: Json,
    message: Json,
    imageUrl: Json,
    imageUrls: Json,
    pdfUrl: Json)

  /** The `Authorization` header (absent or a string) and the body. */
  datatype SendRequest = SendRequest(authorization: Option<string>, body: RequestBody)

  /** Why the body was refused with 400, in the order the checks run. */
  datatype ValidationError =
    | PhoneMissing              // 'phoneNumber is required'
    | PhoneNotString            // 'phoneNumber must be a string'
    | ImageUrlsNotArray         // 'imageUrls must be an array'
    | ImageUrlsEmpty            // 'imageUrls array cannot be empty'
    | ImageUrlNotString(index: nat) // 'imageUrls[<index>] must be a string'
    | NothingToSend             // 'At least one of: message, imageUrl, imageUrls, or pdfUrl is required'

  /** What `POST /send` answers. */
  datatype SendReply =
    | Sent                      // 200 { status: true }
    | Unauthorized              // 401 'No token provided'
    | Forbidden                 // 403 'Invalid token'
    | NotConnected              // 503 'WhatsApp client not connected or session closed'
    | Invalid(error: ValidationError) // 400
    | RecipientNotAllowed       // 400 'Destinatario no permitido.'
    | NumberNotFound            // 404 'Number not found on WhatsApp'
    | SessionUnavailable        // 503 with retry: true
    | InternalError             // 500 'Internal server error'
  {
    function Status(): int {
      match this
      case Sent => 200
      case Unauthorized => 401
      case Forbidden => 403
      case NotConnected => 503
      case Invalid(_) => 400
      case RecipientNotAllowed => 400
      case NumberNotFound => 404
      case SessionUnavailable => 503
      case InternalError => 500
    }

    predicate Retry() {
      SessionUnavailable?
    }
  }

  /** The content `POST /send` delivers, chosen by priority. */
  datatype Content =
    | PdfContent(url: Json, caption: Json)
    | ImageBatch(urls: seq<Json>, message: Json)
    | SingleImage(url: Json, caption: Json)
    | TextContent(text: Json)
    | NoContent

  /** `authHeader.split(' ')[1]` for a header that starts with "Bearer ". */
  function BearerToken(header: string): string
    requires StartsWith(header, BearerPrefix)
  {
    Before(header[|BearerPrefix|..], ' ')
  }

  /** The authorization check: 401 without a "Bearer " header, 403 when its
      token is not TOKENACCESS (always, when TOKENACCESS is unset). */
  function Authorize(header: Option<string>, tokenAccess: Option<string>): Option<SendReply> {
    if header.None? || !StartsWith(header.value, BearerPrefix) then Some(Unauthorized)
    else if tokenAccess.None? || BearerToken(header.value) != tokenAccess.value then Some(Forbidden)
    else None
  }

  /** A header is accepted exactly when it is "Bearer ", then the configured
      token, then the end of the header or a space (words after that space
      are ignored); a token containing a space can never be matched. */
  lemma {:induction false} AuthorizeIff(header: Option<string>, tokenAccess: Option<string>)
    ensures Authorize(header, tokenAccess) == None <==>
      && header.Some? && tokenAccess.Some?
      && ' ' !in tokenAccess.value
      && StartsWith(header.value, BearerPrefix + tokenAccess.value)
      && var end := |BearerPrefix| + |tokenAccess.value|;
         (|header.value| == end || header.value[end] == ' ')
  {
    if header.Some? && tokenAccess.Some? {
      var h, t := header.value, tokenAccess.value;
      var n := |BearerPrefix|;
      if StartsWith(h, BearerPrefix + t) {
        assert h[..n] == (BearerPrefix + t)[..n] == BearerPrefix;
        assert StartsWith(h, BearerPrefix);
      }
      if StartsWith(h, BearerPrefix) {
        var rest := h[n..];
        BeforeIff(rest, ' ', t);
        if StartsWith(rest, t) {
          assert h[..n + |t|] == h[..n] + rest[..|t|];
          assert StartsWith(h, BearerPrefix + t);
        }
        if StartsWith(h, BearerPrefix + t) {
          assert rest[..|t|] == h[n..n + |t|] == (BearerPrefix + t)[n..];
          assert StartsWith(rest, t);
        }
        assert |t| < |rest| ==> rest[|t|] == h[n + |t|];
      }
    }
  }

  /** The index of the first element that is not a string, if any. */
  function FirstNonString(items: seq<Json>): (r: Option<nat>)
    ensures r.Some? ==>
      r.value < |items| && !items[r.value].Str? && forall j :: 0 <= j < r.value ==> items[j].Str?
    ensures r.None? ==> forall j :: 0 <= j < |items| ==> items[j].Str?
  {
    if items == [] then None
    else if !items[0].Str? then Some(0)
    else
      match FirstNonString(items[1..])
      case None => None
      case Some(k) => Some(k + 1)
  }

  /** The `for` loop of the fifth check. */
  method FindNonString(items: seq<Json>) returns (r: Option<nat>)
    ensures r == FirstNonString(items)
  {
    var i := 0;
    while i < |items|
      invariant 0 <= i <= |items|
      invariant forall j :: 0 <= j < i ==> items[j].Str?
    {
      if !items[i].Str? {
        return Some(i);
      }
      i := i + 1;
    }
    return None;
  }

  /** The phone number is a non-empty string. */
  predicate PhoneOk(b: RequestBody) {
    b.phoneNumber.Str? && b.phoneNumber.s != ""
  }

  /** `imageUrls` is absent (falsy) or a non-empty array of strings. */
  predicate ImageUrlsOk(b: RequestBody) {
    Truthy(b.imageUrls) ==>
      && b.imageUrls.Arr?
      && |b.imageUrls.items| > 0
      && forall j :: 0 <= j < |b.imageUrls.items| ==> b.imageUrls.items[j].Str?
  }

  predicate HasContent(b: RequestBody) {
    Truthy(b.message) || Truthy(b.imageUrl) || Truthy(b.imageUrls) || Truthy(b.pdfUrl)
  }

  /** The six checks, in order; the first to fail is reported. A body that
      passes has a non-empty string for a phone number. */
  function Validate(b: RequestBody): (r: Option<ValidationError>)
    ensures r.None? ==> PhoneOk(b)
  {
    if !Truthy(b.phoneNumber) then Some(PhoneMissing)
    else if !b.phoneNumber.Str? then Some(PhoneNotString)
    else if Truthy(b.imageUrls) && !b.imageUrls.Arr? then Some(ImageUrlsNotArray)
    else if b.imageUrls.Arr? && |b.imageUrls.items| == 0 then Some(ImageUrlsEmpty)
    else if b.imageUrls.Arr? && FirstNonString(b.imageUrls.items).Some? then
      Some(ImageUrlNotString(FirstNonString(b.imageUrls.items).value))
    else if !HasContent(b) then Some(NothingToSend)
    else None
  }

  /** Each error is reported exactly when its check is the first to fail,
      and a body passes exactly when all six checks do. */
  lemma ValidateMeaning(b: RequestBody)
    ensures Validate(b).None? <==> PhoneOk(b) && ImageUrlsOk(b) && HasContent(b)
    ensures Validate(b) == Some(PhoneMissing) <==> !Truthy(b.phoneNumber)
    ensures Validate(b) == Some(PhoneNotString) <==> Truthy(b.phoneNumber) && !b.phoneNumber.Str?
    ensures Validate(b) == Some(ImageUrlsNotArray) <==> PhoneOk(b) && Truthy(b.imageUrls) && !b.imageUrls.Arr?
    ensures Validate(b) == Some(ImageUrlsEmpty) <==> PhoneOk(b) && b.imageUrls == Arr([])
    ensures Validate(b).Some? && Validate(b).value.ImageUrlNotString? ==>
      && PhoneOk(b) && b.imageUrls.Arr?
      && Validate(b).value.index < |b.imageUrls.items|
      && !b.imageUrls.items[Validate(b).value.index].Str?
      && forall j :: 0 <= j < Validate(b).value.index ==> b.imageUrls.items[j].Str?
    ensures Validate(b) == Some(NothingToSend) <==> PhoneOk(b) && ImageUrlsOk(b) && !HasContent(b)
  {
  }

  /** The validation chain as the handler runs it, early returns and all. */
  method CheckBody(b: RequestBody) returns (r: Option<ValidationError>)
    ensures r == Validate(b)
  {
    if !Truthy(b.phoneNumber) {
      return Some(PhoneMissing);
    }
    if !b.phoneNumber.Str? {
      return Some(PhoneNotString);
    }
    if Truthy(b.imageUrls) && !b.imageUrls.Arr? {
      return Some(ImageUrlsNotArray);
    }
    if b.imageUrls.Arr? && |b.imageUrls.items| == 0 {
      return Some(ImageUrlsEmpty);
    }
    if b.imageUrls.Arr? {
      var bad := FindNonString(b.imageUrls.items);
      if bad.Some? {
        return Some(ImageUrlNotString(bad.value));
      }
    }
    if !Truthy(b.message) && !Truthy(b.imageUrl) && !Truthy(b.imageUrls) && !Truthy(b.pdfUrl) {
      return Some(NothingToSend);
    }
    return None;
  }

  /** A character outside the Basic Multilingual Plane: two UTF-16 code units. */
  predicate IsAstral(c: char) {
    c as int >= 0x1_0000
  }

  /** Stands for the lone low surrogate left behind when only the first code
      unit of an astral character is dropped. */
  const LoneSurrogate: char := '\U{FFFD}'

  /** `phoneNumber.substring(1) + "@c.us"`: the first UTF-16 code unit is
      dropped. An astral first character leaves its low surrogate behind. */
  function ChatIdOf(phone: string): string {
    (if phone == "" then ""
     else if IsAstral(phone[0]) then [LoneSurrogate] + phone[1..]
     else phone[1..]) + ChatSuffix
  }

  /** The chat id is the status id exactly when the number is one BMP
      character followed by "status", and it is never the status-broadcast id. */
  lemma ChatIdStatus(phone: string)
    ensures ChatIdOf(phone) == "status@c.us" <==>
      |phone| == 7 && !IsAstral(phone[0]) && phone[1..] == "status"
    ensures ChatIdOf(phone) != "status@broadcast"
  {
    var id := ChatIdOf(phone);
    var head := if phone == "" then "" else if IsAstral(phone[0]) then [LoneSurrogate] + phone[1..] else phone[1..];
    assert id[|id| - 1] == 's';
    assert "status@broadcast"[15] == 't';
    if id == "status@c.us" {
      assert head == id[..|id| - 5] == "status";
    }
  }

  /** The priority branch: pdf, then a non-empty image list, then a single
      image, then text. Media get `message || ''` as caption. */
  function SelectContent(b: RequestBody): Content {
    if Truthy(b.pdfUrl) then PdfContent(b.pdfUrl, Or(b.message, Str("")))
    else if b.imageUrls.Arr? && |b.imageUrls.items| > 0 then ImageBatch(b.imageUrls.items, b.message)
    else if Truthy(b.imageUrl) then SingleImage(b.imageUrl, Or(b.message, Str("")))
    else if Truthy(b.message) then TextContent(b.message)
    else NoContent
  }

  /** Which content each body selects, as an if-and-only-if per branch, and
      what it carries: the pdf and the single image are sent with the message
      as caption when it is truthy and '' otherwise; the batch keeps the list
      and the message; the text is the message itself. */
  lemma SelectContentMeaning(b: RequestBody)
    ensures SelectContent(b).PdfContent? <==> Truthy(b.pdfUrl)
    ensures SelectContent(b).ImageBatch? <==>
      !Truthy(b.pdfUrl) && b.imageUrls.Arr? && |b.imageUrls.items| > 0
    ensures SelectContent(b).SingleImage? <==>
      !Truthy(b.pdfUrl) && !(b.imageUrls.Arr? && |b.imageUrls.items| > 0) && Truthy(b.imageUrl)
    ensures SelectContent(b).TextContent? <==>
      !Truthy(b.pdfUrl) && !(b.imageUrls.Arr? && |b.imageUrls.items| > 0) && !Truthy(b.imageUrl)
      && Truthy(b.message)
    ensures SelectContent(b).PdfContent? ==>
      SelectContent(b).url == b.pdfUrl
      && SelectContent(b).caption == (if Truthy(b.message) then b.message else Str(""))
    ensures SelectContent(b).ImageBatch? ==>
      SelectContent(b).urls == b.imageUrls.items && SelectContent(b).message == b.message
    ensures SelectContent(b).SingleImage? ==>
      SelectContent(b).url == b.imageUrl
      && SelectContent(b).caption == (if Truthy(b.message) then b.message else Str(""))
    ensures SelectContent(b).TextContent? ==> SelectContent(b).text == b.message
  {
  }

  /** A body that passes validation always selects exactly one content to
      send; a lower-priority field is used only when every higher one is
      falsy. */
  lemma ValidBodySelectsContent(b: RequestBody)
    requires Validate(b) == None
    ensures SelectContent(b) != NoContent
    ensures SelectContent(b).ImageBatch? ==> !Truthy(b.pdfUrl)
    ensures SelectContent(b).SingleImage? ==> !Truthy(b.pdfUrl) && !Truthy(b.imageUrls)
    ensures SelectContent(b).TextContent? ==>
      !Truthy(b.pdfUrl) && !Truthy(b.imageUrls) && !Truthy(b.imageUrl)
  {
  }
}
