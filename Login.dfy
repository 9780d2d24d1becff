/** The QR-code login state machine of QRCodeHandler, as pure transitions.

    Every platform has one slot that is empty (null) or holds the session a
    successful startScan stored. A call to the relay is not modelled as I/O:
    the decoded relay replies, the QR-code renderer, the generated request id
    and the URL decoding Bilibili uses are inputs of each step. A thrown
    exception is the Err result. */
module Login {
  import opened JsString
  import opened Cookies

  datatype Option<T> = None | Some(value: T)

  /** A call either resolves with a value or throws. */
  datatype Result<T> = Ok(value: T) | Err

  // ---------------------------------------------------------------------------
  // Platforms, statuses and sessions
  // ---------------------------------------------------------------------------

  datatype Platform = Quark | Ali | UC | Bili

  /** The platform identifiers callers pass to startScan and checkStatus. */
  function Name(p: Platform): string {
    match p
    case Quark => "quark"
    case Ali => "ali"
    case UC => "uc"
    case Bili => "bili"
  }

  /** The switch of startScan and checkStatus: the platform a name selects, if any. */
  function PlatformOf(name: string): (r: Option<Platform>)
    ensures r.Some? ==> Name(r.value) == name
  {
    if name == "quark" then Some(Quark)
    else if name == "ali" then Some(Ali)
    else if name == "uc" then Some(UC)
    else if name == "bili" then Some(Bili)
    else None
  }

  /** Every platform's own identifier selects it: the switch misses no platform. */
  lemma PlatformOfName(p: Platform)
    ensures PlatformOf(Name(p)) == Some(p)
  {
    match p
    case Quark =>
    case Ali => assert "ali" != "quark";
    case UC => assert "uc" != "quark" && "uc" != "ali";
    case Bili => assert "bili" != "quark" && "bili" != "ali" && "bili" != "uc";
  }

  datatype Status = New | Scaned | Confirmed | Canceled | Expired

  /** What a slot holds between calls: Quark and UC keep {token, request_id},
      Ali keeps {ck, t} and Bilibili keeps {qrcode_key}. */
  datatype Session =
    | TokenSession(token: string, requestId: string)
    | AliSession(ck: string, t: string)
    | BiliSession(qrcodeKey: string)

  /** The session kind a platform stores. */
  predicate Fits(p: Platform, s: Session) {
    match p
    case Quark => s.TokenSession?
    case UC => s.TokenSession?
    case Ali => s.AliSession?
    case Bili => s.BiliSession?
  }

  /** startScan resolves with {qrcode, status}. */
  datatype ScanResult = ScanResult(qrcode: string, status: Status)

  /** checkStatus resolves with {status}, {status, cookie} or {status, token}. */
  datatype PollResult = PollResult(status: Status, cookie: Option<string>, token: Option<string>)

  function Plain(status: Status): PollResult {
    PollResult(status, None, None)
  }

  /** One step of a platform: what its slot holds afterwards and how the call ends. */
  datatype Transition<T> = Transition(slot: Option<Session>, out: Result<T>)

  // ---------------------------------------------------------------------------
  // Relay replies (the decoded bodies and headers the steps read)
  // ---------------------------------------------------------------------------

  /** getTokenForQrcodeLogin (Quark and UC): data.data.members.token, or a
      failed request or a body without that path. */
  datatype TokenReply = TokenFailed | Token(token: string)

  /** Ali's qrcode/generate.do: data.content.data.{ck, t, codeContent}. */
  datatype AliGenerateReply = AliGenerateFailed | AliGenerated(ck: string, t: string, codeContent: string)

  datatype BiliQr = BiliQr(qrcodeKey: string, url: string)

  /** Bilibili's qrcode/generate: data.code and data.data (absent: None). */
  datatype BiliGenerateReply = BiliGenerateFailed | BiliGenerated(code: int, qr: Option<BiliQr>)

  /** getServiceTicketByQrcodeToken (Quark and UC): data.status and, when
      data.data.members exists, its service_ticket. */
  datatype TicketReply = TicketFailed | TicketStatus(status: int, serviceTicket: Option<string>)

  /** The set-cookie header as the relay forwards it: missing, one string or an array. */
  datatype SetCookie = Absent | One(text: string) | Many(values: seq<string>)

  /** A request whose reply headers are read (account/info, Quark's file/sort). */
  datatype CookieReply = CookieFailed | CookieHeaders(setCookie: SetCookie)

  /** The bizExt field of a confirmed Ali login: missing or empty, not
      base64-encoded JSON with pds_login_result, or carrying its refreshToken. */
  datatype BizExt = NoBizExt | Undecodable | RefreshToken(token: string)

  datatype AliQr = AliQr(qrCodeStatus: string, bizExt: BizExt)

  /** Ali's qrcode/query.do: data.content.data, None when content or its data is missing. */
  datatype AliQueryReply = AliQueryFailed | AliQueried(content: Option<AliQr>)

  datatype BiliPollData = BiliPollData(code: int, url: Option<string>)

  /** Bilibili's qrcode/poll: data.code and data.data (absent: None). */
  datatype BiliPollReply = BiliPollFailed | BiliPolled(code: int, data: Option<BiliPollData>)

  /** Everything a startScan step reads from outside. */
  datatype StartReplies = StartReplies(
    requestId: string,                  // generateUUID()
    token: TokenReply,                  // Quark or UC token request
    aliGenerate: AliGenerateReply,
    biliGenerate: BiliGenerateReply,
    render: string -> Option<string>)   // _generateQRCode: a data URL, None when it rejects

  /** Everything a checkStatus step reads from outside. */
  datatype CheckReplies = CheckReplies(
    ticket: TicketReply,                // Quark or UC service-ticket request
    accountInfo: CookieReply,           // Quark or UC account/info
    fileSort: CookieReply,              // Quark's second request, sent with the first cookie
    aliQuery: AliQueryReply,
    biliPoll: BiliPollReply,
    searchOf: string -> Option<string>) // decodeURIComponent(new URL(url).search.slice(1)), None when it throws

  // ---------------------------------------------------------------------------
  // Constants
  // ---------------------------------------------------------------------------

  const TicketConfirmed := 2000000
  const TicketExpired := 50004002
  const BiliNotScanned := 86101
  const BiliScannedNotConfirmed := 86090

  const QuarkQrPrefix := "https://su.quark.cn/4_eMHBJ?token="
  const QuarkQrSuffix := "&client_id=532&ssb=weblogin&uc_param_str=&uc_biz_str=S%3Acustom%7COPT%3ASAREA%400%7COPT%3AIMMERSIVE%401%7COPT%3ABACK_BTN_STYLE%400"
  const UcQrPrefix := "https://su.uc.cn/1_n0ZCv?token="
  const UcQrSuffix := "&client_id=381&uc_param_str=&uc_biz_str=S%3Acustom%7CC%3Atitlebar_fix"

  /** The login page Quark's QR code encodes; the token follows "token=". */
  function QuarkQrUrl(token: string): string
  {
    QuarkQrPrefix + token + QuarkQrSuffix
  }

  /** The login page UC's QR code encodes; the token follows "token=". */
  function UcQrUrl(token: string): string
  {
    UcQrPrefix + token + UcQrSuffix
  }

  // ---------------------------------------------------------------------------
  // Cookie headers
  // ---------------------------------------------------------------------------

  /** formatCookie(formatCookiesToList(text)): the credential a header text gives. */
  function HeaderCredential(text: string): string {
    Credential(List(Strings(CookieList(text))))
  }

  /** The string Quark hands to formatCookiesToList: an array is joined with
      "; ", a string is used as it is, and a missing header makes the call
      throw (None). */
  function QuarkHeaderText(h: SetCookie): Option<string>
  {
    match h
    case Absent => None
    case One(text) => Some(text)
    case Many(values) => Some(Join(values, "; "))
  }

  /** UC hands the header to formatCookiesToList as it is. A string works; an
      empty array runs no iteration and gives []; a non-empty array throws at
      its first toLowerCase, and a missing header throws at .length (None). */
  function UcHeaderText(h: SetCookie): Option<string>
  {
    match h
    case Absent => None
    case One(text) => Some(text)
    case Many(values) => if values == [] then Some("") else None
  }

  /** Quark's cookie: the account/info credential, extended with ';' and the
      file/sort credential when that one is not empty. */
  function QuarkCookie(first: string, second: string): string
  {
    if second != "" then first + ";" + second else first
  }

  /** Quark joins an array-valued set-cookie with "; " rather than ",", so
      when the only commas are those of Expires dates formatCookiesToList
      sees one entry and formatCookie keeps only the text
      before its first "; ": of several cookies only the first name=value
      survives. */
  lemma QuarkArrayHeaderKeepsFirstCookie(values: seq<string>, i: nat)
    requires |values| >= 1
    requires CommasWithinExpires(Join(values, "; "))
    requires values[0] != "" && !IsSpace(values[0][0])
    requires SemiSpaceAt(values[0], i) && i + 2 < |values[0]| && !IsSpace(values[0][i + 2])
    requires forall j :: 0 <= j < i ==> !SemiSpaceAt(values[0], j)
    ensures HeaderCredential(QuarkHeaderText(Many(values)).value) == values[0][..i]
  {
    var v := values[0];
    var j := Join(values, "; ");
    JoinStartsWithFirst(values, "; ");
    var t := Trim(j);
    TrimKeepsHead(j, v, i + 3);
    assert CookieList(j) == [t] by {
      CookieListOfOneEntry(j);
    }
    assert Strings([t]) == [Str(t)];
    FirstEntryContributes(t, v, i);
  }

  /** trim() keeps the first n characters of s when s starts with a prefix v
      whose first and n-th characters are not white space. */
  lemma TrimKeepsHead(s: string, v: string, n: nat)
    requires v <= s && 0 < n <= |v|
    requires !IsSpace(v[0]) && !IsSpace(v[n - 1])
    ensures |Trim(s)| >= n && Trim(s)[..n] == v[..n]
  {
    TrimIsInfix(s);
    assert SkipSpaces(s, 0) == 0 by { assert s[0] == v[0]; }
    var hi := DropTrailingSpaces(s, 0, |s|);
    assert hi >= n by { assert s[n - 1] == v[n - 1]; }
    assert Trim(s) == s[..hi];
  }

  /** An entry t that agrees with v up to and including the first "; " of v
      (followed by one more character) contributes v's text before it. */
  lemma FirstEntryContributes(t: string, v: string, i: nat)
    requires |t| >= i + 3 && |v| >= i + 3 && t[..i + 3] == v[..i + 3]
    requires !IsSpace(v[0]) && SemiSpaceAt(v, i)
    requires forall j :: 0 <= j < i ==> !SemiSpaceAt(v, j)
    ensures Credential(List([Str(t)])) == v[..i]
  {
    assert t[0] == v[0] && t[i] == v[i] && t[i + 1] == v[i + 1];
    forall k | 0 <= k < i
      ensures !SemiSpaceAt(t, k)
    {
      assert !SemiSpaceAt(v, k);
      assert t[k] == v[k] && t[k + 1] == v[k + 1];
    }
    EntryContributesPrefix(t, i);
    assert t[..i] == v[..i];
  }

  /** Quark's cookie is the credential of both headers' entries taken
      together, provided the first yields a part and the second yields
      either no part or a non-empty credential. */
  lemma QuarkCookieConcatenates(a: seq<JsValue>, b: seq<JsValue>)
    requires MainParts(a) != []
    requires MainParts(b) == [] || Credential(List(b)) != ""
    ensures QuarkCookie(Credential(List(a)), Credential(List(b))) == Credential(List(a + b))
  {
    MainPartsConcat(a, b);
    if MainParts(b) == [] {
      assert MainParts(a + b) == MainParts(a);
    } else {
      JoinConcat(MainParts(a), MainParts(b), ";");
    }
  }

  // ---------------------------------------------------------------------------
  // startScan steps
  // ---------------------------------------------------------------------------

  /** _startQuarkScan and _startUCScan: the token is stored with the request id
      before the QR code is rendered; any failure leaves the slot null. */
  function StartTokenLogin(qrUrl: string -> string, w: StartReplies): (r: Transition<ScanResult>)
    ensures r.out.Ok? <==> r.slot.Some?
    ensures r.out.Ok? <==> w.token.Token? && w.render(qrUrl(w.token.token)).Some?
    ensures r.out.Ok? ==>
              && r.slot == Some(TokenSession(w.token.token, w.requestId))
              && r.out.value == ScanResult(w.render(qrUrl(w.token.token)).value, New)
  {
    match w.token
    case TokenFailed => Transition(None, Err)
    case Token(token) =>
      match w.render(qrUrl(token))
      case None => Transition(None, Err)
      case Some(qrCode) => Transition(Some(TokenSession(token, w.requestId)), Ok(ScanResult(qrCode, New)))
  }

  /** _startAliScan: ck and t are stored, the QR code encodes codeContent. */
  function StartAli(w: StartReplies): (r: Transition<ScanResult>)
    ensures r.out.Ok? <==> r.slot.Some?
    ensures r.out.Ok? <==> w.aliGenerate.AliGenerated? && w.render(w.aliGenerate.codeContent).Some?
    ensures r.out.Ok? ==>
              && r.slot == Some(AliSession(w.aliGenerate.ck, w.aliGenerate.t))
              && r.out.value == ScanResult(w.render(w.aliGenerate.codeContent).value, New)
  {
    match w.aliGenerate
    case AliGenerateFailed => Transition(None, Err)
    case AliGenerated(ck, t, codeContent) =>
      match w.render(codeContent)
      case None => Transition(None, Err)
      case Some(qrCode) => Transition(Some(AliSession(ck, t)), Ok(ScanResult(qrCode, New)))
  }

  /** _startBiliScan: a non-zero data.code throws; otherwise qrcode_key is
      stored and the QR code encodes data.data.url. */
  function StartBili(w: StartReplies): (r: Transition<ScanResult>)
    ensures r.out.Ok? <==> r.slot.Some?
    ensures r.out.Ok? <==>
              && w.biliGenerate.BiliGenerated? && w.biliGenerate.code == 0 && w.biliGenerate.qr.Some?
              && w.render(w.biliGenerate.qr.value.url).Some?
    ensures r.out.Ok? ==>
              && r.slot == Some(BiliSession(w.biliGenerate.qr.value.qrcodeKey))
              && r.out.value == ScanResult(w.render(w.biliGenerate.qr.value.url).value, New)
  {
    match w.biliGenerate
    case BiliGenerateFailed => Transition(None, Err)
    case BiliGenerated(code, qr) =>
      if code != 0 || qr.None? then Transition(None, Err)
      else
        match w.render(qr.value.url)
        case None => Transition(None, Err)
        case Some(qrCode) => Transition(Some(BiliSession(qr.value.qrcodeKey)), Ok(ScanResult(qrCode, New)))
  }

  /** The step startScan runs for platform p. It never reads the slot: a new
      scan replaces whatever session was there. */
  function Start(p: Platform, w: StartReplies): (r: Transition<ScanResult>)
    ensures r.out.Ok? <==> r.slot.Some?
    ensures r.out.Ok? ==> r.out.value.status == New && Fits(p, r.slot.value)
  {
    match p
    case Quark => StartTokenLogin(QuarkQrUrl, w)
    case UC => StartTokenLogin(UcQrUrl, w)
    case Ali => StartAli(w)
    case Bili => StartBili(w)
  }

  // ---------------------------------------------------------------------------
  // checkStatus steps
  // ---------------------------------------------------------------------------

  /** Every reply a confirmed Quark ticket needs: the service ticket and the
      Set-Cookie headers of both cookie requests. */
  predicate QuarkRepliesReadable(w: CheckReplies) {
    && w.ticket.TicketStatus? && w.ticket.serviceTicket.Some?
    && w.accountInfo.CookieHeaders? && QuarkHeaderText(w.accountInfo.setCookie).Some?
    && w.fileSort.CookieHeaders? && QuarkHeaderText(w.fileSort.setCookie).Some?
  }

  /** _checkQuarkStatus. Ticket status 2000000 confirms (the slot is kept),
      50004002 expires the token (the slot is cleared), anything else is still
      pending; every failure clears the slot. */
  function CheckQuark(slot: Option<Session>, w: CheckReplies): (r: Transition<PollResult>)
    ensures slot.None? ==> r == Transition(None, Ok(Plain(Expired)))
    ensures r.slot.None? || r.slot == slot
    ensures slot.Some? ==> (r.slot.None? <==> r.out.Err? || r.out.value.status == Expired)
    ensures r.out.Ok? ==> r.out.value.status in {New, Confirmed, Expired} && r.out.value.token.None?
    ensures r.out.Ok? ==> (r.out.value.status == Confirmed <==> r.out.value.cookie.Some?)
    ensures slot.Some? && w.ticket.TicketFailed? ==> r == Transition(None, Err)
    ensures slot.Some? && w.ticket.TicketStatus? && w.ticket.status == TicketConfirmed ==>
              if QuarkRepliesReadable(w) then r.slot == slot && r.out.Ok? && r.out.value.status == Confirmed
              else r == Transition(None, Err)
    ensures slot.Some? && w.ticket.TicketStatus? && w.ticket.status != TicketConfirmed ==>
              r.out == Ok(Plain(if w.ticket.status == TicketExpired then Expired else New))
    ensures r.out.Ok? && r.out.value.status == Confirmed ==>
              && w.ticket.TicketStatus? && w.ticket.status == TicketConfirmed
              && w.accountInfo.CookieHeaders? && w.fileSort.CookieHeaders?
              && QuarkHeaderText(w.accountInfo.setCookie).Some?
              && QuarkHeaderText(w.fileSort.setCookie).Some?
              && r.out.value.cookie.value ==
                   QuarkCookie(HeaderCredential(QuarkHeaderText(w.accountInfo.setCookie).value),
                               HeaderCredential(QuarkHeaderText(w.fileSort.setCookie).value))
  {
    if slot.None? then Transition(None, Ok(Plain(Expired)))
    else
      match w.ticket
      case TicketFailed => Transition(None, Err)
      case TicketStatus(status, serviceTicket) =>
        if status == TicketConfirmed then
          if serviceTicket.None? || !w.accountInfo.CookieHeaders? then Transition(None, Err)
          else
            var cookies := QuarkHeaderText(w.accountInfo.setCookie);
            if cookies.None? || !w.fileSort.CookieHeaders? then Transition(None, Err)
            else
              var cookiesSelf := QuarkHeaderText(w.fileSort.setCookie);
              if cookiesSelf.None? then Transition(None, Err)
              else
                var cookie := QuarkCookie(HeaderCredential(cookies.value), HeaderCredential(cookiesSelf.value));
                Transition(slot, Ok(PollResult(Confirmed, Some(cookie), None)))
        else if status == TicketExpired then Transition(None, Ok(Plain(Expired)))
        else Transition(slot, Ok(Plain(New)))
  }

  /** Every reply a confirmed UC ticket needs: the service ticket and a
      single Set-Cookie header from the account request. */
  predicate UcRepliesReadable(w: CheckReplies) {
    && w.ticket.TicketStatus? && w.ticket.serviceTicket.Some?
    && w.accountInfo.CookieHeaders? && UcHeaderText(w.accountInfo.setCookie).Some?
  }

  /** _checkUCStatus: as Quark with one cookie request, except that a
      confirmed login also clears the slot. */
  function CheckUC(slot: Option<Session>, w: CheckReplies): (r: Transition<PollResult>)
    ensures slot.None? ==> r == Transition(None, Ok(Plain(Expired)))
    ensures r.slot.None? || r.slot == slot
    ensures slot.Some? ==>
              (r.slot.None? <==> r.out.Err? || r.out.value.status in {Expired, Confirmed})
    ensures r.out.Ok? ==> r.out.value.status in {New, Confirmed, Expired} && r.out.value.token.None?
    ensures r.out.Ok? ==> (r.out.value.status == Confirmed <==> r.out.value.cookie.Some?)
    ensures slot.Some? && w.ticket.TicketFailed? ==> r == Transition(None, Err)
    ensures slot.Some? && w.ticket.TicketStatus? && w.ticket.status == TicketConfirmed ==>
              if UcRepliesReadable(w) then r.slot.None? && r.out.Ok? && r.out.value.status == Confirmed
              else r == Transition(None, Err)
    ensures slot.Some? && w.ticket.TicketStatus? && w.ticket.status != TicketConfirmed ==>
              r.out == Ok(Plain(if w.ticket.status == TicketExpired then Expired else New))
    ensures r.out.Ok? && r.out.value.status == Confirmed ==>
              && w.ticket.TicketStatus? && w.ticket.status == TicketConfirmed
              && w.accountInfo.CookieHeaders? && UcHeaderText(w.accountInfo.setCookie).Some?
              && r.out.value.cookie.value == HeaderCredential(UcHeaderText(w.accountInfo.setCookie).value)
  {
    if slot.None? then Transition(None, Ok(Plain(Expired)))
    else
      match w.ticket
      case TicketFailed => Transition(None, Err)
      case TicketStatus(status, serviceTicket) =>
        if status == TicketConfirmed then
          if serviceTicket.None? || !w.accountInfo.CookieHeaders? then Transition(None, Err)
          else
            var cookies := UcHeaderText(w.accountInfo.setCookie);
            if cookies.None? then Transition(None, Err)
            else Transition(None, Ok(PollResult(Confirmed, Some(HeaderCredential(cookies.value)), None)))
        else if status == TicketExpired then Transition(None, Ok(Plain(Expired)))
        else Transition(slot, Ok(Plain(New)))
  }

  /** UC hands an array-valued set-cookie to formatCookiesToList unjoined:
      a non-empty array makes the confirmed login fail and clears the slot,
      while an empty one confirms with the empty cookie. */
  lemma UcArrayHeaderFails(slot: Option<Session>, w: CheckReplies, st: string)
    requires slot.Some? && w.ticket == TicketStatus(TicketConfirmed, Some(st))
    requires w.accountInfo.CookieHeaders? && w.accountInfo.setCookie.Many?
    ensures w.accountInfo.setCookie.values != [] ==> CheckUC(slot, w) == Transition(None, Err)
    ensures w.accountInfo.setCookie.values == [] ==>
              CheckUC(slot, w) == Transition(None, Ok(PollResult(Confirmed, Some(""), None)))
  {
  }

  /** The query answered with content whose qrCodeStatus is status. */
  predicate AliSays(w: CheckReplies, status: string) {
    w.aliQuery.AliQueried? && w.aliQuery.content.Some? && w.aliQuery.content.value.qrCodeStatus == status
  }

  /** The Ali step once a session exists and the query answered with content. */
  function AliStatus(slot: Option<Session>, q: AliQr): Transition<PollResult> {
    if q.qrCodeStatus == "CONFIRMED" then
      match q.bizExt
      case NoBizExt => Transition(slot, Ok(Plain(Expired)))
      case Undecodable => Transition(None, Err)
      case RefreshToken(token) => Transition(slot, Ok(PollResult(Confirmed, None, Some(token))))
    else if q.qrCodeStatus == "SCANED" then Transition(slot, Ok(Plain(Scaned)))
    else if q.qrCodeStatus == "CANCELED" then Transition(None, Ok(Plain(Canceled)))
    else if q.qrCodeStatus == "NEW" then Transition(slot, Ok(Plain(New)))
    else Transition(slot, Ok(Plain(Expired)))
  }

  /** _checkAliStatus: qrCodeStatus is passed on; CONFIRMED yields the refresh
      token from bizExt. Only a cancel or a failure clears the slot: an
      expired code keeps it. */
  function CheckAli(slot: Option<Session>, w: CheckReplies): (r: Transition<PollResult>)
    ensures slot.None? ==> r == Transition(None, Ok(Plain(Expired)))
    ensures r.slot.None? || r.slot == slot
    ensures slot.Some? ==> (r.slot.None? <==> r.out.Err? || r.out.value.status == Canceled)
    ensures r.out.Ok? ==> r.out.value.cookie.None?
    ensures r.out.Ok? ==> (r.out.value.status == Confirmed <==> r.out.value.token.Some?)
    ensures slot.Some? && w.aliQuery.AliQueryFailed? ==> r == Transition(None, Err)
    ensures slot.Some? && w.aliQuery == AliQueried(None) ==> r == Transition(slot, Ok(Plain(Expired)))
    ensures slot.Some? && w.aliQuery.AliQueried? && w.aliQuery.content.Some? &&
            w.aliQuery.content.value.qrCodeStatus !in {"CONFIRMED", "SCANED", "CANCELED", "NEW"} ==>
              r == Transition(slot, Ok(Plain(Expired)))
    ensures r.out == Ok(Plain(Scaned)) <==> slot.Some? && AliSays(w, "SCANED")
    ensures r.out == Ok(Plain(New)) <==> slot.Some? && AliSays(w, "NEW")
    ensures r.out == Ok(Plain(Canceled)) <==> slot.Some? && AliSays(w, "CANCELED")
    ensures slot.Some? && AliSays(w, "CONFIRMED") ==>
              match w.aliQuery.content.value.bizExt
              case RefreshToken(token) => r == Transition(slot, Ok(PollResult(Confirmed, None, Some(token))))
              case NoBizExt => r == Transition(slot, Ok(Plain(Expired)))
              case Undecodable => r == Transition(None, Err)
    ensures r.out.Ok? && r.out.value.status == Confirmed ==>
              && w.aliQuery.AliQueried? && w.aliQuery.content.Some?
              && w.aliQuery.content.value.qrCodeStatus == "CONFIRMED"
              && w.aliQuery.content.value.bizExt == RefreshToken(r.out.value.token.value)
  {
    if slot.None? then Transition(None, Ok(Plain(Expired)))
    else
      match w.aliQuery
      case AliQueryFailed => Transition(None, Err)
      case AliQueried(content) =>
        if content.None? then Transition(slot, Ok(Plain(Expired)))
        else AliStatus(slot, content.value)
  }

  /** The poll succeeded (outer code 0) with inner data.code equal to code. */
  predicate BiliSays(w: CheckReplies, code: int) {
    w.biliPoll.BiliPolled? && w.biliPoll.code == 0 && w.biliPoll.data.Some? && w.biliPoll.data.value.code == code
  }

  /** The Bilibili step for the inner data.code of a successful poll. */
  function BiliStatus(slot: Option<Session>, d: BiliPollData, searchOf: string -> Option<string>): Transition<PollResult> {
    if d.code == BiliNotScanned then Transition(slot, Ok(Plain(New)))
    else if d.code == BiliScannedNotConfirmed then Transition(slot, Ok(Plain(Scaned)))
    else if d.code == 0 then
      if d.url.None? || d.url.value == "" then Transition(slot, Ok(PollResult(Confirmed, Some(""), None)))
      else
        match searchOf(d.url.value)
        case None => Transition(None, Err)
        case Some(cookie) => Transition(slot, Ok(PollResult(Confirmed, Some(cookie), None)))
    else Transition(None, Ok(Plain(Expired)))
  }

  /** _checkBiliStatus: a non-zero outer code throws; the inner code 86101 is
      NEW, 86090 SCANED, 0 CONFIRMED with the query string of data.url as the
      cookie, and any other code expires the code and clears the slot. */
  function CheckBili(slot: Option<Session>, w: CheckReplies): (r: Transition<PollResult>)
    ensures slot.None? ==> r == Transition(None, Ok(Plain(Expired)))
    ensures r.slot.None? || r.slot == slot
    ensures slot.Some? ==> (r.slot.None? <==> r.out.Err? || r.out.value.status == Expired)
    ensures r.out.Ok? ==> r.out.value.status in {New, Scaned, Confirmed, Expired} && r.out.value.token.None?
    ensures r.out.Ok? ==> (r.out.value.status == Confirmed <==> r.out.value.cookie.Some?)
    ensures slot.Some? && (w.biliPoll.BiliPollFailed? || w.biliPoll.code != 0 || w.biliPoll.data.None?) ==>
              r == Transition(None, Err)
    ensures r.out == Ok(Plain(New)) <==> slot.Some? && BiliSays(w, BiliNotScanned)
    ensures r.out == Ok(Plain(Scaned)) <==> slot.Some? && BiliSays(w, BiliScannedNotConfirmed)
    ensures slot.Some? && BiliSays(w, 0) ==>
              var url := w.biliPoll.data.value.url;
              r == if url.None? || url.value == "" then Transition(slot, Ok(PollResult(Confirmed, Some(""), None)))
                   else if w.searchOf(url.value).None? then Transition(None, Err)
                   else Transition(slot, Ok(PollResult(Confirmed, w.searchOf(url.value), None)))
    ensures slot.Some? && w.biliPoll.BiliPolled? && w.biliPoll.code == 0 && w.biliPoll.data.Some? &&
            w.biliPoll.data.value.code !in {BiliNotScanned, BiliScannedNotConfirmed, 0} ==>
              r == Transition(None, Ok(Plain(Expired)))
    ensures r.out.Ok? && r.out.value.status == Confirmed ==>
              && w.biliPoll.BiliPolled? && w.biliPoll.code == 0 && w.biliPoll.data.Some?
              && w.biliPoll.data.value.code == 0
              && var url := w.biliPoll.data.value.url;
                 if url.None? || url.value == "" then r.out.value.cookie.value == ""
                 else w.searchOf(url.value) == Some(r.out.value.cookie.value)
  {
    if slot.None? then Transition(None, Ok(Plain(Expired)))
    else
      match w.biliPoll
      case BiliPollFailed => Transition(None, Err)
      case BiliPolled(code, data) =>
        if code != 0 || data.None? then Transition(None, Err)
        else BiliStatus(slot, data.value, w.searchOf)
  }

  /** The step checkStatus runs for platform p on the slot's content. */
  function Check(p: Platform, slot: Option<Session>, w: CheckReplies): (r: Transition<PollResult>)
    ensures slot.None? ==> r == Transition(None, Ok(Plain(Expired)))
    ensures r.slot.None? || r.slot == slot
    ensures r.out.Err? ==> r.slot.None?
  {
    match p
    case Quark => CheckQuark(slot, w)
    case UC => CheckUC(slot, w)
    case Ali => CheckAli(slot, w)
    case Bili => CheckBili(slot, w)
  }

  // ---------------------------------------------------------------------------
  // Dispatch over the slots
  // ---------------------------------------------------------------------------

  /** platformStates: one slot per platform. */
  type Slots = map<Platform, Option<Session>>

  /** The constructor's state: every platform present and null. */
  const InitialSlots: Slots := map[Quark := None, Ali := None, UC := None, Bili := None]

  /** A slot as the handler reads it (a missing key reads as empty). */
  function SlotOf(m: Slots, p: Platform): Option<Session> {
    if p in m then m[p] else None
  }

  /** Every platform has a slot and each session is of its platform's kind. */
  predicate WellFormed(m: Slots) {
    && Quark in m && Ali in m && UC in m && Bili in m
    && forall p :: p in m && m[p].Some? ==> Fits(p, m[p].value)
  }

  /** startScan(name): an unsupported name throws and changes nothing;
      otherwise only the selected platform's slot is written. */
  function StartScan(m: Slots, name: string, w: StartReplies): (r: (Slots, Result<ScanResult>))
    ensures PlatformOf(name).None? ==> r.0 == m && r.1.Err?
    ensures PlatformOf(name).Some? ==>
              var p := PlatformOf(name).value;
              && r.1 == Start(p, w).out && p in r.0 && r.0[p] == Start(p, w).slot
              && forall q :: q != p ==> (q in r.0 <==> q in m) && (q in m ==> r.0[q] == m[q])
  {
    match PlatformOf(name)
    case None => (m, Err)
    case Some(p) =>
      var t := Start(p, w);
      (m[p := t.slot], t.out)
  }

  /** checkStatus(name): an unsupported name throws and changes nothing;
      otherwise only the selected platform's slot is written. */
  function CheckStatus(m: Slots, name: string, w: CheckReplies): (r: (Slots, Result<PollResult>))
    ensures PlatformOf(name).None? ==> r.0 == m && r.1.Err?
    ensures PlatformOf(name).Some? ==>
              var p := PlatformOf(name).value;
              && r.1 == Check(p, SlotOf(m, p), w).out && p in r.0 && r.0[p] == Check(p, SlotOf(m, p), w).slot
              && forall q :: q != p ==> (q in r.0 <==> q in m) && (q in m ==> r.0[q] == m[q])
  {
    match PlatformOf(name)
    case None => (m, Err)
    case Some(p) =>
      var t := Check(p, SlotOf(m, p), w);
      (m[p := t.slot], t.out)
  }

  // ---------------------------------------------------------------------------
  // Properties of the state machine
  // ---------------------------------------------------------------------------

  /** The initial state is well formed, and checking any platform right after
      construction reports EXPIRED without touching the state. */
  lemma InitialCheckExpires(name: string, w: CheckReplies)
    ensures WellFormed(InitialSlots)
    ensures PlatformOf(name).Some? ==> CheckStatus(InitialSlots, name, w) == (InitialSlots, Ok(Plain(Expired)))
  {
    if PlatformOf(name).Some? {
      var p := PlatformOf(name).value;
      assert InitialSlots[p := None] == InitialSlots;
    }
  }

  /** startScan and checkStatus keep the slots well formed. */
  lemma StepsKeepWellFormed(m: Slots, name: string, ws: StartReplies, wc: CheckReplies)
    requires WellFormed(m)
    ensures WellFormed(StartScan(m, name, ws).0)
    ensures WellFormed(CheckStatus(m, name, wc).0)
  {
  }

  /** Once a check has cleared a slot, the next check of that platform reports
      EXPIRED whatever the relay would answer, and leaves the slot empty. */
  lemma ClearedSlotExpires(m: Slots, name: string, w1: CheckReplies, w2: CheckReplies)
    requires PlatformOf(name).Some?
    requires CheckStatus(m, name, w1).0[PlatformOf(name).value].None?
    ensures var m2 := CheckStatus(m, name, w1).0;
            CheckStatus(m2, name, w2) == (m2, Ok(Plain(Expired)))
  {
    var p := PlatformOf(name).value;
    var m2 := CheckStatus(m, name, w1).0;
    assert m2[p := None] == m2;
  }

  /** A successful startScan followed by a check whose relay reports no
      progress (Quark and UC: ticket status other than 2000000 and 50004002)
      reports NEW and keeps the stored session. */
  lemma PendingTokenLoginKeepsSession(m: Slots, p: Platform, ws: StartReplies, wc: CheckReplies)
    requires p == Quark || p == UC
    requires Start(p, ws).out.Ok?
    requires wc.ticket.TicketStatus? && wc.ticket.status != TicketConfirmed && wc.ticket.status != TicketExpired
    ensures var m1 := StartScan(m, Name(p), ws).0;
            CheckStatus(m1, Name(p), wc) == (m1, Ok(Plain(New)))
  {
    PlatformOfName(p);
    var m1 := StartScan(m, Name(p), ws).0;
    assert m1[p := m1[p]] == m1;
  }

  // ---------------------------------------------------------------------------
  // Independence of the platforms over a sequence of calls
  // ---------------------------------------------------------------------------

  datatype Call = StartCall(name: string, ws: StartReplies) | CheckCall(name: string, wc: CheckReplies)

  function Step(m: Slots, c: Call): Slots {
    match c
    case StartCall(name, ws) => StartScan(m, name, ws).0
    case CheckCall(name, wc) => CheckStatus(m, name, wc).0
  }

  /** The slots after a sequence of calls on one handler. */
  function Run(m: Slots, calls: seq<Call>): Slots
    decreases |calls|
  {
    if calls == [] then m else Run(Step(m, calls[0]), calls[1..])
  }

  /** Reference definition: platform p's slot driven by the calls naming p alone. */
  function SlotRun(p: Platform, slot: Option<Session>, calls: seq<Call>): Option<Session>
    decreases |calls|
  {
    if calls == [] then slot
    else
      var c := calls[0];
      var next :=
        if PlatformOf(c.name) != Some(p) then slot
        else match c
          case StartCall(_, ws) => Start(p, ws).slot
          case CheckCall(_, wc) => Check(p, slot, wc).slot;
      SlotRun(p, next, calls[1..])
  }

  /** The platforms do not interfere: after any sequence of calls, a platform's
      slot is what the calls naming that platform make of it on their own. */
  lemma {:induction false} RunIsolation(m: Slots, calls: seq<Call>, p: Platform)
    ensures SlotOf(Run(m, calls), p) == SlotRun(p, SlotOf(m, p), calls)
    decreases |calls|
  {
    if calls != [] {
      var m1 := Step(m, calls[0]);
      RunIsolation(m1, calls[1..], p);
    }
  }
}
