/** QRCodeHandler: the object a page keeps between calls. Its platformStates
    holds one slot per platform, and every method updates the slot of its own
    platform in place, step by step as the handler does, proved equal to the
    transitions of module Login. */
module Handler {
  import opened Cookies
  import opened Login

  class QRCodeHandler {
    var platformStates: Slots

    /** Every platform has a slot and each holds a session of its own kind. */
    ghost predicate Valid()
      reads this
    {
      WellFormed(platformStates)
    }

    /** All four slots start null. */
    constructor ()
      ensures Valid()
      ensures platformStates == InitialSlots
    {
      platformStates := map[Quark := None, Ali := None, UC := None, Bili := None];
    }

    method StartScan(platform: string, w: StartReplies) returns (r: Result<ScanResult>)
      requires Valid()
      modifies this
      ensures Valid()
      ensures (platformStates, r) == Login.StartScan(old(platformStates), platform, w)
    {
      var p := PlatformOf(platform);
      if p == Some(Quark) {
        r := StartQuarkScan(w);
      } else if p == Some(Ali) {
        r := StartAliScan(w);
      } else if p == Some(UC) {
        r := StartUCScan(w);
      } else if p == Some(Bili) {
        r := StartBiliScan(w);
      } else {
        r := Err;
      }
    }

    method CheckStatus(platform: string, w: CheckReplies) returns (r: Result<PollResult>)
      requires Valid()
      modifies this
      ensures Valid()
      ensures (platformStates, r) == Login.CheckStatus(old(platformStates), platform, w)
    {
      var p := PlatformOf(platform);
      if p == Some(Quark) {
        r := CheckQuarkStatus(w);
      } else if p == Some(Ali) {
        r := CheckAliStatus(w);
      } else if p == Some(UC) {
        r := CheckUCStatus(w);
      } else if p == Some(Bili) {
        r := CheckBiliStatus(w);
      } else {
        r := Err;
      }
    }

    method StartQuarkScan(w: StartReplies) returns (r: Result<ScanResult>)
      requires Valid()
      modifies this
      ensures Valid()
      ensures platformStates == old(platformStates)[Quark := Start(Quark, w).slot]
      ensures r == Start(Quark, w).out
    {
      if w.token.TokenFailed? {
        platformStates := platformStates[Quark := None];
        return Err;
      }
      var qcToken := w.token.token;
      var qrUrl := QuarkQrUrl(qcToken);
      platformStates := platformStates[Quark := Some(TokenSession(qcToken, w.requestId))];
      var qrCode := w.render(qrUrl);
      if qrCode.None? {
        platformStates := platformStates[Quark := None];
        return Err;
      }
      return Ok(ScanResult(qrCode.value, New));
    }

    method StartUCScan(w: StartReplies) returns (r: Result<ScanResult>)
      requires Valid()
      modifies this
      ensures Valid()
      ensures platformStates == old(platformStates)[UC := Start(UC, w).slot]
      ensures r == Start(UC, w).out
    {
      if w.token.TokenFailed? {
        platformStates := platformStates[UC := None];
        return Err;
      }
      var token := w.token.token;
      var qrUrl := UcQrUrl(token);
      platformStates := platformStates[UC := Some(TokenSession(token, w.requestId))];
      var qrCode := w.render(qrUrl);
      if qrCode.None? {
        platformStates := platformStates[UC := None];
        return Err;
      }
      return Ok(ScanResult(qrCode.value, New));
    }

    method StartAliScan(w: StartReplies) returns (r: Result<ScanResult>)
      requires Valid()
      modifies this
      ensures Valid()
      ensures platformStates == old(platformStates)[Ali := Start(Ali, w).slot]
      ensures r == Start(Ali, w).out
    {
      if w.aliGenerate.AliGenerateFailed? {
        platformStates := platformStates[Ali := None];
        return Err;
      }
      var contentData := w.aliGenerate;
      platformStates := platformStates[Ali := Some(AliSession(contentData.ck, contentData.t))];
      var qrCode := w.render(contentData.codeContent);
      if qrCode.None? {
        platformStates := platformStates[Ali := None];
        return Err;
      }
      return Ok(ScanResult(qrCode.value, New));
    }

    method StartBiliScan(w: StartReplies) returns (r: Result<ScanResult>)
      requires Valid()
      modifies this
      ensures Valid()
      ensures platformStates == old(platformStates)[Bili := Start(Bili, w).slot]
      ensures r == Start(Bili, w).out
    {
      if w.biliGenerate.BiliGenerateFailed? || w.biliGenerate.code != 0 || w.biliGenerate.qr.None? {
        platformStates := platformStates[Bili := None];
        return Err;
      }
      var qrcodeData := w.biliGenerate.qr.value;
      platformStates := platformStates[Bili := Some(BiliSession(qrcodeData.qrcodeKey))];
      var qrCode := w.render(qrcodeData.url);
      if qrCode.None? {
        platformStates := platformStates[Bili := None];
        return Err;
      }
      return Ok(ScanResult(qrCode.value, New));
    }

    /** formatCookie(formatCookiesToList(text)), run step by step. */
    static method FormatHeader(text: string) returns (credential: string)
      ensures credential == HeaderCredential(text)
    {
      var list := FormatCookiesToList(text);
      credential := FormatCookie(List(Strings(list)));
    }

    method CheckQuarkStatus(w: CheckReplies) returns (r: Result<PollResult>)
      requires Valid()
      modifies this
      ensures Valid()
      ensures platformStates == old(platformStates)[Quark := Check(Quark, old(platformStates)[Quark], w).slot]
      ensures r == Check(Quark, old(platformStates)[Quark], w).out
    {
      var state := platformStates[Quark];
      if state.None? {
        return Ok(Plain(Expired));
      }
      if w.ticket.TicketFailed? {
        platformStates := platformStates[Quark := None];
        return Err;
      }
      if w.ticket.status == TicketConfirmed {
        if w.ticket.serviceTicket.None? || w.accountInfo.CookieFailed? {
          platformStates := platformStates[Quark := None];
          return Err;
        }
        var cookies := QuarkHeaderText(w.accountInfo.setCookie);
        if cookies.None? {
          platformStates := platformStates[Quark := None];
          return Err;
        }
        var mainCookies := FormatHeader(cookies.value);
        if w.fileSort.CookieFailed? {
          platformStates := platformStates[Quark := None];
          return Err;
        }
        var cookiesSelf := QuarkHeaderText(w.fileSort.setCookie);
        if cookiesSelf.None? {
          platformStates := platformStates[Quark := None];
          return Err;
        }
        var mainCookiesSelf := FormatHeader(cookiesSelf.value);
        if mainCookiesSelf != "" {
          mainCookies := mainCookies + ";" + mainCookiesSelf;
        }
        return Ok(PollResult(Confirmed, Some(mainCookies), None));
      } else if w.ticket.status == TicketExpired {
        platformStates := platformStates[Quark := None];
        return Ok(Plain(Expired));
      } else {
        return Ok(Plain(New));
      }
    }

    method CheckUCStatus(w: CheckReplies) returns (r: Result<PollResult>)
      requires Valid()
      modifies this
      ensures Valid()
      ensures platformStates == old(platformStates)[UC := Check(UC, old(platformStates)[UC], w).slot]
      ensures r == Check(UC, old(platformStates)[UC], w).out
    {
      var state := platformStates[UC];
      if state.None? {
        return Ok(Plain(Expired));
      }
      if w.ticket.TicketFailed? {
        platformStates := platformStates[UC := None];
        return Err;
      }
      if w.ticket.status == TicketConfirmed {
        if w.ticket.serviceTicket.None? || w.accountInfo.CookieFailed? {
          platformStates := platformStates[UC := None];
          return Err;
        }
        var cookies := UcHeaderText(w.accountInfo.setCookie);
        if cookies.None? {
          platformStates := platformStates[UC := None];
          return Err;
        }
        var mainCookies := FormatHeader(cookies.value);
        platformStates := platformStates[UC := None];
        return Ok(PollResult(Confirmed, Some(mainCookies), None));
      } else if w.ticket.status == TicketExpired {
        platformStates := platformStates[UC := None];
        return Ok(Plain(Expired));
      } else {
        return Ok(Plain(New));
      }
    }

    method CheckAliStatus(w: CheckReplies) returns (r: Result<PollResult>)
      requires Valid()
      modifies this
      ensures Valid()
      ensures platformStates == old(platformStates)[Ali := Check(Ali, old(platformStates)[Ali], w).slot]
      ensures r == Check(Ali, old(platformStates)[Ali], w).out
    {
      var state := platformStates[Ali];
      if state.None? {
        return Ok(Plain(Expired));
      }
      if w.aliQuery.AliQueryFailed? {
        platformStates := platformStates[Ali := None];
        return Err;
      }
      if w.aliQuery.content.None? {
        return Ok(Plain(Expired));
      }
      var data := w.aliQuery.content.value;
      var status := data.qrCodeStatus;
      if status == "CONFIRMED" {
        match data.bizExt {
          case RefreshToken(token) =>
            return Ok(PollResult(Confirmed, None, Some(token)));
          case Undecodable =>
            platformStates := platformStates[Ali := None];
            return Err;
          case NoBizExt =>
            return Ok(Plain(Expired));
        }
      } else if status == "SCANED" {
        return Ok(Plain(Scaned));
      } else if status == "CANCELED" {
        platformStates := platformStates[Ali := None];
        return Ok(Plain(Canceled));
      } else if status == "NEW" {
        return Ok(Plain(New));
      } else {
        return Ok(Plain(Expired));
      }
    }

    method CheckBiliStatus(w: CheckReplies) returns (r: Result<PollResult>)
      requires Valid()
      modifies this
      ensures Valid()
      ensures platformStates == old(platformStates)[Bili := Check(Bili, old(platformStates)[Bili], w).slot]
      ensures r == Check(Bili, old(platformStates)[Bili], w).out
    {
      var state := platformStates[Bili];
      if state.None? {
        return Ok(Plain(Expired));
      }
      if w.biliPoll.BiliPollFailed? || w.biliPoll.code != 0 || w.biliPoll.data.None? {
        platformStates := platformStates[Bili := None];
        return Err;
      }
      var data := w.biliPoll.data.value;
      if data.code == BiliNotScanned {
        return Ok(Plain(New));
      } else if data.code == BiliScannedNotConfirmed {
        return Ok(Plain(Scaned));
      } else if data.code == 0 {
        var cookie := "";
        if data.url.Some? && data.url.value != "" {
          var search := w.searchOf(data.url.value);
          if search.None? {
            platformStates := platformStates[Bili := None];
            return Err;
          }
          cookie := search.value;
        }
        return Ok(PollResult(Confirmed, Some(cookie), None));
      } else {
        platformStates := platformStates[Bili := None];
        return Ok(Plain(Expired));
      }
    }
  }
}
