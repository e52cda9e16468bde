/** subscribe/airport.py: the state an `AirPort` keeps about one site, the
    `subscription-userinfo` bookkeeping, the record it stores, the
    resubscription test and the checks made before registering. The HTTP
    calls, the mailbox and the random account data are given as inputs. */
module Airport {
  import opened Wrappers
  import opened Strings
  import opened PyValue
  import opened Codecs
  import opened Store
  import opened UserInfo

  /** The fields of an `AirPort` the modelled operations read or write.
      `proxyCount` is `len(self.proxies)`. */
  datatype AirPort = AirPort(
    site: string,
    coupon: string,
    subscription: string,
    username: string,
    password: string,
    available: bool,
    commConfig: Record,
    totalTrafic: int,
    usedTrafic: int,
    subscriptionExpire: Value,
    proxyCount: nat)

  /** `AirPort(site, coupon)`: trailing slashes dropped from the site, the
      coupon stripped, everything else at its initial value. */
  function NewAirPort(site: string, coupon: string): (a: AirPort)
    ensures |a.site| <= |site| && a.site == site[..|a.site|]
    ensures forall i :: |a.site| <= i < |site| ==> site[i] == '/'
    ensures !EndsWith(a.site, "/")
    ensures a.coupon == Strip(coupon)
    ensures a.available && a.subscription == "" && a.username == "" && a.password == ""
    ensures a.totalTrafic == 0 && a.usedTrafic == 0 && a.subscriptionExpire == Str("") && a.proxyCount == 0
  {
    var s := RStripChar(site, '/');
    var c := if Strip(coupon) != "" then Strip(coupon) else "";
    AirPort(s, c, "", "", "", true, map[], 0, 0, Str(""), 0)
  }

  /** Building an `AirPort` from a site that was already cleaned keeps it. */
  lemma SiteCleanIdempotent(site: string, coupon: string)
    ensures NewAirPort(NewAirPort(site, coupon).site, coupon).site == NewAirPort(site, coupon).site
  {
  }

  // ---------------------------------------------------------------------
  // parse_subscription_user_info
  // ---------------------------------------------------------------------

  /** `parse_subscription_user_info(t)`. The assignments run in order and the
      exception handler keeps whatever was assigned before the failure: a
      malformed header changes nothing, a header with `total` but without
      `upload`/`download` updates only the total. */
  function ParseSubscriptionUserInfo(a: AirPort, t: string): (r: AirPort)
    ensures r == a.(totalTrafic := r.totalTrafic, usedTrafic := r.usedTrafic, subscriptionExpire := r.subscriptionExpire)
    ensures Header(t).None? ==> r == a
    ensures Header(t).Some? && "total" !in Header(t).value ==> r == a
    ensures Header(t).Some? && "total" in Header(t).value ==> r.totalTrafic == Header(t).value["total"]
    ensures (Header(t).Some? && "total" in Header(t).value && ("upload" !in Header(t).value || "download" !in Header(t).value)
      ==> r == a.(totalTrafic := Header(t).value["total"]))
    ensures (Header(t).Some? && HasTrafficKeys(Header(t).value) ==>
      r == WithTraffic(a, Header(t).value))
  {
    match Header(t)
    case None => a
    case Some(v) =>
      if "total" !in v then a
      else
        var a1 := a.(totalTrafic := v["total"]);
        if "upload" !in v || "download" !in v then a1
        else
          var a2 := a1.(usedTrafic := v["upload"] + v["download"]);
          if "expire" !in v then a2 else a2.(subscriptionExpire := Int(v["expire"]))
  }

  /** The airport with the total, the used traffic (upload plus download)
      and the expiry of a complete header. */
  function WithTraffic(a: AirPort, v: map<string, int>): AirPort
    requires HasTrafficKeys(v)
  {
    a.(totalTrafic := v["total"], usedTrafic := v["upload"] + v["download"], subscriptionExpire := Int(v["expire"]))
  }

  /** A header written as `k=n; …` from pairs naming all four keys sets the
      total, the used traffic (upload plus download) and the expiry to the
      pairs' last values for those keys. */
  lemma UserInfoRoundTrip(a: AirPort, kvs: seq<(string, nat)>)
    requires |kvs| > 0 && PlainKeys(kvs) && HasTrafficKeys(PairsMap(kvs))
    ensures var v := PairsMap(kvs);
      ParseSubscriptionUserInfo(a, Join(HeaderItems(kvs), "; "))
        == WithTraffic(a, v)
  {
    var t := Join(HeaderItems(kvs), "; ");
    var v := PairsMap(kvs);
    HeaderRoundTrip(kvs);
    assert Header(t) == Some(v);
    FullHeader(a, t, v);
  }

  lemma FullHeader(a: AirPort, t: string, v: map<string, int>)
    requires Header(t) == Some(v) && HasTrafficKeys(v)
    ensures ParseSubscriptionUserInfo(a, t)
      == WithTraffic(a, v)
  {
  }

  // ---------------------------------------------------------------------
  // to_dict
  // ---------------------------------------------------------------------

  /** `to_dict()`; `title` is what `_get_site_title()` fetched. */
  function ToDict(a: AirPort, title: string): (r: Record)
    ensures "url" in r && "available" in r && "coupon" in r && "comm_config" in r
    ensures r["url"] == Str(a.site) && r["available"] == Bool(a.available) && r["coupon"] == Str(a.coupon)
    ensures r["comm_config"] == Dict(a.commConfig)
    ensures "userinfo" in r <==> a.username != "" && a.password != ""
    ensures ("userinfo" in r ==>
      r["userinfo"] == Dict(map["username" := Str(a.username), "password" := Str(a.password)]))
    ensures "subscription" in r <==> a.subscription != ""
    ensures "title" in r <==> a.subscription != ""
    ensures "total_trafic" in r <==> a.subscription != "" && a.totalTrafic > 0
    ensures "used_trafic" in r <==> "total_trafic" in r
    ensures "subscription_expire" in r <==> "total_trafic" in r
    ensures "proxy_num" in r <==> "total_trafic" in r
    ensures ("total_trafic" in r ==>
      r["total_trafic"] == Int(a.totalTrafic) && r["used_trafic"] == Int(a.usedTrafic)
      && r["subscription_expire"] == a.subscriptionExpire && r["proxy_num"] == Int(a.proxyCount))
    ensures (r.Keys <= {"url", "comm_config", "available", "coupon", "userinfo", "subscription", "total_trafic",
      "used_trafic", "subscription_expire", "proxy_num", "title"})
  {
    var base := map["url" := Str(a.site), "comm_config" := Dict(a.commConfig),
                    "available" := Bool(a.available), "coupon" := Str(a.coupon)];
    var withUser :=
      if a.username != "" && a.password != "" then
        base["userinfo" := Dict(map["username" := Str(a.username), "password" := Str(a.password)])]
      else base;
    if a.subscription == "" then withUser
    else
      var withSub := withUser["subscription" := Str(a.subscription)];
      var withTraffic :=
        if a.totalTrafic > 0 then
          withSub["total_trafic" := Int(a.totalTrafic)]["used_trafic" := Int(a.usedTrafic)]
                 ["subscription_expire" := a.subscriptionExpire]["proxy_num" := Int(a.proxyCount)]
        else withSub;
      withTraffic["title" := Str(title)]
  }

  // ---------------------------------------------------------------------
  // check_need_resubscribe
  // ---------------------------------------------------------------------

  /** `get_item_from_db()`: the stored record parsed back, `{}` when the site
      is not stored or its text is not JSON. */
  function ItemFromDb(lib: Lib, t: Table, site: string): (r: Value)
    ensures site !in t ==> r == Dict(map[])
    ensures GetLoaded(lib, t, site).Some? ==> r == GetLoaded(lib, t, site).value
  {
    match GetLoaded(lib, t, site)
    case None => Dict(map[])
    case Some(v) => v
  }

  /** The test `check_need_resubscribe` applies to the stored item at time
      `now`: used traffic at least the total, or the expiry not before now
      (a missing expiry reads as now); any exception answers `true`. */
  function NeedResubscribe(item: Value, now: int): (r: bool)
    ensures !item.Dict? ==> r
    ensures ((item.Dict? && GetOr(item.fields, "used_trafic", Int(0)).Int? && GetOr(item.fields, "total_trafic", Int(0)).Int?
      && GetOr(item.fields, "subscription_expire", Int(now)).Int?) ==>
        (r <==> GetOr(item.fields, "used_trafic", Int(0)).i >= GetOr(item.fields, "total_trafic", Int(0)).i
                || GetOr(item.fields, "subscription_expire", Int(now)).i >= now))
    ensures (item.Dict? && PyGe(GetOr(item.fields, "used_trafic", Int(0)), GetOr(item.fields, "total_trafic", Int(0))).None?) ==> r
  {
    if !item.Dict? then true
    else
      var f := item.fields;
      match PyGe(GetOr(f, "used_trafic", Int(0)), GetOr(f, "total_trafic", Int(0)))
      case None => true
      case Some(true) => true
      case Some(false) =>
        match PyGe(GetOr(f, "subscription_expire", Int(now)), Int(now))
        case None => true
        case Some(b) => b
  }

  /** `check_need_resubscribe()` for the site's stored record. */
  function CheckNeedResubscribe(lib: Lib, t: Table, a: AirPort, now: int): (r: bool)
    ensures a.site !in t ==> r
  {
    NeedResubscribe(ItemFromDb(lib, t, a.site), now)
  }

  /** A record `to_dict` wrote for a site with traffic left and an expiry
      already past does not need a new subscription; one without traffic
      figures always does. */
  lemma StoredRecordResubscribe(a: AirPort, title: string, now: int)
    requires a.subscriptionExpire.Int?
    ensures (a.subscription != "" && 0 <= a.usedTrafic < a.totalTrafic && a.subscriptionExpire.i < now
      ==> !NeedResubscribe(Dict(ToDict(a, title)), now))
    ensures !(a.subscription != "" && a.totalTrafic > 0) ==> NeedResubscribe(Dict(ToDict(a, title)), now)
  {
  }

  // ---------------------------------------------------------------------
  // get_subscribe: the registration gate
  // ---------------------------------------------------------------------

  /** What `get_common_config` reports about a site. */
  datatype CommonConfig = CommonConfig(needVerify: bool, inviteForce: bool, recaptcha: bool, emailWhitelist: seq<string>)

  /** The `comm_config` stored with the airport. */
  function CommConfig(cc: CommonConfig): (r: Record)
    ensures r.Keys == {"need_verify", "invite_force", "recaptcha"}
    ensures r["need_verify"] == Bool(cc.needVerify) && r["invite_force"] == Bool(cc.inviteForce) && r["recaptcha"] == Bool(cc.recaptcha)
  {
    map["need_verify" := Bool(cc.needVerify), "invite_force" := Bool(cc.inviteForce), "recaptcha" := Bool(cc.recaptcha)]
  }

  /** The site cannot be registered on: an invite code is required but none
      was given, it shows a captcha and captcha sites are skipped, or it
      verifies e-mail against a whitelist without gmail. */
  predicate RegistrationBlocked(cc: CommonConfig, inviteCode: string, skipCaptchaSite: bool) {
    (cc.inviteForce && inviteCode == "")
    || (skipCaptchaSite && cc.recaptcha)
    || (|cc.emailWhitelist| > 0 && cc.needVerify && "gmail.com" !in cc.emailWhitelist)
  }

  /** How `get_subscribe` proceeds before creating an account. */
  datatype Start =
    | NoNeed                   // `check_need_resubscribe()` was false: nothing changes
    | Refused(a: AirPort)      // registration is impossible: marked unavailable
    | Register(a: AirPort)     // go on to register

  /** The opening of `get_subscribe`; `inviteCode` is the trimmed code. */
  function GetSubscribeStart(a: AirPort, needResubscribe: bool, cc: CommonConfig,
                             inviteCode: string, skipCaptchaSite: bool): (r: Start)
    ensures !needResubscribe <==> r.NoNeed?
    ensures r.Refused? <==> needResubscribe && RegistrationBlocked(cc, inviteCode, skipCaptchaSite)
    ensures r.Refused? ==> r.a == a.(commConfig := CommConfig(cc), available := false)
    ensures r.Register? ==> r.a == a.(commConfig := CommConfig(cc))
  {
    if !needResubscribe then NoNeed
    else
      var a1 := a.(commConfig := CommConfig(cc));
      if RegistrationBlocked(cc, inviteCode, skipCaptchaSite) then Refused(a1.(available := false))
      else Register(a1)
  }

  /** A site that verifies e-mail against a whitelist including gmail, with
      no forced invite and no captcha, goes on to registration. */
  lemma GmailWhitelistRegisters(a: AirPort, cc: CommonConfig, inviteCode: string, skipCaptchaSite: bool)
    requires !cc.inviteForce && !cc.recaptcha && cc.needVerify && "gmail.com" in cc.emailWhitelist
    ensures GetSubscribeStart(a, true, cc, inviteCode, skipCaptchaSite).Register?
  {
  }

  /** The default mail domains used when a site has no whitelist. */
  const EmailDomains: seq<string> := ["gmail.com", "outlook.com", "163.com", "126.com", "sina.com",
                                       "hotmail.com", "qq.com", "foxmail.com", "hotmail.com", "yahoo.com"]

  /** The domains `random.choice` draws from when no verification is needed. */
  function DomainChoices(cc: CommonConfig): (r: seq<string>)
    ensures |r| > 0
    ensures |cc.emailWhitelist| > 0 ==> r == cc.emailWhitelist
    ensures |cc.emailWhitelist| == 0 ==> forall i :: 0 <= i < |r| ==> r[i] != ""
  {
    if |cc.emailWhitelist| > 0 then cc.emailWhitelist else EmailDomains
  }

  /** The address registered with: `username@domain` for the drawn domain
      (`pick` is the draw); `None` when that domain is empty, which ends the attempt. */
  function RegistrationEmail(cc: CommonConfig, username: string, pick: nat): (r: Option<string>)
    requires pick < |DomainChoices(cc)|
    ensures |cc.emailWhitelist| == 0 ==> r.Some?
    ensures r.Some? ==> r.value == username + "@" + DomainChoices(cc)[pick]
  {
    var domain := DomainChoices(cc)[pick];
    if domain == "" then None else Some(username + "@" + domain)
  }

  // ---------------------------------------------------------------------
  // send_email_verify
  // ---------------------------------------------------------------------

  /** What one `POST` to the e-mail verification endpoint gives: `Failed`
      for a request error or a 200 reply whose body is not JSON (the two
      errors `send_email_verify` catches), or a reply with its status and
      its decoded JSON body. */
  datatype Reply = Failed | Answered(status: int, body: Value)

  /** What an answered post returns: `False` unless the status is 200, then
      `response.json().get("data", False)`, which raises (`None`) when the
      body is not a JSON object. */
  function ReplyValue(status: int, body: Value): (r: Option<Value>)
    ensures status != 200 ==> r == Some(Bool(false))
    ensures status == 200 ==> (r.Some? <==> body.Dict?)
    ensures (status == 200 && body.Dict? && "data" !in body.fields ==> r == Some(Bool(false)))
    ensures (status == 200 && body.Dict? && "data" in body.fields ==> r == Some(body.fields["data"]))
  {
    if status != 200 then Some(Bool(false))
    else if body.Dict? then Some(GetOr(body.fields, "data", Bool(false)))
    else None
  }

  /** `send_email_verify(email, retry)`, with `reply(k)` the outcome of the
      k-th post from `k0` on. Returns the result (`None` when it raises) and
      the number of posts made. A blank address or a non-positive `retry`
      answers `False` at once; a caught error is retried with one retry
      fewer. */
  function SendEmailVerify(email: string, retry: int, reply: nat -> Reply, k0: nat): (r: (Option<Value>, nat))
    ensures r.1 <= (if retry > 0 then retry else 0)
    ensures IsBlank(email) || retry <= 0 ==> r == (Some(Bool(false)), 0)
    ensures (!IsBlank(email) && retry > 0 && reply(k0).Answered? ==>
      r == (ReplyValue(reply(k0).status, reply(k0).body), 1))
    decreases if retry > 0 then retry else 0
  {
    if IsBlank(email) || retry <= 0 then (Some(Bool(false)), 0)
    else
      match reply(k0)
      case Failed =>
        var (v, n) := SendEmailVerify(email, retry - 1, reply, k0 + 1);
        (v, n + 1)
      case Answered(status, body) => (ReplyValue(status, body), 1)
  }

  /** The first post that is answered decides: after `j` caught errors, the
      `j`-th reply's value is the result, with `j + 1` posts made, provided
      a retry is left for it. */
  lemma {:induction false} FirstAnswerDecides(email: string, retry: int, reply: nat -> Reply, k0: nat, j: nat)
    requires !IsBlank(email) && j < retry
    requires forall k: nat :: k0 <= k < k0 + j ==> reply(k).Failed?
    requires reply(k0 + j).Answered?
    ensures SendEmailVerify(email, retry, reply, k0) == (ReplyValue(reply(k0 + j).status, reply(k0 + j).body), j + 1)
    decreases j
  {
    if j > 0 {
      assert reply(k0).Failed?;
      FirstAnswerDecides(email, retry - 1, reply, k0 + 1, j - 1);
    }
  }

  /** The form posted: the stripped address. */
  function EmailForm(email: string): (r: Record)
    ensures r.Keys == {"email"} && r["email"] == Str(Strip(email))
  {
    map["email" := Str(Strip(email))]
  }

  /** When every post fails, exactly `retry` posts are made and the answer is `False`. */
  lemma {:induction false} AllFailuresExhaustRetries(email: string, retry: nat, reply: nat -> Reply, k0: nat)
    requires !IsBlank(email)
    requires forall k: nat :: k0 <= k < k0 + retry ==> reply(k).Failed?
    ensures SendEmailVerify(email, retry, reply, k0) == (Some(Bool(false)), retry)
    decreases retry
  {
    if retry > 0 {
      AllFailuresExhaustRetries(email, retry - 1, reply, k0 + 1);
    }
  }
}
