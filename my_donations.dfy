/** The donor's own donations page, src/pages/MyDonations.jsx, apart from the markdown
    renderer (module TipsMarkdown): the donation list, the cancel action, the storage-tips
    modal and what it shows, and the dates the expiry calendar highlights. */
module MyDonations {
  import opened Wrappers
  import opened Text
  import opened Json
  import opened Effects
  import opened Api
  import opened TipsMarkdown

  const MyDonationsPath: string := "/donations/my"
  const StorageTipsPath: string := "/ai/storage-tips"
  const Cancelled: string := "CANCELLED"
  const LoadFailed: string := "Failed to load donations"
  const DonationCancelled: string := "Donation cancelled"
  const CancelFailed: string := "Failed to cancel"
  const TipsFailed: string := "Failed to fetch storage tips"

  /** `/donations/${id}/cancel`: a POST without a body whose path carries the id's
      text between the fixed prefix and suffix. */
  function CancelRequest(id: Json): (c: Config)
    ensures c.verb == "POST" && c.body == None && c.params == map[] && c.headers == map[]
    ensures |c.url| == 18 + |ToStr(id)|
    ensures c.url[..11] == "/donations/" && c.url[|c.url| - 7..] == "/cancel"
    ensures c.url[11..|c.url| - 7] == ToStr(id)
  {
    PostRequest("/donations/" + ToStr(id) + "/cancel", None)
  }

  /** The tips request names the donation by its title, or its description when the
      title is falsy; with neither the parameter is not sent. */
  function StorageTipsRequest(donation: Json): (c: Config)
    ensures c.url == StorageTipsPath && c.verb == "GET"
    ensures TruthyOpt(Get(donation, "title")) ==> c.params == map["name" := Get(donation, "title").value]
    ensures !TruthyOpt(Get(donation, "title")) && Present(donation, "description") ==>
      c.params == map["name" := Get(donation, "description").value]
    ensures !TruthyOpt(Get(donation, "title")) && !Present(donation, "description") ==> c.params == map[]
    ensures "name" in c.params ==> c.params["name"] != JNull
  {
    GetRequest(StorageTipsPath, WithParam(map[], "name", OrOpt(Get(donation, "title"), Get(donation, "description"))))
  }

  /** What the tips modal body shows. */
  datatype TipsView =
    | LoadingTips               // "Loading tips..."
    | TipsError(error: Json)    // the content's `error` text
    | NoTips                    // "No tips returned."
    | Tips(blocks: seq<Block>)  // the rendered markdown

  /** The text to render: the content itself when it is a string, else its `tips`,
      else its `text`, else "". */
  function TipsSource(content: Json): (raw: Json)
    ensures content.JStr? ==> raw == content
    ensures !content.JStr? && TruthyOpt(Get(content, "tips")) ==> raw == Get(content, "tips").value
    ensures !content.JStr? && !TruthyOpt(Get(content, "tips")) && TruthyOpt(Get(content, "text")) ==>
      raw == Get(content, "text").value
    ensures !content.JStr? && !TruthyOpt(Get(content, "tips")) && !TruthyOpt(Get(content, "text")) ==>
      raw == JStr("")
    ensures !content.JStr? ==> Truthy(raw) || raw == JStr("")
  {
    if content.JStr? then content
    else Or(Get(content, "tips"), Or(Get(content, "text"), JStr("")))
  }

  /** The modal body: loading while there is no content, the error when the content
      carries one, the notice when the tips text is blank, the rendered tips otherwise. */
  function ViewTips(content: Json): (v: TipsView)
    ensures v == LoadingTips <==> !Truthy(content)
    ensures v.TipsError? <==> Truthy(content) && TruthyOpt(Get(content, "error"))
    ensures v.TipsError? ==> v.error == Get(content, "error").value
    ensures v == NoTips <==>
      Truthy(content) && !TruthyOpt(Get(content, "error")) && Trim(ToStr(TipsSource(content))) == ""
    ensures v.Tips? ==> Some(v.blocks) == RenderTips(TipsSource(content))
  {
    if !Truthy(content) then LoadingTips
    else if TruthyOpt(Get(content, "error")) then TipsError(Get(content, "error").value)
    else
      var raw := TipsSource(content);
      if !Truthy(raw) || Trim(ToStr(raw)) == "" then NoTips
      else Tips(RenderTips(raw).value)
  }

  /** A falsy tips source prints as blank text, so the blank check alone decides. */
  lemma FalsySourceIsBlank(content: Json)
    requires !content.JStr?
    ensures !Truthy(TipsSource(content)) ==> Trim(ToStr(TipsSource(content))) == ""
  {
    assert Trim("") == "";
  }

  /** A string body is rendered as it is, unless it is blank. */
  lemma StringTipsRendered(s: string)
    requires Trim(s) != ""
    ensures ViewTips(JStr(s)) == Tips(BlocksFrom(Lines(JStr(s)), 0))
  {
  }

  /** A failed fetch shows the fixed error text, never tips. */
  lemma FailedFetchShowsError()
    ensures ViewTips(JObj(map["error" := JStr(TipsFailed)])) == TipsError(JStr(TipsFailed))
  {
    assert Get(JObj(map["error" := JStr(TipsFailed)]), "error") == Some(JStr(TipsFailed));
  }

  /** `d.expiryAt` of every donation whose `expiryAt` is truthy, in list order (the
      calendar turns each into a date). */
  function ExpiryDates(donations: seq<Json>): (r: seq<Json>)
    ensures |r| <= |donations|
  {
    if donations == [] then []
    else
      var rest := ExpiryDates(donations[1..]);
      if TruthyOpt(Get(donations[0], "expiryAt")) then [Get(donations[0], "expiryAt").value] + rest
      else rest
  }

  /** A date is highlighted exactly when some donation carries it as a truthy `expiryAt`. */
  lemma {:induction false} ExpiryDatesMembership(donations: seq<Json>, x: Json)
    ensures x in ExpiryDates(donations) <==>
      exists k :: 0 <= k < |donations| && TruthyOpt(Get(donations[k], "expiryAt"))
                  && Get(donations[k], "expiryAt").value == x
  {
    if donations != [] {
      ExpiryDatesMembership(donations[1..], x);
      if exists k :: 1 <= k < |donations| && TruthyOpt(Get(donations[k], "expiryAt"))
                     && Get(donations[k], "expiryAt").value == x {
        var k :| 1 <= k < |donations| && TruthyOpt(Get(donations[k], "expiryAt"))
                 && Get(donations[k], "expiryAt").value == x;
        assert donations[1..][k - 1] == donations[k];
      }
      if exists k :: 0 <= k < |donations[1..]| && TruthyOpt(Get(donations[1..][k], "expiryAt"))
                     && Get(donations[1..][k], "expiryAt").value == x {
        var k :| 0 <= k < |donations[1..]| && TruthyOpt(Get(donations[1..][k], "expiryAt"))
                 && Get(donations[1..][k], "expiryAt").value == x;
        assert donations[k + 1] == donations[1..][k];
      }
    }
  }

  /** The Cancel button is offered unless the status is exactly "CANCELLED". */
  predicate CanCancelDonation(donation: Json) {
    Get(donation, "status") != Some(JStr(Cancelled))
  }

  /** Cancel is withheld exactly for an object whose `status` is the string "CANCELLED";
      a missing status, another spelling or a non-string status still offers it. */
  lemma CancelOfferedUnlessCancelled(donation: Json)
    ensures !CanCancelDonation(donation) <==>
      donation.JObj? && "status" in donation.fields && donation.fields["status"] == JStr(Cancelled)
    ensures CanCancelDonation(JObj(map["status" := JStr("cancelled")]))
    ensures !CanCancelDonation(JObj(donation.fields["status" := JStr(Cancelled)])) <== donation.JObj?
  {
  }

  /** The effects of loading the list: the client's redirect on 401, then the page's
      error notice on any failure. */
  function LoadEffects(reply: Reply): (fx: seq<Effect>)
    ensures fx == [] <==> reply.Response?
    ensures reply.Rejected? ==> fx[|fx| - 1] == Toast(ToastError, LoadFailed) && |fx| <= 2
    ensures Navigate(LoginPath) in fx <==> reply.Rejected? && IsUnauthorized(reply.error)
    ensures reply.Rejected? && IsUnauthorized(reply.error) ==> fx == [Navigate(LoginPath), Toast(ToastError, LoadFailed)]
    ensures reply.Rejected? && !IsUnauthorized(reply.error) ==> fx == [Toast(ToastError, LoadFailed)]
  {
    if reply.Rejected? then
      (if IsUnauthorized(reply.error) then [Navigate(LoginPath)] else []) + [Toast(ToastError, LoadFailed)]
    else []
  }

  class MyDonationsPage {
    var donations: Json
    var tipsOpen: bool
    var tipsFor: Json
    var tipsContent: Json
    const api: ApiClient

    constructor (api: ApiClient)
      ensures donations == JArr([]) && !tipsOpen && tipsFor == JNull && tipsContent == JNull
      ensures this.api == api
    {
      donations := JArr([]);
      tipsOpen := false;
      tipsFor := JNull;
      tipsContent := JNull;
      this.api := api;
    }

    /** `fetchMyDonations`: the list becomes the body, or stays as it was with an error
        notice. */
    method FetchMyDonations(reply: Reply) returns (sent: Config, effects: seq<Effect>)
      modifies this, api.store
      ensures sent == WithBearer(GetRequest(MyDonationsPath, map[]), old(api.store.token))
      ensures reply.Response? ==> donations == reply.data
      ensures reply.Rejected? ==> donations == old(donations)
      ensures tipsOpen == old(tipsOpen) && tipsFor == old(tipsFor) && tipsContent == old(tipsContent)
      ensures api.store.token ==
        if reply.Rejected? && IsUnauthorized(reply.error) then None else old(api.store.token)
      ensures effects == LoadEffects(reply)
    {
      var res;
      sent, res, effects := api.Send(GetRequest(MyDonationsPath, map[]), reply);
      if res.Response? {
        donations := res.data;
      } else {
        effects := effects + [Toast(ToastError, LoadFailed)];
      }
    }

    /** `handleCancel(id)`: on success a notice and a reload of the list (answered by
        `reload`); on failure only an error notice. */
    method HandleCancel(id: Json, reply: Reply, reload: Reply)
      returns (sent: seq<Config>, effects: seq<Effect>)
      modifies this, api.store
      ensures |sent| >= 1 && sent[0] == WithBearer(CancelRequest(id), old(api.store.token))
      ensures reply.Rejected? ==>
        |sent| == 1 && donations == old(donations)
        && effects == (if IsUnauthorized(reply.error) then [Navigate(LoginPath)] else [])
                      + [Toast(ToastError, CancelFailed)]
      ensures reply.Response? ==>
        |sent| == 2 && sent[1] == WithBearer(GetRequest(MyDonationsPath, map[]), old(api.store.token))
        && effects == [Toast(ToastSuccess, DonationCancelled)] + LoadEffects(reload)
        && donations == (if reload.Response? then reload.data else old(donations))
      ensures api.store.token ==
        if (reply.Rejected? && IsUnauthorized(reply.error))
           || (reply.Response? && reload.Rejected? && IsUnauthorized(reload.error))
        then None else old(api.store.token)
      ensures tipsOpen == old(tipsOpen) && tipsFor == old(tipsFor) && tipsContent == old(tipsContent)
    {
      var first, res, fx := api.Send(CancelRequest(id), reply);
      sent := [first];
      effects := fx;
      if res.Response? {
        effects := effects + [Toast(ToastSuccess, DonationCancelled)];
        var again, more := FetchMyDonations(reload);
        sent := sent + [again];
        effects := effects + more;
      } else {
        effects := effects + [Toast(ToastError, CancelFailed)];
      }
    }

    /** `handleGetStorageTips(donation)`: the modal opens for that donation; its content
        becomes the reply body, or an object carrying the fixed error text. */
    method HandleGetStorageTips(donation: Json, reply: Reply) returns (sent: Config, effects: seq<Effect>)
      modifies this, api.store
      ensures tipsOpen && tipsFor == donation && donations == old(donations)
      ensures sent == WithBearer(StorageTipsRequest(donation), old(api.store.token))
      ensures reply.Response? ==> tipsContent == reply.data
      ensures reply.Rejected? ==> tipsContent == JObj(map["error" := JStr(TipsFailed)])
      ensures effects == if reply.Rejected? && IsUnauthorized(reply.error) then [Navigate(LoginPath)] else []
      ensures api.store.token ==
        if reply.Rejected? && IsUnauthorized(reply.error) then None else old(api.store.token)
    {
      tipsFor := donation;
      tipsContent := JNull;
      tipsOpen := true;
      var res;
      sent, res, effects := api.Send(StorageTipsRequest(donation), reply);
      if res.Response? {
        tipsContent := res.data;
      } else {
        tipsContent := JObj(map["error" := JStr(TipsFailed)]);
      }
    }

    /** The modal's close button and `onHide`: only visibility changes. */
    method CloseTips()
      modifies this
      ensures !tipsOpen
      ensures donations == old(donations) && tipsFor == old(tipsFor) && tipsContent == old(tipsContent)
    {
      tipsOpen := false;
    }
  }
}
