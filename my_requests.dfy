/** The requester's own requests, src/pages/MyRequests.jsx: the list, the confirm dialog
    in front of a cancellation, which requests may be cancelled, and the mail link to a
    donation's donor. */
module MyRequests {
  import opened Wrappers
  import opened Text
  import opened Json
  import opened Effects
  import opened Api

  const MyRequestsPath: string := "/requests/my"
  const Cancelled: string := "CANCELLED"
  const Approved: string := "APPROVED"
  const LoadFailed: string := "Failed to load your requests"
  const RequestCancelled: string := "Request cancelled"
  const CancelFailed: string := "Failed to cancel request"
  const NoDonorEmail: string := "Donor email not available"
  const SubjectPrefix: string := "Request about donation: "

  /** `/requests/${id}/cancel`: a POST without a body whose path carries the id's text
      between the fixed prefix and suffix. */
  function CancelRequest(id: Json): (c: Config)
    ensures c.verb == "POST" && c.body == None && c.params == map[] && c.headers == map[]
    ensures |c.url| == 17 + |ToStr(id)|
    ensures c.url[..10] == "/requests/" && c.url[|c.url| - 7..] == "/cancel"
    ensures c.url[10..|c.url| - 7] == ToStr(id)
  {
    PostRequest("/requests/" + ToStr(id) + "/cancel", None)
  }

  /** The Cancel button is offered unless the request is already cancelled or approved. */
  predicate CanCancelRequest(request: Json) {
    Get(request, "status") != Some(JStr(Cancelled)) && Get(request, "status") != Some(JStr(Approved))
  }

  /** Only the two final statuses hide the button; pending, rejected or missing ones show it. */
  lemma CancelOfferedUnlessFinal(request: Json, status: string)
    requires Get(request, "status") == Some(JStr(status))
    ensures CanCancelRequest(request) <==> status != Cancelled && status != Approved
  {
  }

  /** The donor's mail address as the link uses it, or `None` when the donation, its
      `createdBy` or the address is missing or empty. */
  function DonorEmail(donation: Json): (e: Option<string>)
    ensures e.Some? <==> TruthyOpt(Get(Or(Get(donation, "createdBy"), JObj(map[])), "email"))
    ensures e.Some? ==> e.value == ToStr(Get(Or(Get(donation, "createdBy"), JObj(map[])), "email").value)
    ensures !TruthyOpt(Get(donation, "createdBy")) ==> e.None?
    ensures TruthyOpt(Get(donation, "createdBy")) && TruthyOpt(Get(Get(donation, "createdBy").value, "email")) ==>
      e == Some(ToStr(Get(Get(donation, "createdBy").value, "email").value))
  {
    var mail := Or(Get(Or(Get(donation, "createdBy"), JObj(map[])), "email"), JStr(""));
    if Truthy(mail) then Some(ToStr(mail)) else None
  }

  /** `contactDonor(donation)`: an error notice when there is no address, otherwise a
      move to `mailto:<address>?subject=<encoded subject>`. `encode` stands for
      `encodeURIComponent`. */
  function ContactDonor(donation: Json, encode: string -> string): (fx: Effect)
    ensures fx.Toast? <==> DonorEmail(donation).None?
    ensures fx.Toast? ==> fx == Toast(ToastError, NoDonorEmail)
    ensures fx.Navigate? ==> |fx.url| >= 7 && fx.url[..7] == "mailto:"
  {
    var mail := DonorEmail(donation);
    if mail.None? then Toast(ToastError, NoDonorEmail)
    else
      var subject := encode(SubjectPrefix + ToStr(Or(Get(donation, "title"), JStr(""))));
      Navigate("mailto:" + mail.value + "?subject=" + subject)
  }

  /** The text up to the first `c`. */
  function TakeUntil(s: string, c: char): (r: string)
    ensures |r| <= |s| && c !in r
  {
    if s == [] || s[0] == c then [] else [s[0]] + TakeUntil(s[1..], c)
  }

  /** The text after the first `c`, or "" when there is none. */
  function DropThrough(s: string, c: char): (r: string)
    ensures |r| <= |s|
  {
    if s == [] then [] else if s[0] == c then s[1..] else DropThrough(s[1..], c)
  }

  lemma {:induction false} SplitAtFirst(a: string, b: string, c: char)
    requires c !in a
    ensures TakeUntil(a + [c] + b, c) == a
    ensures DropThrough(a + [c] + b, c) == b
  {
    if a != [] {
      SplitAtFirst(a[1..], b, c);
      assert (a + [c] + b)[1..] == a[1..] + [c] + b;
    } else {
      assert a + [c] + b == [c] + b;
    }
  }

  /** The mail link reads back: the address is what follows `mailto:` up to the first
      `?` (when the address holds none), and the rest is the subject query with the
      encoded "Request about donation: <title>". */
  lemma ContactDonorLink(donation: Json, encode: string -> string)
    requires DonorEmail(donation).Some? && '?' !in DonorEmail(donation).value
    ensures var url := ContactDonor(donation, encode).url;
      TakeUntil(url[7..], '?') == DonorEmail(donation).value
      && DropThrough(url[7..], '?') ==
        "subject=" + encode(SubjectPrefix + ToStr(Or(Get(donation, "title"), JStr(""))))
  {
    var mail := DonorEmail(donation).value;
    var rest := "subject=" + encode(SubjectPrefix + ToStr(Or(Get(donation, "title"), JStr(""))));
    var url := ContactDonor(donation, encode).url;
    assert url[7..] == mail + ['?'] + rest;
    SplitAtFirst(mail, rest, '?');
  }

  /** A missing donation, a donation without `createdBy`, or a donor without an address
      all end in the error notice. */
  lemma NoAddressNoNavigation(encode: string -> string, title: Json)
    ensures ContactDonor(JNull, encode) == Toast(ToastError, NoDonorEmail)
    ensures ContactDonor(JObj(map["title" := title]), encode) == Toast(ToastError, NoDonorEmail)
    ensures ContactDonor(JObj(map["createdBy" := JObj(map["email" := JStr("")])]), encode)
            == Toast(ToastError, NoDonorEmail)
  {
    assert Get(JObj(map["title" := title]), "createdBy") == None;
    var d := JObj(map["createdBy" := JObj(map["email" := JStr("")])]);
    assert Get(d, "createdBy") == Some(JObj(map["email" := JStr("")]));
    assert Get(JObj(map["email" := JStr("")]), "email") == Some(JStr(""));
  }

  class MyRequestsPage {
    var requests: Json
    /** The confirm dialog: `confirm.open` and `confirm.id`. */
    var open: bool
    var id: Json
    const api: ApiClient

    /** A closed dialog carries no request. */
    predicate Valid()
      reads this
    {
      !open ==> id == JNull
    }

    constructor (api: ApiClient)
      ensures requests == JArr([]) && !open && id == JNull && this.api == api
      ensures Valid()
    {
      requests := JArr([]);
      open := false;
      id := JNull;
      this.api := api;
    }

    /** `fetchRequests`: the list becomes the body, or stays with an error notice. */
    method FetchRequests(reply: Reply) returns (sent: Config, effects: seq<Effect>)
      modifies this, api.store
      ensures sent == WithBearer(GetRequest(MyRequestsPath, map[]), old(api.store.token))
      ensures reply.Response? ==> requests == reply.data
      ensures reply.Rejected? ==> requests == old(requests)
      ensures open == old(open) && id == old(id)
      ensures reply.Rejected? ==>
        effects == (if IsUnauthorized(reply.error) then [Navigate(LoginPath)] else []) + [Toast(ToastError, LoadFailed)]
      ensures reply.Response? ==> effects == []
      ensures api.store.token ==
        if reply.Rejected? && IsUnauthorized(reply.error) then None else old(api.store.token)
    {
      var res;
      sent, res, effects := api.Send(GetRequest(MyRequestsPath, map[]), reply);
      if res.Response? {
        requests := res.data;
      } else {
        effects := effects + [Toast(ToastError, LoadFailed)];
      }
    }

    /** The row's Cancel button, shown only for a cancellable request: the dialog opens
        for that request's id. */
    method OpenConfirm(request: Json)
      requires CanCancelRequest(request)
      modifies this
      ensures open && id == (if Get(request, "id").Some? then Get(request, "id").value else JNull)
      ensures requests == old(requests)
      ensures Valid()
    {
      open := true;
      id := if Get(request, "id").Some? then Get(request, "id").value else JNull;
    }

    /** "No" and the dialog's hide: closed, with no request. */
    method Dismiss()
      modifies this
      ensures !open && id == JNull && requests == old(requests)
      ensures Valid()
    {
      open := false;
      id := JNull;
    }

    /** "Yes, cancel": cancel the dialog's request. On success a notice, the dialog
        reset, and a reload of the list (answered by `reload`); on failure an error
        notice and the dialog exactly as it was. */
    method HandleCancel(reply: Reply, reload: Reply) returns (sent: seq<Config>, effects: seq<Effect>)
      requires Valid()
      modifies this, api.store
      ensures Valid()
      ensures |sent| >= 1 && sent[0] == WithBearer(CancelRequest(old(id)), old(api.store.token))
      ensures reply.Response? ==>
        !open && id == JNull && |sent| == 2
        && sent[1] == WithBearer(GetRequest(MyRequestsPath, map[]), old(api.store.token))
        && requests == (if reload.Response? then reload.data else old(requests))
        && effects == [Toast(ToastSuccess, RequestCancelled)]
                      + (if reload.Rejected? then
                           (if IsUnauthorized(reload.error) then [Navigate(LoginPath)] else [])
                           + [Toast(ToastError, LoadFailed)]
                         else [])
      ensures reply.Rejected? ==>
        open == old(open) && id == old(id) && requests == old(requests) && |sent| == 1
        && effects == (if IsUnauthorized(reply.error) then [Navigate(LoginPath)] else [])
                      + [Toast(ToastError, ToStr(Or(ErrorMessage(reply.error), JStr(CancelFailed))))]
      ensures api.store.token ==
        if (reply.Rejected? && IsUnauthorized(reply.error))
           || (reply.Response? && reload.Rejected? && IsUnauthorized(reload.error))
        then None else old(api.store.token)
    {
      var first, res, fx := api.Send(CancelRequest(id), reply);
      sent := [first];
      if res.Response? {
        effects := fx + [Toast(ToastSuccess, RequestCancelled)];
        open := false;
        id := JNull;
        var again, more := FetchRequests(reload);
        sent := sent + [again];
        effects := effects + more;
      } else {
        effects := fx + [Toast(ToastError, ToStr(Or(ErrorMessage(res.error), JStr(CancelFailed))))];
      }
    }
  }
}
