/** The donation form of src/pages/CreateDonation.jsx: the form record and its field
    updates, the payload it submits, and the two AI helpers that fill in the category
    and the expiry date. */
module CreateDonation {
  import opened Wrappers
  import opened Text
  import opened Json
  import opened Effects
  import opened Api

  const Fields: seq<string> :=
    ["title", "description", "category", "quantity", "unit", "expiryAt", "pickupLat", "pickupLng", "imageBase64"]

  const DonationsPath: string := "/donations"
  const MyDonationsRoute: string := "/my-donations"
  const CategorizePath: string := "/ai/categorize"
  const PredictExpiryPath: string := "/ai/predict-expiry"

  const Created: string := "Donation created"
  const CreateFailed: string := "Failed to create donation"
  const CategorizeNeedsText: string := "Please add a title or description for AI to categorize"
  const CategorizeUnexpected: string := "AI categorization returned unexpected result"
  const CategorizeFailed: string := "AI categorize failed"
  const ExpiryNeedsText: string := "Provide title or description for expiry prediction"
  const ExpiryUnexpected: string := "AI returned unexpected expiry format"
  const ExpiryFailed: string := "Expiry prediction failed"

  /** The form as the page first shows it: every field the empty string. */
  function InitialForm(): (f: map<string, Json>)
    ensures forall k :: k in f <==> k in Fields
    ensures forall k :: k in f ==> f[k] == JStr("")
  {
    map k | k in Fields :: JStr("")
  }

  /** `formData.key`, undefined for a field the form does not hold. */
  function Field(form: map<string, Json>, key: string): Option<Json> {
    if key in form then Some(form[key]) else None
  }

  /** `Number(x)`, with undefined as NaN. */
  function NumberOf(x: Option<Json>): (r: Json)
    ensures r.JNum? || r.JNaN?
  {
    if x.Some? then ToNumber(x.value) else JNaN
  }

  /** `lat ? Number(lat) : null`. */
  function Coordinate(x: Option<Json>): (r: Json)
    ensures r == JNull <==> !TruthyOpt(x)
  {
    if TruthyOpt(x) then NumberOf(x) else JNull
  }

  /** The body of the submit request: every form field, with the quantity as a number
      (0 when it does not read as one) and each coordinate as a number or null. */
  function Payload(form: map<string, Json>): (p: map<string, Json>)
    ensures p.Keys == form.Keys + {"quantity", "pickupLat", "pickupLng"}
    ensures forall k :: k in form && k != "quantity" && k != "pickupLat" && k != "pickupLng" ==> p[k] == form[k]
    ensures p["quantity"].JNum?
    ensures NumberOf(Field(form, "quantity")).JNum? ==> p["quantity"] == NumberOf(Field(form, "quantity"))
    ensures NumberOf(Field(form, "quantity")).JNaN? ==> p["quantity"] == JNum(0)
    ensures TruthyOpt(Field(form, "pickupLat")) ==> p["pickupLat"] == NumberOf(Field(form, "pickupLat"))
    ensures TruthyOpt(Field(form, "pickupLng")) ==> p["pickupLng"] == NumberOf(Field(form, "pickupLng"))
    ensures p["pickupLat"] == JNull <==> !TruthyOpt(Field(form, "pickupLat"))
    ensures p["pickupLng"] == JNull <==> !TruthyOpt(Field(form, "pickupLng"))
  {
    form["quantity" := Or(Some(NumberOf(Field(form, "quantity"))), JNum(0))]
        ["pickupLat" := Coordinate(Field(form, "pickupLat"))]
        ["pickupLng" := Coordinate(Field(form, "pickupLng"))]
  }

  /** A quantity typed as an integer is submitted as that integer. */
  lemma PayloadQuantity(form: map<string, Json>, q: int)
    requires Field(form, "quantity") == Some(JStr(IntToString(q)))
    ensures Payload(form)["quantity"] == JNum(q)
  {
    ToNumberIntToString(q);
  }

  /** The text both AI helpers send as `name`: the title, else the description; `None`
      when both are falsy and nothing is sent. */
  function AiName(form: map<string, Json>): (n: Option<Json>)
    ensures n.None? <==> !TruthyOpt(Field(form, "title")) && !TruthyOpt(Field(form, "description"))
    ensures n.Some? ==> Truthy(n.value)
    ensures TruthyOpt(Field(form, "title")) ==> n == Field(form, "title")
    ensures !TruthyOpt(Field(form, "title")) && TruthyOpt(Field(form, "description")) ==>
      n == Field(form, "description")
  {
    if !TruthyOpt(Field(form, "title")) && !TruthyOpt(Field(form, "description")) then None
    else if TruthyOpt(Field(form, "title")) then Field(form, "title")
    else Field(form, "description")
  }

  /** The category an AI reply supplies: its truthy `category`, else the reply itself
      when it is a string; `None` for any other reply. */
  function CategoryChoice(data: Json): (c: Option<Json>)
    ensures TruthyOpt(Get(data, "category")) ==> c == Get(data, "category")
    ensures c.None? <==> !TruthyOpt(Get(data, "category")) && !data.JStr?
  {
    if TruthyOpt(Get(data, "category")) then Get(data, "category")
    else if data.JStr? then Some(data)
    else None
  }

  /** A string reply is never an object, so it is always taken as the category itself. */
  lemma StringReplyIsCategory(s: string)
    ensures CategoryChoice(JStr(s)) == Some(JStr(s))
  {
  }

  /** The day count as the four reply shapes give it: `expiryDays` read with
      `parseInt(String(x).trim(), 10)`, else `days`, else `daysToExpire`, else the reply
      itself as a number; a falsy reply counts as `{}`. */
  function DaysValue(data: Json): (v: Json)
    ensures v.JNum? || v.JNaN?
  {
    var raw := Or(Some(data), JObj(map[]));
    if Present(raw, "expiryDays") then ParseIntBase10(Trim(ToStr(Get(raw, "expiryDays").value)))
    else if Present(raw, "days") then ToNumber(Get(raw, "days").value)
    else if Present(raw, "daysToExpire") then ToNumber(Get(raw, "daysToExpire").value)
    else ToNumber(raw)
  }

  /** `days` when it is a finite number; `None` for NaN. */
  function ExpiryDays(data: Json): (d: Option<int>)
    ensures d.Some? <==> DaysValue(data).JNum?
    ensures d.Some? ==> JNum(d.value) == DaysValue(data)
  {
    if DaysValue(data).JNum? then Some(DaysValue(data).n) else None
  }

  /** `parseInt(String(x).trim(), 10)` of the printed integer `i` is `i`. */
  lemma ParsePrinted(i: int)
    ensures ParseIntBase10(Trim(ToStr(JNum(i)))) == JNum(i)
    ensures ParseIntBase10(Trim(ToStr(JStr(IntToString(i))))) == JNum(i)
  {
    IntToStringShape(i);
    TrimUnchanged(IntToString(i));
    ParseIntIntToString(i, "");
    assert IntToString(i) + "" == IntToString(i);
  }

  /** A count in `expiryDays`, as text or as a number, is read back exactly, whatever
      the later fields say. */
  lemma ExpiryDaysFromExpiryDays(i: int, m: map<string, Json>)
    ensures ExpiryDays(JObj(m["expiryDays" := JStr(IntToString(i))])) == Some(i)
    ensures ExpiryDays(JObj(m["expiryDays" := JNum(i)])) == Some(i)
  {
    ExpiryDaysFromText(i, m);
    ExpiryDaysFromNumber(i, m);
  }

  lemma ExpiryDaysFromText(i: int, m: map<string, Json>)
    ensures ExpiryDays(JObj(m["expiryDays" := JStr(IntToString(i))])) == Some(i)
  {
    ParsePrinted(i);
    assert Get(JObj(m["expiryDays" := JStr(IntToString(i))]), "expiryDays") == Some(JStr(IntToString(i)));
  }

  lemma ExpiryDaysFromNumber(i: int, m: map<string, Json>)
    ensures ExpiryDays(JObj(m["expiryDays" := JNum(i)])) == Some(i)
  {
    ParsePrinted(i);
    assert Get(JObj(m["expiryDays" := JNum(i)]), "expiryDays") == Some(JNum(i));
  }

  /** When `expiryDays` is absent or null, a count in `days` is read, whatever
      `daysToExpire` or any other field says. */
  lemma ExpiryDaysFromDays(i: int, m: map<string, Json>)
    requires !Present(JObj(m), "expiryDays")
    ensures ExpiryDays(JObj(m["days" := JStr(IntToString(i))])) == Some(i)
    ensures ExpiryDays(JObj(m["days" := JNum(i)])) == Some(i)
  {
    ToNumberIntToString(i);
    assert Get(JObj(m["days" := JStr(IntToString(i))]), "expiryDays") == Get(JObj(m), "expiryDays");
    assert Get(JObj(m["days" := JNum(i)]), "expiryDays") == Get(JObj(m), "expiryDays");
  }

  /** `daysToExpire` is read when `expiryDays` and `days` are both absent or null. */
  lemma ExpiryDaysFromDaysToExpire(i: int, m: map<string, Json>)
    requires !Present(JObj(m), "expiryDays") && !Present(JObj(m), "days")
    ensures ExpiryDays(JObj(m["daysToExpire" := JNum(i)])) == Some(i)
  {
    var d := JObj(m["daysToExpire" := JNum(i)]);
    assert Get(d, "expiryDays") == Get(JObj(m), "expiryDays");
    assert Get(d, "days") == Get(JObj(m), "days");
  }

  /** A field holding null is passed over exactly as if it were absent, for each of
      the three fields consulted. */
  lemma NullFieldIsAbsent(m: map<string, Json>, k: string)
    requires k == "expiryDays" || k == "days" || k == "daysToExpire"
    ensures DaysValue(JObj(m[k := JNull])) == DaysValue(JObj(m - {k}))
  {
    var a, b := JObj(m[k := JNull]), JObj(m - {k});
    assert Present(a, "expiryDays") == Present(b, "expiryDays");
    assert Present(a, "days") == Present(b, "days");
    assert Present(a, "daysToExpire") == Present(b, "daysToExpire");
  }

  /** The example of a null `expiryDays` next to a count in `days`. */
  lemma NullExpiryDaysSkipped()
    ensures ExpiryDays(JObj(map["expiryDays" := JNull, "days" := JNum(3)])) == Some(3)
  {
    var m := map["expiryDays" := JNull, "days" := JNum(3)];
    assert m == map["expiryDays" := JNull]["days" := JNum(3)];
    ExpiryDaysFromDays(3, map["expiryDays" := JNull]);
  }

  /** A bare reply is read as a number: a non-zero number, or any integer text. */
  lemma ExpiryDaysFromBareReply(i: int)
    ensures i != 0 ==> ExpiryDays(JNum(i)) == Some(i)
    ensures ExpiryDays(JStr(IntToString(i))) == Some(i)
  {
    ToNumberIntToString(i);
    IntToStringShape(i);
  }

  /** `expiryDays` text after the number is ignored, as `parseInt` does: "3 days" is 3. */
  lemma ExpiryDaysIgnoresUnit(i: int, unit: string)
    requires unit != [] && !IsDigit(unit[0]) && !IsSpace(unit[0]) && !IsSpace(unit[|unit| - 1])
    ensures ExpiryDays(JObj(map["expiryDays" := JStr(IntToString(i) + " " + unit)])) == Some(i)
  {
    var s := IntToString(i) + " " + unit;
    IntToStringShape(i);
    TrimUnchanged(s);
    ParseIntIntToString(i, " " + unit);
    assert s == IntToString(i) + (" " + unit);
    assert Get(JObj(map["expiryDays" := JStr(s)]), "expiryDays") == Some(JStr(s));
  }

  /** A reply without a usable count is rejected. A bare 0 is one: being falsy it is
      replaced by `{}` before it is read. */
  lemma ExpiryDaysRejects()
    ensures ExpiryDays(JNull) == None
    ensures ExpiryDays(JNum(0)) == None
    ensures ExpiryDays(JObj(map[])) == None
  {
    TrimUnchanged("[object Object]");
    assert !AllDigits("[object Object]") by {
      assert !IsDigit("[object Object]"[0]);
    }
  }

  /** Text with no digits where the count should be is rejected. */
  lemma ExpiryDaysRejectsWords()
    ensures ExpiryDays(JObj(map["expiryDays" := JStr("soon")])) == None
  {
    TrimUnchanged("soon");
    assert Get(JObj(map["expiryDays" := JStr("soon")]), "expiryDays") == Some(JStr("soon"));
  }

  /** `String(n).padStart(2, '0')` for a non-negative date or time part. */
  function Pad(n: nat): (r: string)
    ensures |r| >= 2 && |r| >= |NatToString(n)|
    ensures r[|r| - |NatToString(n)|..] == NatToString(n)
    ensures forall k :: 0 <= k < |r| - |NatToString(n)| ==> r[k] == '0'
  {
    var s := NatToString(n);
    if |s| < 2 then "0" + s else s
  }

  /** The padded text still reads as the number, and is exactly two digits below 100. */
  lemma PadValue(n: nat)
    ensures AllDigits(Pad(n)) && DigitsValue(Pad(n)) == n
    ensures n < 100 <==> |Pad(n)| == 2
  {
    var s := NatToString(n);
    DigitsValueNatToString(n);
    if |s| < 2 {
      DigitsValueLeadingZero(s);
    }
    if n >= 100 {
      NatToStringLength(n);
    } else if n >= 10 {
      assert n / 10 < 10;
    }
  }

  lemma NatToStringLength(n: nat)
    requires n >= 100
    ensures |NatToString(n)| >= 3
  {
    assert n / 10 >= 10;
  }

  const ExpiryPrefix: string := "Predicted expiry +"

  /** The success notice: the count, then "day" in the singular exactly when it is 1. */
  function ExpiryMessage(days: int): (m: string)
    ensures |m| > |ExpiryPrefix| && m[..|ExpiryPrefix|] == ExpiryPrefix
    ensures m[|m| - 1] == 's' <==> days != 1
  {
    ExpiryPrefix + IntToString(days) + (if days != 1 then " days" else " day")
  }

  /** The notice names the count it was given. */
  lemma ExpiryMessageCount(days: int)
    ensures ParseIntBase10(ExpiryMessage(days)[|ExpiryPrefix|..]) == JNum(days)
  {
    var unit := if days != 1 then " days" else " day";
    ParseIntIntToString(days, unit);
    assert ExpiryMessage(days)[|ExpiryPrefix|..] == IntToString(days) + unit;
  }

  /** What `err.response?.data?.error || fallback` prints. */
  function FailureText(e: HttpError, fallback: string): (t: string)
    ensures TruthyOpt(ErrorMessage(e)) ==> t == ToStr(ErrorMessage(e).value)
    ensures !TruthyOpt(ErrorMessage(e)) ==> t == fallback
  {
    ToStr(Or(ErrorMessage(e), JStr(fallback)))
  }

  /** The effects the client adds for a rejected reply, before the page's own. */
  function ClientEffects(reply: Reply): (fx: seq<Effect>)
    ensures fx == [] || fx == [Navigate(LoginPath)]
    ensures fx != [] <==> reply.Rejected? && IsUnauthorized(reply.error)
  {
    if reply.Rejected? && IsUnauthorized(reply.error) then [Navigate(LoginPath)] else []
  }

  class CreateDonationPage {
    var form: map<string, Json>
    const api: ApiClient

    constructor (api: ApiClient)
      ensures form == InitialForm() && this.api == api
    {
      form := InitialForm();
      this.api := api;
    }

    /** `handleChange`: the named field takes the typed value; no other field changes. */
    method HandleChange(name: string, value: string)
      modifies this
      ensures form == old(form)[name := JStr(value)]
      ensures forall k :: k in old(form) && k != name ==> k in form && form[k] == old(form)[k]
      ensures form.Keys == old(form.Keys) + {name}
    {
      form := form[name := JStr(value)];
    }

    /** `handleSubmit`: post the payload; on success a notice and the move to the donor's
        list, else the backend's message or the fixed one. The form is never changed. */
    method HandleSubmit(reply: Reply) returns (sent: Config, effects: seq<Effect>)
      modifies api.store
      ensures sent == WithBearer(PostRequest(DonationsPath, Some(JObj(Payload(form)))), old(api.store.token))
      ensures reply.Response? ==> effects == [Toast(ToastSuccess, Created), Navigate(MyDonationsRoute)]
      ensures reply.Rejected? ==>
        effects == ClientEffects(reply) + [Toast(ToastError, FailureText(reply.error, CreateFailed))]
      ensures api.store.token ==
        if reply.Rejected? && IsUnauthorized(reply.error) then None else old(api.store.token)
    {
      var res, fx;
      sent, res, fx := api.Send(PostRequest(DonationsPath, Some(JObj(Payload(form)))), reply);
      if res.Response? {
        effects := fx + [Toast(ToastSuccess, Created), Navigate(MyDonationsRoute)];
      } else {
        effects := fx + [Toast(ToastError, FailureText(res.error, CreateFailed))];
      }
    }

    /** `handleAiCategorize`: without a title or description only a notice; otherwise the
        reply's category, if it offers one, replaces the form's category. */
    method HandleAiCategorize(reply: Reply) returns (sent: Option<Config>, effects: seq<Effect>)
      modifies this, api.store
      ensures AiName(old(form)).None? ==>
        sent.None? && form == old(form) && effects == [Toast(ToastInfo, CategorizeNeedsText)]
        && api.store.token == old(api.store.token)
      ensures AiName(old(form)).Some? ==>
        sent == Some(WithBearer(GetRequest(CategorizePath, map["name" := AiName(old(form)).value]), old(api.store.token)))
      ensures AiName(old(form)).Some? && reply.Response? && CategoryChoice(reply.data).Some? ==>
        form == old(form)["category" := CategoryChoice(reply.data).value] && effects == []
      ensures AiName(old(form)).Some? && reply.Response? && CategoryChoice(reply.data).None? ==>
        form == old(form) && effects == [Toast(ToastInfo, CategorizeUnexpected)]
      ensures AiName(old(form)).Some? && reply.Rejected? ==>
        form == old(form) && effects == ClientEffects(reply) + [Toast(ToastError, CategorizeFailed)]
      ensures api.store.token ==
        if AiName(old(form)).Some? && reply.Rejected? && IsUnauthorized(reply.error) then None
        else old(api.store.token)
    {
      var name := AiName(form);
      if name.None? {
        sent := None;
        effects := [Toast(ToastInfo, CategorizeNeedsText)];
        return;
      }
      var config, res, fx := api.Send(GetRequest(CategorizePath, map["name" := name.value]), reply);
      sent := Some(config);
      if res.Rejected? {
        effects := fx + [Toast(ToastError, CategorizeFailed)];
      } else {
        var choice := CategoryChoice(res.data);
        if choice.Some? {
          form := form["category" := choice.value];
          effects := fx;
        } else {
          effects := fx + [Toast(ToastInfo, CategorizeUnexpected)];
        }
      }
    }

    /** `handlePredictExpiry`: without a title or description only a notice; otherwise a
        finite day count sets `expiryAt` to the local date-time that many days ahead,
        as `toLocalInput` formats it, and anything else leaves the form as it was. */
    method HandlePredictExpiry(reply: Reply, toLocalInput: int -> string)
      returns (sent: Option<Config>, effects: seq<Effect>)
      modifies this, api.store
      ensures AiName(old(form)).None? ==>
        sent.None? && form == old(form) && effects == [Toast(ToastInfo, ExpiryNeedsText)]
        && api.store.token == old(api.store.token)
      ensures AiName(old(form)).Some? ==>
        sent == Some(WithBearer(GetRequest(PredictExpiryPath, map["name" := AiName(old(form)).value]), old(api.store.token)))
      ensures AiName(old(form)).Some? && reply.Response? && ExpiryDays(reply.data).Some? ==>
        form == old(form)["expiryAt" := JStr(toLocalInput(ExpiryDays(reply.data).value))]
        && effects == [Toast(ToastSuccess, ExpiryMessage(ExpiryDays(reply.data).value))]
      ensures AiName(old(form)).Some? && reply.Response? && ExpiryDays(reply.data).None? ==>
        form == old(form) && effects == [Toast(ToastError, ExpiryUnexpected)]
      ensures AiName(old(form)).Some? && reply.Rejected? ==>
        form == old(form) && effects == ClientEffects(reply) + [Toast(ToastError, ExpiryFailed)]
      ensures api.store.token ==
        if AiName(old(form)).Some? && reply.Rejected? && IsUnauthorized(reply.error) then None
        else old(api.store.token)
    {
      var name := AiName(form);
      if name.None? {
        sent := None;
        effects := [Toast(ToastInfo, ExpiryNeedsText)];
        return;
      }
      var config, res, fx := api.Send(GetRequest(PredictExpiryPath, map["name" := name.value]), reply);
      sent := Some(config);
      if res.Rejected? {
        effects := fx + [Toast(ToastError, ExpiryFailed)];
        return;
      }
      var raw := Or(Some(res.data), JObj(map[]));
      var days: Json;
      if Present(raw, "expiryDays") {
        days := ParseIntBase10(Trim(ToStr(Get(raw, "expiryDays").value)));
      } else if Present(raw, "days") {
        days := ToNumber(Get(raw, "days").value);
      } else if Present(raw, "daysToExpire") {
        days := ToNumber(Get(raw, "daysToExpire").value);
      } else {
        var maybeNum := ToNumber(raw);
        days := if maybeNum.JNum? then maybeNum else JNull;
      }
      if days.JNum? {
        form := form["expiryAt" := JStr(toLocalInput(days.n))];
        effects := fx + [Toast(ToastSuccess, ExpiryMessage(days.n))];
      } else {
        effects := fx + [Toast(ToastError, ExpiryUnexpected)];
      }
    }
  }
}
