/** The pure pieces of the donation details page, src/pages/DonationDetails.jsx: the
    `humanize` key-to-label helper, the default query parameters of the nutrition and
    consume-ratio requests, what a failed request leaves in the modal, and how the
    consume-ratio modal presents its variants. */
module DonationDetails {
  import opened Wrappers
  import opened Text
  import opened Json
  import opened Api

  // ---------------------------------------------------------------------------
  // humanize

  /** The fixed label table; the synonym pairs share a label. */
  function Label(key: string): Option<string> {
    if key == "carbs" || key == "carbohydrates" then Some("Carbohydrates")
    else if key == "protein" then Some("Protein")
    else if key == "fats" || key == "fat" then Some("Fats")
    else if key == "fiber" then Some("Fiber")
    else if key == "sugars" || key == "sugar" then Some("Sugars")
    else if key == "vitaminC" then Some("Vitamin C")
    else if key == "vitaminB12" then Some("Vitamin B12")
    else if key == "calcium" then Some("Calcium")
    else if key == "iron" then Some("Iron")
    else if key == "calories" then Some("Calories")
    else None
  }

  predicate IsLowerOrDigit(c: char) { IsLowerAscii(c) || IsDigit(c) }

  /** `/([a-z0-9])([A-Z])/`: a camel-case boundary between `s[k]` and `s[k + 1]`. */
  predicate CamelAt(s: string, k: nat) {
    k + 1 < |s| && IsLowerOrDigit(s[k]) && IsUpperAscii(s[k + 1])
  }

  /** `.replace(/([a-z0-9])([A-Z])/g, "$1 $2")`. The two classes are disjoint, so the
      global scan finds every boundary and a space goes into each. */
  function CamelSplit(s: string): (r: string)
    ensures s != [] ==> r != [] && r[0] == s[0]
  {
    if s == [] then []
    else if CamelAt(s, 0) then [s[0], ' '] + CamelSplit(s[1..])
    else [s[0]] + CamelSplit(s[1..])
  }

  predicate IsSeparator(c: char) { c == '_' || c == '-' }

  predicate AllSeparators(s: string) {
    forall k :: 0 <= k < |s| ==> IsSeparator(s[k])
  }

  /** The string without its leading run of `_`/`-`. */
  function DropSeparators(s: string): (r: string)
    ensures |r| <= |s| && (r != [] ==> !IsSeparator(r[0]))
  {
    if s != [] && IsSeparator(s[0]) then DropSeparators(s[1..]) else s
  }

  /** A string headed by a separator is all separators iff its tail is. */
  lemma AllSeparatorsCons(s: string)
    requires s != [] && IsSeparator(s[0])
    ensures AllSeparators(s) <==> AllSeparators(s[1..])
  {
    assert s == [s[0]] + s[1..];
    if AllSeparators(s[1..]) {
      forall k | 0 <= k < |s| ensures IsSeparator(s[k]) {
        if k > 0 { assert s[k] == s[1..][k - 1]; }
      }
    }
  }

  /** What remains is a suffix, strictly shorter when a run was dropped, and empty
      exactly when the whole string is a run. */
  lemma {:induction false} DropSeparatorsSuffix(s: string)
    ensures DropSeparators(s) == s[|s| - |DropSeparators(s)|..]
    ensures s != [] && IsSeparator(s[0]) ==> |DropSeparators(s)| < |s|
    ensures DropSeparators(s) == [] <==> AllSeparators(s)
  {
    if s != [] && IsSeparator(s[0]) {
      DropSeparatorsSuffix(s[1..]);
      assert s[1..][|s[1..]| - |DropSeparators(s)|..] == s[|s| - |DropSeparators(s)|..];
      AllSeparatorsCons(s);
    }
  }

  /** `.replace(/[_\-]+/g, " ")`: each maximal run of `_`/`-` becomes one space. */
  function CollapseSeparators(s: string): string
    decreases |s|
  {
    if s == [] then []
    else if IsSeparator(s[0]) then " " + CollapseSeparators(DropSeparators(s))
    else [s[0]] + CollapseSeparators(s[1..])
  }

  /** `s.charAt(0).toUpperCase() + s.slice(1)`. */
  function Capitalize(w: string): (r: string)
    ensures |r| == |w| && (w != [] ==> r[0] == ToUpperChar(w[0]) && r[1..] == w[1..])
  {
    if w == [] then [] else [ToUpperChar(w[0])] + w[1..]
  }

  function CapitalizeAll(ws: seq<string>): (r: seq<string>)
    ensures |r| == |ws|
    ensures forall k :: 0 <= k < |ws| ==> r[k] == Capitalize(ws[k])
  {
    seq(|ws|, k requires 0 <= k < |ws| => Capitalize(ws[k]))
  }

  /** The text before word capitalisation. */
  function Spaced(key: string): string {
    CollapseSeparators(CamelSplit(key))
  }

  /** `humanize(key)`. */
  function Humanize(key: string): (r: string)
    ensures key == "" ==> r == ""
    ensures key != "" && Label(key).Some? ==> r == Label(key).value
  {
    if key == "" then ""
    else if Label(key).Some? then Label(key).value
    else Join(CapitalizeAll(Split(Spaced(key), ' ')), " ")
  }

  /** The characters that are not spaces, in order. */
  function NonSpaces(s: string): string {
    if s == [] then [] else (if s[0] == ' ' then [] else [s[0]]) + NonSpaces(s[1..])
  }

  /** Camel splitting only inserts spaces, and leaves no boundary behind. */
  lemma {:induction false} CamelSplitSpec(s: string)
    ensures NonSpaces(CamelSplit(s)) == NonSpaces(s)
    ensures forall k: nat :: !CamelAt(CamelSplit(s), k)
  {
    if s != [] {
      CamelSplitSpec(s[1..]);
      var t := CamelSplit(s[1..]);
      if CamelAt(s, 0) {
        var r := [s[0], ' '] + t;
        assert r[1..] == [' '] + t && ([' '] + t)[1..] == t;
        assert NonSpaces(r) == [s[0]] + NonSpaces([' '] + t);
        forall k: nat ensures !CamelAt(r, k) {
          if 2 <= k && k + 1 < |r| {
            assert r[k] == t[k - 2] && r[k + 1] == t[k - 1];
            assert !CamelAt(t, k - 2);
          }
        }
      } else {
        var r := [s[0]] + t;
        assert r[1..] == t;
        forall k: nat ensures !CamelAt(r, k) {
          if 1 <= k && k + 1 < |r| {
            assert r[k] == t[k - 1] && r[k + 1] == t[k];
            assert !CamelAt(t, k - 1);
          }
          if k == 0 && 1 < |r| {
            assert r[1] == t[0] == s[1];
          }
        }
        assert NonSpaces(r) == NonSpaces([s[0]]) + NonSpaces(t) by {
          assert r[0] == s[0] && r[1..] == t;
        }
        assert s == [s[0]] + s[1..];
      }
    }
  }

  /** A single character has no boundary to split. */
  lemma CamelSplitChar(c: char)
    ensures CamelSplit([c]) == [c]
  {
  }

  /** Splitting a concatenation splits each side, with one more space exactly when a
      boundary spans the cut. With the single-character case above this determines
      `CamelSplit` on every string. */
  lemma {:induction false} CamelSplitAppend(a: string, b: string)
    ensures CamelSplit(a + b) ==
      CamelSplit(a)
      + (if a != [] && b != [] && IsLowerOrDigit(a[|a| - 1]) && IsUpperAscii(b[0]) then " " else "")
      + CamelSplit(b)
  {
    if a == [] {
      assert a + b == b;
    } else {
      var ab := a + b;
      var t := a[1..];
      assert ab[0] == a[0] && ab[1..] == t + b;
      var head := if CamelAt(ab, 0) then [a[0], ' '] else [a[0]];
      assert CamelSplit(ab) == head + CamelSplit(t + b);
      if t == [] {
        assert t + b == b;
        assert CamelSplit(a) == [a[0]];
        assert CamelAt(ab, 0) <==> b != [] && IsLowerOrDigit(a[0]) && IsUpperAscii(b[0]);
      } else {
        assert ab[1] == a[1];
        assert CamelSplit(a) == head + CamelSplit(t);
        assert t[|t| - 1] == a[|a| - 1];
        CamelSplitAppend(t, b);
        var sep := if b != [] && IsLowerOrDigit(a[|a| - 1]) && IsUpperAscii(b[0]) then " " else "";
        AppendAssoc(CamelSplit(t), sep, CamelSplit(b));
        AppendAssoc(head, CamelSplit(t), sep);
        AppendAssoc(head, CamelSplit(t) + sep, CamelSplit(b));
      }
    }
  }

  /** A camel boundary between `x` and `y` puts one space between the two halves. */
  lemma CamelSplitBoundary(a: string, x: char, y: char, b: string)
    requires IsLowerOrDigit(x) && IsUpperAscii(y)
    ensures CamelSplit(a + [x] + [y] + b) == CamelSplit(a + [x]) + " " + CamelSplit([y] + b)
  {
    assert a + [x] + [y] + b == (a + [x]) + ([y] + b);
    CamelSplitAppend(a + [x], [y] + b);
  }

  /** The characters other than `_`, `-` and space, in order. */
  function Letters(s: string): string {
    if s == [] then [] else (if s[0] == ' ' || IsSeparator(s[0]) then [] else [s[0]]) + Letters(s[1..])
  }

  lemma {:induction false} DropSeparatorsLetters(s: string)
    ensures Letters(DropSeparators(s)) == Letters(s)
  {
    if s != [] && IsSeparator(s[0]) {
      DropSeparatorsLetters(s[1..]);
    }
  }

  /** Collapsing leaves no `_` or `-`, changes nothing else than separators and spaces,
      and is the identity on text without separators. */
  lemma {:induction false} CollapseSeparatorsSpec(s: string)
    ensures forall k :: 0 <= k < |CollapseSeparators(s)| ==> !IsSeparator(CollapseSeparators(s)[k])
    ensures Letters(CollapseSeparators(s)) == Letters(s)
    ensures (forall k :: 0 <= k < |s| ==> !IsSeparator(s[k])) ==> CollapseSeparators(s) == s
    decreases |s|
  {
    if s != [] {
      if IsSeparator(s[0]) {
        var d := DropSeparators(s);
        CollapseSeparatorsSpec(d);
        DropSeparatorsLetters(s);
        var r := " " + CollapseSeparators(d);
        assert r[1..] == CollapseSeparators(d);
        forall k | 0 <= k < |r| ensures !IsSeparator(r[k]) {
          if k > 0 {
            assert r[k] == CollapseSeparators(d)[k - 1];
          }
        }
      } else {
        CollapseSeparatorsSpec(s[1..]);
        var r := [s[0]] + CollapseSeparators(s[1..]);
        assert r[1..] == CollapseSeparators(s[1..]);
        forall k | 0 <= k < |r| ensures !IsSeparator(r[k]) {
          if k > 0 {
            assert r[k] == CollapseSeparators(s[1..])[k - 1];
          }
        }
        if forall k :: 0 <= k < |s| ==> !IsSeparator(s[k]) {
          assert forall k :: 0 <= k < |s[1..]| ==> !IsSeparator(s[1..][k]) by {
            forall k | 0 <= k < |s[1..]| ensures !IsSeparator(s[1..][k]) {
              assert s[1..][k] == s[k + 1];
            }
          }
          assert s == [s[0]] + s[1..];
        }
      }
    }
  }

  /** The leading run of a concatenation: the run of the left part, or when that part
      is all separators, the run of the right part. */
  lemma {:induction false} DropSeparatorsAppend(a: string, b: string)
    ensures DropSeparators(a + b) == if DropSeparators(a) == [] then DropSeparators(b) else DropSeparators(a) + b
  {
    if a == [] {
      assert a + b == b;
    } else if IsSeparator(a[0]) {
      assert (a + b)[1..] == a[1..] + b;
      DropSeparatorsAppend(a[1..], b);
    }
  }

  /** Collapsing distributes over a cut that does not split a run of separators. With
      the run lemma below and the identity on separator-free text this determines
      `CollapseSeparators` on every string. */
  lemma {:induction false} CollapseAppend(a: string, b: string)
    requires a == [] || b == [] || !IsSeparator(a[|a| - 1]) || !IsSeparator(b[0])
    ensures CollapseSeparators(a + b) == CollapseSeparators(a) + CollapseSeparators(b)
    decreases |a|
  {
    if a == [] {
      assert a + b == b;
    } else if !IsSeparator(a[0]) {
      CollapseAppendLetter(a, b);
    } else {
      CollapseAppendRun(a, b);
    }
  }

  /** `CollapseAppend` when the left part starts with a kept character. */
  lemma {:induction false} CollapseAppendLetter(a: string, b: string)
    requires a != [] && !IsSeparator(a[0])
    requires b == [] || !IsSeparator(a[|a| - 1]) || !IsSeparator(b[0])
    ensures CollapseSeparators(a + b) == CollapseSeparators(a) + CollapseSeparators(b)
    decreases |a|, 0
  {
    var t := a[1..];
    assert (a + b)[0] == a[0] && (a + b)[1..] == t + b;
    assert t != [] ==> t[|t| - 1] == a[|a| - 1];
    CollapseAppend(t, b);
  }

  /** `CollapseAppend` when the left part starts with a run of separators. */
  lemma {:induction false} CollapseAppendRun(a: string, b: string)
    requires a != [] && IsSeparator(a[0])
    requires b == [] || !IsSeparator(a[|a| - 1]) || !IsSeparator(b[0])
    ensures CollapseSeparators(a + b) == CollapseSeparators(a) + CollapseSeparators(b)
    decreases |a|, 0
  {
    var d := DropSeparators(a);
    var ab := a + b;
    DropSeparatorsSuffix(a);
    DropSeparatorsAppend(a, b);
    assert ab[0] == a[0];
    assert CollapseSeparators(ab) == " " + CollapseSeparators(DropSeparators(ab));
    assert CollapseSeparators(a) == " " + CollapseSeparators(d);
    if d == [] {
      assert IsSeparator(a[|a| - 1]);
      assert DropSeparators(b) == b;
    } else {
      assert d[|d| - 1] == a[|a| - 1];
      CollapseAppend(d, b);
    }
  }

  /** A non-empty run of separators and nothing else becomes a single space. */
  lemma CollapseRun(r: string)
    requires r != [] && AllSeparators(r)
    ensures CollapseSeparators(r) == " "
  {
    DropSeparatorsSuffix(r);
  }

  /** A run of separators between two parts that do not continue it becomes one space
      between the collapsed parts. */
  lemma CollapseRunBetween(a: string, r: string, b: string)
    requires r != [] && AllSeparators(r)
    requires a == [] || !IsSeparator(a[|a| - 1])
    requires b == [] || !IsSeparator(b[0])
    ensures CollapseSeparators(a + r + b) == CollapseSeparators(a) + " " + CollapseSeparators(b)
  {
    CollapseRun(r);
    CollapseAppend(r, b);
    CollapseAppend(a, r + b);
    AppendAssoc(a, r, b);
    AppendAssoc(CollapseSeparators(a), " ", CollapseSeparators(b));
  }

  lemma AppendAssoc(x: string, y: string, z: string)
    ensures x + y + z == x + (y + z)
  {
  }

  /** Outside the table, the label's space-separated words are the words of the
      spaced key, in the same number and order, each with its first character
      upper-cased and the rest unchanged. */
  lemma HumanizeWords(key: string)
    requires key != "" && Label(key).None?
    ensures Split(Humanize(key), ' ') == CapitalizeAll(Split(Spaced(key), ' '))
    ensures forall k :: 0 <= k < |Split(Humanize(key), ' ')| ==>
      var w := Split(Humanize(key), ' ')[k];
      w != "" ==> !IsLowerAscii(w[0])
  {
    var ws := Split(Spaced(key), ' ');
    var cs := CapitalizeAll(ws);
    forall k | 0 <= k < |cs| ensures ' ' !in cs[k] {
      forall i | 0 <= i < |cs[k]| ensures cs[k][i] != ' ' {
        assert ws[k][i] != ' ';
        if i > 0 {
          assert cs[k][i] == cs[k][1..][i - 1] == ws[k][1..][i - 1] == ws[k][i];
        }
      }
    }
    assert " " == [' '];
    SplitJoin(cs, ' ');
  }

  // ---------------------------------------------------------------------------
  // Requests and modal contents

  const NutritionPath: string := "/ai/nutrition"
  const ConsumeRatioPath: string := "/ai/consume-ratio"
  const DefaultUnit: string := "kg"
  const NutritionFailed: string := "Failed to fetch nutrition"
  const ConsumeRatioFailed: string := "Failed to fetch consume ratio"

  /** `quantity: donation.quantity || 1, unit: donation.unit || "kg"`. */
  function AmountParams(donation: Json): (p: map<string, Json>)
    ensures p.Keys == {"quantity", "unit"}
    ensures p["quantity"] == Or(Get(donation, "quantity"), JNum(1))
    ensures p["unit"] == Or(Get(donation, "unit"), JStr(DefaultUnit))
    ensures Truthy(p["quantity"]) && Truthy(p["unit"])
  {
    map["quantity" := Or(Get(donation, "quantity"), JNum(1)),
        "unit" := Or(Get(donation, "unit"), JStr(DefaultUnit))]
  }

  /** `handleGetNutrition`'s request, or none while the donation is not loaded. The
      name is the title, else the description; when that is undefined or null it is
      not sent. */
  function NutritionQuery(donation: Json): (c: Option<Config>)
    ensures c.Some? <==> Truthy(donation)
    ensures c.Some? ==> c.value.url == NutritionPath && c.value.verb == "GET"
    ensures c.Some? ==> {"quantity", "unit"} <= c.value.params.Keys <= {"name", "quantity", "unit"}
    ensures c.Some? ==> c.value.params["quantity"] == Or(Get(donation, "quantity"), JNum(1))
    ensures c.Some? ==> c.value.params["unit"] == Or(Get(donation, "unit"), JStr(DefaultUnit))
    ensures c.Some? && TruthyOpt(Get(donation, "title")) ==>
      "name" in c.value.params && c.value.params["name"] == Get(donation, "title").value
    ensures c.Some? && !TruthyOpt(Get(donation, "title")) && Present(donation, "description") ==>
      "name" in c.value.params && c.value.params["name"] == Get(donation, "description").value
    ensures c.Some? && !TruthyOpt(Get(donation, "title")) && !Present(donation, "description") ==>
      c.value.params.Keys == {"quantity", "unit"}
  {
    if !Truthy(donation) then None
    else Some(GetRequest(NutritionPath,
      WithParam(AmountParams(donation), "name", OrOpt(Get(donation, "title"), Get(donation, "description")))))
  }

  /** `handleConsumeRatio`'s request: like the nutrition one, except that the name falls
      back to "" and so is always sent. */
  function ConsumeRatioQuery(donation: Json): (c: Option<Config>)
    ensures c.Some? <==> Truthy(donation)
    ensures c.Some? ==> c.value.url == ConsumeRatioPath && c.value.verb == "GET"
    ensures c.Some? ==> c.value.params.Keys == {"name", "quantity", "unit"}
    ensures c.Some? ==> c.value.params["quantity"] == Or(Get(donation, "quantity"), JNum(1))
    ensures c.Some? ==> c.value.params["unit"] == Or(Get(donation, "unit"), JStr(DefaultUnit))
    ensures c.Some? ==>
      c.value.params["name"] == Or(Get(donation, "title"), Or(Get(donation, "description"), JStr("")))
  {
    if !Truthy(donation) then None
    else Some(GetRequest(ConsumeRatioPath,
      AmountParams(donation)["name" := Or(Get(donation, "title"), Or(Get(donation, "description"), JStr("")))]))
  }

  /** The two queries agree on everything but the fallback of the name. */
  lemma QueriesShareDefaults(donation: Json)
    requires Truthy(donation)
    ensures NutritionQuery(donation).value.params["quantity"] == ConsumeRatioQuery(donation).value.params["quantity"]
    ensures NutritionQuery(donation).value.params["unit"] == ConsumeRatioQuery(donation).value.params["unit"]
    ensures TruthyOpt(Get(donation, "title")) || TruthyOpt(Get(donation, "description")) ==>
      NutritionQuery(donation).value.params["name"] == ConsumeRatioQuery(donation).value.params["name"]
  {
  }

  /** What a modal holds after its request: the body, or an object whose `error` is the
      backend's message when it sent a truthy one, else the fixed text. */
  function ModalContent(reply: Reply, fallback: string): (c: Json)
    ensures reply.Response? ==> c == reply.data
    ensures reply.Rejected? ==> Get(c, "error") == Some(Or(ErrorMessage(reply.error), JStr(fallback)))
    ensures reply.Rejected? && fallback != "" ==> TruthyOpt(Get(c, "error"))
  {
    if reply.Response? then reply.data
    else JObj(map["error" := Or(ErrorMessage(reply.error), JStr(fallback))])
  }

  /** `Array.isArray(consumeData.variants) && consumeData.variants.length > 0`. */
  predicate VariantsPresent(data: Json) {
    Get(data, "variants").Some? && Get(data, "variants").value.JArr?
    && |Get(data, "variants").value.items| > 0
  }

  /** The serving cell of a variant row: grams, else millilitres, else pieces per
      person, else a dash. */
  function ServingCell(v: Json): (r: string)
    ensures r == "-" <==>
      !TruthyOpt(Get(v, "serving_g")) && !TruthyOpt(Get(v, "serving_ml")) && !TruthyOpt(Get(v, "piecesPerPerson"))
    ensures TruthyOpt(Get(v, "serving_g")) ==> r == ToStr(Get(v, "serving_g").value) + " g"
    ensures !TruthyOpt(Get(v, "serving_g")) && TruthyOpt(Get(v, "serving_ml")) ==>
      r == ToStr(Get(v, "serving_ml").value) + " ml"
    ensures !TruthyOpt(Get(v, "serving_g")) && !TruthyOpt(Get(v, "serving_ml"))
            && TruthyOpt(Get(v, "piecesPerPerson")) ==>
      r == ToStr(Get(v, "piecesPerPerson").value) + " pcs/person"
  {
    if TruthyOpt(Get(v, "serving_g")) then ToStr(Get(v, "serving_g").value) + " g"
    else if TruthyOpt(Get(v, "serving_ml")) then ToStr(Get(v, "serving_ml").value) + " ml"
    else if TruthyOpt(Get(v, "piecesPerPerson")) then ToStr(Get(v, "piecesPerPerson").value) + " pcs/person"
    else "-"
  }

  /** One row of the variants table, with the bar chart's value for it. */
  datatype VariantRow = VariantRow(variant: Option<Json>, persons: Option<Json>, serving: string, chartValue: Json)

  /** The label and persons cells show the variant's own fields; the chart plots
      `Number(v.persons || 0)`, so a variant without truthy persons is plotted at 0. */
  function Row(v: Json): (r: VariantRow)
    ensures r.variant == Get(v, "label") && r.persons == Get(v, "persons")
    ensures r.serving == ServingCell(v)
    ensures !TruthyOpt(Get(v, "persons")) ==> r.chartValue == JNum(0)
    ensures TruthyOpt(Get(v, "persons")) ==> r.chartValue == ToNumber(Get(v, "persons").value)
  {
    VariantRow(Get(v, "label"), Get(v, "persons"), ServingCell(v), ToNumber(Or(Get(v, "persons"), JNum(0))))
  }

  /** What the consume-ratio modal shows. */
  datatype ConsumeView =
    | LoadingPredictions              // "Loading predictions..."
    | PredictionError(error: Json)
    | Predictions(explanation: Option<Json>, rows: Option<seq<VariantRow>>, aiNote: Option<Json>)

  /** `rows` is `None` for "No variant predictions available."; the note is shown only
      when truthy. */
  function ViewConsume(data: Json): (v: ConsumeView)
    ensures v == LoadingPredictions <==> !Truthy(data)
    ensures v.PredictionError? <==> Truthy(data) && TruthyOpt(Get(data, "error"))
    ensures v.PredictionError? ==> v.error == Get(data, "error").value
    ensures v.Predictions? ==> v.explanation == Get(data, "explanation")
    ensures v.Predictions? ==> (v.rows.Some? <==> VariantsPresent(data))
    ensures v.Predictions? && v.rows.Some? ==> |v.rows.value| == |Get(data, "variants").value.items|
    ensures v.Predictions? && v.rows.Some? ==>
      forall k :: 0 <= k < |v.rows.value| ==> v.rows.value[k] == Row(Get(data, "variants").value.items[k])
    ensures v.Predictions? ==> (v.aiNote.Some? <==> TruthyOpt(Get(data, "aiNote")))
    ensures v.Predictions? && v.aiNote.Some? ==> v.aiNote == Get(data, "aiNote")
  {
    if !Truthy(data) then LoadingPredictions
    else if TruthyOpt(Get(data, "error")) then PredictionError(Get(data, "error").value)
    else
      var items := if VariantsPresent(data) then Get(data, "variants").value.items else [];
      Predictions(
        Get(data, "explanation"),
        if VariantsPresent(data) then Some(seq(|items|, k requires 0 <= k < |items| => Row(items[k]))) else None,
        if TruthyOpt(Get(data, "aiNote")) then Get(data, "aiNote") else None)
  }
}
