/** `renderTipsMarkdown` and its inner `processInline` from src/pages/MyDonations.jsx:
    the markdown subset in which the AI's storage tips arrive.

    The text is split into lines after normalising line endings; a blank line is a
    spacer, a maximal run of "* "/"- " lines is one bullet list, a maximal run of other
    lines is one paragraph. Inside list items and paragraphs, `**…**` pairs become bold
    pieces. The React elements are modelled by the `Block` and `Inline` values that
    determine them; element keys are left out. */
module TipsMarkdown {
  import opened Wrappers
  import opened Text
  import opened Json

  datatype Inline = Plain(text: string) | Bold(text: string)

  datatype Block =
    | Spacer                         // <div style={{ height: 8 }} />
    | List(items: seq<seq<Inline>>)  // <ul> with one <li> per item
    | Para(content: seq<Inline>)     // <p>

  // ---------------------------------------------------------------------------
  // Line endings

  /** `.replace(/\r\n/g, '\n')`. */
  function ReplaceCrLf(s: string): string
  {
    if s == [] then []
    else if |s| >= 2 && s[0] == '\r' && s[1] == '\n' then "\n" + ReplaceCrLf(s[2..])
    else [s[0]] + ReplaceCrLf(s[1..])
  }

  /** `.replace(/\r/g, '\n')`. */
  function ReplaceCr(s: string): (r: string)
    ensures |r| == |s| && '\r' !in r
    ensures forall i :: 0 <= i < |s| ==> r[i] == if s[i] == '\r' then '\n' else s[i]
  {
    seq(|s|, i requires 0 <= i < |s| => if s[i] == '\r' then '\n' else s[i])
  }

  function NormalizeNewlines(s: string): string
  {
    ReplaceCr(ReplaceCrLf(s))
  }

  lemma {:induction false} ReplaceCrLfNoCr(s: string)
    requires '\r' !in s
    ensures ReplaceCrLf(s) == s
  {
    if s != [] {
      ReplaceCrLfNoCr(s[1..]);
      assert [s[0]] + s[1..] == s;
    }
  }

  lemma {:induction false} ReplaceCrLfPair(a: string, b: string)
    requires '\r' !in a
    ensures ReplaceCrLf(a + "\r\n" + b) == a + "\n" + ReplaceCrLf(b)
  {
    if a == [] {
      assert (a + "\r\n" + b)[2..] == b;
    } else {
      ReplaceCrLfPair(a[1..], b);
      assert (a + "\r\n" + b)[1..] == a[1..] + "\r\n" + b;
      assert [a[0]] + a[1..] == a;
    }
  }

  /** No carriage return survives normalisation; a text without one is left as it is,
      and a CRLF pair becomes a single line feed. */
  lemma NormalizeNewlinesSpec(s: string, a: string, b: string)
    requires '\r' !in a && '\r' !in b
    ensures '\r' !in NormalizeNewlines(s)
    ensures '\r' !in s ==> NormalizeNewlines(s) == s
    ensures NormalizeNewlines(a + "\r\n" + b) == a + "\n" + b
  {
    if '\r' !in s {
      ReplaceCrLfNoCr(s);
      assert ReplaceCr(s) == s;
    }
    ReplaceCrLfPair(a, b);
    ReplaceCrLfNoCr(b);
    var t := a + "\n" + b;
    assert '\r' !in t;
    assert ReplaceCr(t) == t;
  }

  /** The lines the parser walks over. */
  function Lines(raw: Json): seq<string> {
    Split(NormalizeNewlines(ToStr(raw)), '\n')
  }

  // ---------------------------------------------------------------------------
  // Inline pass: /\*\*(.+?)\*\*/g

  /** The characters `.` does not match. */
  predicate IsLineTerminator(c: char) {
    c == '\n' || c == '\r' || c == '\U{2028}' || c == '\U{2029}'
  }

  predicate StarPairAt(s: string, k: nat) {
    k + 2 <= |s| && s[k] == '*' && s[k + 1] == '*'
  }

  /** The regex matches `s[p..q + 2]` with group 1 = `s[p + 2..q]`: two stars, at least
      one character other than a line terminator, two stars. */
  predicate IsBoldAt(s: string, p: nat, q: nat) {
    StarPairAt(s, p) && p + 3 <= q && StarPairAt(s, q)
    && forall k :: p + 2 <= k < q ==> !IsLineTerminator(s[k])
  }

  /** The lazy `.+?`: the first closing pair at or after `q` for the opening pair at
      `p`, unless a line terminator comes first. */
  function CloseFrom(s: string, p: nat, q: nat): (r: Option<nat>)
    requires p + 3 <= q
    ensures r.Some? ==> q <= r.value && StarPairAt(s, r.value)
    decreases |s| - q
  {
    if q + 2 > |s| then None
    else if IsLineTerminator(s[q - 1]) then None
    else if StarPairAt(s, q) then Some(q)
    else CloseFrom(s, p, q + 1)
  }

  /** The regex tried at position `p` only. */
  function MatchAt(s: string, p: nat): (r: Option<nat>)
    ensures r.Some? ==> StarPairAt(s, p) && p + 3 <= r.value && StarPairAt(s, r.value)
  {
    if StarPairAt(s, p) then CloseFrom(s, p, p + 3) else None
  }

  /** `boldRegex.exec(s)` with `lastIndex == from`. */
  function FindBold(s: string, from: nat): (r: Option<(nat, nat)>)
    ensures r.Some? ==>
      from <= r.value.0 && r.value.0 + 3 <= r.value.1 && StarPairAt(s, r.value.0) && StarPairAt(s, r.value.1)
    decreases |s| - from
  {
    if from >= |s| then None
    else
      match MatchAt(s, from)
      case Some(q) => Some((from, q))
      case None => FindBold(s, from + 1)
  }

  lemma {:induction false} CloseFromSpec(s: string, p: nat, q: nat)
    requires StarPairAt(s, p) && p + 3 <= q
    requires forall k :: p + 2 <= k < q - 1 && k < |s| ==> !IsLineTerminator(s[k])
    ensures CloseFrom(s, p, q).Some? ==> IsBoldAt(s, p, CloseFrom(s, p, q).value)
    ensures CloseFrom(s, p, q).Some? ==>
      forall m: nat :: q <= m < CloseFrom(s, p, q).value ==> !IsBoldAt(s, p, m)
    ensures CloseFrom(s, p, q).None? ==> forall m: nat :: q <= m ==> !IsBoldAt(s, p, m)
    decreases |s| - q
  {
    if q + 2 > |s| {
    } else if IsLineTerminator(s[q - 1]) {
    } else if StarPairAt(s, q) {
    } else {
      CloseFromSpec(s, p, q + 1);
    }
  }

  /** The match at `p`, when there is one, is a bold match with the shortest content;
      when there is none, no bold match starts at `p`. */
  lemma MatchAtSpec(s: string, p: nat)
    ensures MatchAt(s, p).Some? ==> IsBoldAt(s, p, MatchAt(s, p).value)
    ensures MatchAt(s, p).Some? ==> forall m: nat :: m < MatchAt(s, p).value ==> !IsBoldAt(s, p, m)
    ensures MatchAt(s, p).None? ==> forall m: nat :: !IsBoldAt(s, p, m)
  {
    if StarPairAt(s, p) {
      CloseFromSpec(s, p, p + 3);
    }
  }

  /** `FindBold` is the leftmost bold match at or after `from`, with the shortest
      content at that start; `None` means there is no bold match from `from` on. */
  lemma {:induction false} FindBoldSpec(s: string, from: nat)
    ensures FindBold(s, from).Some? ==>
      var (p, q) := FindBold(s, from).value;
      IsBoldAt(s, p, q)
      && (forall p': nat, q': nat :: from <= p' < p ==> !IsBoldAt(s, p', q'))
      && (forall q': nat :: q' < q ==> !IsBoldAt(s, p, q'))
    ensures FindBold(s, from).None? ==> forall p': nat, q': nat :: from <= p' ==> !IsBoldAt(s, p', q')
    decreases |s| - from
  {
    if from < |s| {
      MatchAtSpec(s, from);
      if MatchAt(s, from).None? {
        FindBoldSpec(s, from + 1);
      }
    }
  }

  /** The pieces `processInline` pushes from `lastIndex == last` on. */
  function Parts(s: string, last: nat): seq<Inline>
    requires last <= |s|
    decreases |s| - last
  {
    match FindBold(s, last)
    case None => if last < |s| then [Plain(s[last..])] else []
    case Some((p, q)) => Chunk(s, last, p, q) + Parts(s, q + 2)
  }

  lemma Regroup<T>(a: seq<T>, b: seq<T>, c: seq<T>)
    ensures a + (b + c) == (a + b) + c
  {
  }

  /** One step of the `exec` loop: the text before the match, then the match. */
  lemma PartsStep(s: string, last: nat, p: nat, q: nat)
    requires last <= |s| && FindBold(s, last) == Some((p, q))
    ensures Parts(s, last) == Chunk(s, last, p, q) + Parts(s, q + 2)
  {
  }

  /** What one match contributes from `last` on. */
  function Chunk(s: string, last: nat, p: nat, q: nat): seq<Inline>
    requires last <= p && p + 2 <= q <= |s|
  {
    (if p > last then [Plain(s[last..p])] else []) + [Bold(s[p + 2..q])]
  }

  /** The tail once no match is left. */
  lemma PartsLast(s: string, last: nat)
    requires last <= |s| && FindBold(s, last).None?
    ensures Parts(s, last) == if last < |s| then [Plain(s[last..])] else []
  {
  }

  /** The pieces `processInline` has once its loop resumes at `lastIndex == last`
      having pushed `acc`. */
  function PartsFrom(s: string, last: nat, acc: seq<Inline>): seq<Inline>
    requires last <= |s|
    decreases |s| - last
  {
    match FindBold(s, last)
    case None => if last < |s| then acc + [Plain(s[last..])] else acc
    case Some((p, q)) => PartsFrom(s, q + 2, acc + Chunk(s, last, p, q))
  }

  lemma {:induction false} PartsFromParts(s: string, last: nat, acc: seq<Inline>)
    requires last <= |s|
    ensures PartsFrom(s, last, acc) == acc + Parts(s, last)
    decreases |s| - last
  {
    match FindBold(s, last)
    case None =>
    case Some((p, q)) =>
      PartsFromParts(s, q + 2, acc + Chunk(s, last, p, q));
      PartsStep(s, last, p, q);
      Regroup(acc, Chunk(s, last, p, q), Parts(s, q + 2));
  }

  /** `processInline(s)`; when nothing was pushed (only for "") the string itself. */
  function Inlines(s: string): seq<Inline>
  {
    var ps := Parts(s, 0);
    if ps == [] then [Plain(s)] else ps
  }

  method ProcessInline(s: string) returns (parts: seq<Inline>)
    ensures parts == Inlines(s)
  {
    parts := [];
    var lastIndex: nat := 0;
    var m := FindBold(s, lastIndex);
    PartsFromParts(s, 0, []);
    while m.Some?
      invariant lastIndex <= |s|
      invariant m == FindBold(s, lastIndex)
      invariant PartsFrom(s, lastIndex, parts) == Parts(s, 0)
      decreases |s| - lastIndex
    {
      var (p, q) := m.value;
      ghost var before := parts;
      if p > lastIndex {
        parts := parts + [Plain(s[lastIndex..p])];
      }
      parts := parts + [Bold(s[p + 2..q])];
      assert parts == before + Chunk(s, lastIndex, p, q);
      lastIndex := q + 2;
      m := FindBold(s, lastIndex);
    }
    if lastIndex < |s| {
      parts := parts + [Plain(s[lastIndex..])];
    }
    if parts == [] {
      parts := [Plain(s)];
    }
  }

  /** The source text a piece came from: bold pieces re-wrapped in `**`. */
  function Piece(x: Inline): string
  {
    match x
    case Plain(t) => t
    case Bold(t) => "**" + t + "**"
  }

  function Unparse(xs: seq<Inline>): string
  {
    if xs == [] then "" else Piece(xs[0]) + Unparse(xs[1..])
  }

  lemma {:induction false} UnparseAppend(a: seq<Inline>, b: seq<Inline>)
    ensures Unparse(a + b) == Unparse(a) + Unparse(b)
  {
    if a == [] {
      assert a + b == b;
    } else {
      assert (a + b)[1..] == a[1..] + b;
      UnparseAppend(a[1..], b);
      assert Unparse(a + b) == Piece(a[0]) + Unparse(a[1..] + b);
    }
  }

  lemma UnparseOne(x: Inline)
    ensures Unparse([x]) == Piece(x)
  {
    assert [x][1..] == [];
  }

  /** The closing and opening star pairs around a bold body. */
  lemma StarsAround(s: string, p: nat, q: nat)
    requires p + 3 <= q && StarPairAt(s, p) && StarPairAt(s, q)
    ensures s[p..q + 2] == "**" + s[p + 2..q] + "**"
  {
    assert s[p..q + 2] == s[p..p + 2] + s[p + 2..q] + s[q..q + 2];
    assert s[p..p + 2] == "**";
    assert s[q..q + 2] == "**";
  }

  /** A match's chunk spells the text from `last` to just after the closing stars. */
  lemma UnparseChunk(s: string, last: nat, p: nat, q: nat)
    requires last <= p && p + 3 <= q && StarPairAt(s, p) && StarPairAt(s, q)
    ensures Unparse(Chunk(s, last, p, q)) == s[last..q + 2]
  {
    var b := Bold(s[p + 2..q]);
    UnparseOne(b);
    StarsAround(s, p, q);
    assert s[last..q + 2] == s[last..p] + s[p..q + 2];
    if p > last {
      UnparseAppend([Plain(s[last..p])], [b]);
      UnparseOne(Plain(s[last..p]));
    } else {
      assert Chunk(s, last, p, q) == [b];
    }
  }

  lemma {:induction false} UnparseParts(s: string, last: nat)
    requires last <= |s|
    ensures Unparse(Parts(s, last)) == s[last..]
    decreases |s| - last, 1
  {
    if FindBold(s, last).None? {
      UnparseLast(s, last);
    } else {
      UnparseMatch(s, last, FindBold(s, last).value.0, FindBold(s, last).value.1);
    }
  }

  /** The text from a match on: the rest after it by induction, then the chunk. */
  lemma {:induction false} UnparseMatch(s: string, last: nat, p: nat, q: nat)
    requires last <= |s| && FindBold(s, last) == Some((p, q))
    ensures Unparse(Parts(s, last)) == s[last..]
    decreases |s| - last, 0
  {
    UnparseParts(s, q + 2);
    UnparseMatchWith(s, last, p, q);
  }

  lemma UnparseMatchWith(s: string, last: nat, p: nat, q: nat)
    requires last <= |s| && FindBold(s, last) == Some((p, q))
    requires Unparse(Parts(s, q + 2)) == s[q + 2..]
    ensures Unparse(Parts(s, last)) == s[last..]
  {
    PartsStep(s, last, p, q);
    UnparseChunk(s, last, p, q);
    UnparseStep(s, last, q + 2, Parts(s, last), Chunk(s, last, p, q), Parts(s, q + 2));
  }

  lemma UnparseLast(s: string, last: nat)
    requires last <= |s| && FindBold(s, last).None?
    ensures Unparse(Parts(s, last)) == s[last..]
  {
    PartsLast(s, last);
    if last < |s| {
      UnparseOne(Plain(s[last..]));
    }
  }

  /** One match: the chunk spells the text up to `mid`, the rest spells the text after. */
  lemma UnparseStep(s: string, last: nat, mid: nat, xs: seq<Inline>, c: seq<Inline>, r: seq<Inline>)
    requires last <= mid <= |s| && xs == c + r
    requires Unparse(c) == s[last..mid] && Unparse(r) == s[mid..]
    ensures Unparse(xs) == s[last..]
  {
    UnparseAppend(c, r);
    assert s[last..] == s[last..mid] + s[mid..];
  }

  /** Reconstruction: the pieces, with bold ones re-wrapped in `**`, spell the input. */
  lemma InlinesUnparse(s: string)
    ensures Unparse(Inlines(s)) == s
  {
    UnparseParts(s, 0);
    assert s[0..] == s;
  }

  /** What the lazy match guarantees about a bold piece's text `c`: not empty, on one
      line, and no closing `**` could have been found earlier, i.e. no "**" inside it
      after its first character and no '*' at its end. */
  predicate WellFormedBold(c: string) {
    |c| >= 1
    && (forall k :: 0 <= k < |c| ==> !IsLineTerminator(c[k]))
    && (forall j :: 1 <= j < |c| - 1 ==> !(c[j] == '*' && c[j + 1] == '*'))
    && (|c| >= 2 ==> c[|c| - 1] != '*')
  }

  /** No `**…**` match lies wholly inside `t`: its stars stay literal. */
  ghost predicate NoBold(t: string) {
    forall p: nat, q: nat :: !IsBoldAt(t, p, q)
  }

  ghost predicate GoodPiece(x: Inline) {
    match x
    case Plain(t) => t != "" && NoBold(t)
    case Bold(c) => WellFormedBold(c)
  }

  lemma SliceBold(s: string, lo: nat, hi: nat, p: nat, q: nat)
    requires lo <= hi <= |s|
    requires IsBoldAt(s[lo..hi], p, q)
    ensures IsBoldAt(s, lo + p, lo + q)
  {
    var t := s[lo..hi];
    forall k | lo + p + 2 <= k < lo + q
      ensures !IsLineTerminator(s[k])
    {
      assert t[k - lo] == s[k];
    }
  }

  lemma PlainPieceNoBold(s: string, lo: nat, hi: nat)
    requires lo <= hi <= |s|
    requires forall p: nat, q: nat :: lo <= p < hi ==> !IsBoldAt(s, p, q)
    ensures NoBold(s[lo..hi])
  {
    forall p: nat, q: nat | IsBoldAt(s[lo..hi], p, q)
      ensures false
    {
      SliceBold(s, lo, hi, p, q);
    }
  }

  lemma BoldPieceWellFormed(s: string, p: nat, q: nat)
    requires IsBoldAt(s, p, q)
    requires forall m: nat :: m < q ==> !IsBoldAt(s, p, m)
    ensures WellFormedBold(s[p + 2..q])
  {
    var c := s[p + 2..q];
    forall j | 1 <= j < |c| - 1
      ensures !(c[j] == '*' && c[j + 1] == '*')
    {
      var m := p + 2 + j;
      assert c[j] == s[m] && c[j + 1] == s[m + 1];
      assert !IsBoldAt(s, p, m);
    }
    if |c| >= 2 {
      assert !IsBoldAt(s, p, q - 1);
      assert c[|c| - 1] == s[q - 1];
    }
  }

  ghost predicate AllGood(xs: seq<Inline>) {
    forall k :: 0 <= k < |xs| ==> GoodPiece(xs[k])
  }

  lemma AllGoodAppend(a: seq<Inline>, b: seq<Inline>)
    requires AllGood(a) && AllGood(b)
    ensures AllGood(a + b)
  {
    forall k | 0 <= k < |a + b| ensures GoodPiece((a + b)[k]) {
      if k >= |a| {
        assert (a + b)[k] == b[k - |a|];
      }
    }
  }

  /** The pieces one match contributes are good. */
  lemma ChunkGood(s: string, last: nat, p: nat, q: nat)
    requires last <= |s| && FindBold(s, last) == Some((p, q))
    ensures AllGood(Chunk(s, last, p, q))
  {
    FindBoldSpec(s, last);
    if p > last {
      PlainPieceNoBold(s, last, p);
    }
    BoldPieceWellFormed(s, p, q);
  }

  /** The text after the last match is good. */
  lemma TailGood(s: string, last: nat)
    requires last < |s| && FindBold(s, last).None?
    ensures GoodPiece(Plain(s[last..]))
  {
    FindBoldSpec(s, last);
    PlainPieceNoBold(s, last, |s|);
    assert s[last..|s|] == s[last..];
  }

  lemma {:induction false} PartsGood(s: string, last: nat)
    requires last <= |s|
    ensures AllGood(Parts(s, last))
    decreases |s| - last
  {
    match FindBold(s, last)
    case None =>
      PartsLast(s, last);
      if last < |s| {
        TailGood(s, last);
      }
    case Some((p, q)) =>
      PartsStep(s, last, p, q);
      ChunkGood(s, last, p, q);
      PartsGood(s, q + 2);
      AllGoodAppend(Chunk(s, last, p, q), Parts(s, q + 2));
  }

  /** Every piece of a non-empty string is either non-empty plain text in which no
      `**…**` pair is left unconverted, or a bold piece taken by the shortest match. */
  lemma InlinesGood(s: string)
    requires s != ""
    ensures AllGood(Inlines(s))
  {
    PartsGood(s, 0);
    if Parts(s, 0) == [] {
      UnparseParts(s, 0);
      assert false;
    }
  }

  /** A worked example: one bold pair inside text, and an unmatched pair. */
  lemma InlinesExamples()
    ensures Inlines("a **b** c") == [Plain("a "), Bold("b"), Plain(" c")]
    ensures Inlines("**x") == [Plain("**x")]
  {
    var s := "a **b** c";
    assert MatchAt(s, 0) == None;
    assert MatchAt(s, 1) == None;
    assert CloseFrom(s, 2, 5) == Some(5);
    assert FindBold(s, 0) == Some((2, 5));
    assert FindBold(s, 7) == None;
    assert Parts(s, 7) == [Plain(" c")];
    assert s[0..2] == "a " && s[4..5] == "b" && s[7..] == " c";
    assert Parts(s, 0) == [Plain("a ")] + [Bold("b")] + [Plain(" c")];
    var t := "**x";
    assert FindBold(t, 0) == None;
    assert Parts(t, 0) == [Plain(t)];
  }

  // ---------------------------------------------------------------------------
  // Block pass

  /** `/^(\*|-)\s+/.test(line)` on a trimmed line. */
  predicate IsBullet(t: string) {
    |t| >= 2 && (t[0] == '*' || t[0] == '-') && IsSpace(t[1])
  }

  predicate IsBlank(line: string) { Trim(line) == "" }

  predicate IsBulletLine(line: string) { IsBullet(Trim(line)) }

  predicate IsParaLine(line: string) { !IsBlank(line) && !IsBulletLine(line) }

  /** `line.trim().replace(/^(\*|-)\s+/, '')`: the marker and the white space after it
      removed. */
  function ItemText(line: string): string
  {
    var t := Trim(line);
    if IsBullet(t) then TrimStart(t[1..]) else t
  }

  /** On a bullet line, the item is what follows the marker and the (non-empty) run of
      white space after it, and it does not itself start with white space. */
  lemma ItemTextSpec(line: string)
    requires IsBulletLine(line)
    ensures var t, c := Trim(line), ItemText(line);
      |c| + 2 <= |t| && (t[0] == '*' || t[0] == '-')
      && t == t[..|t| - |c|] + c
      && AllSpace(t[1..|t| - |c|])
      && (c != "" ==> !IsSpace(c[0]))
  {
    var t := Trim(line);
    TrimStartSpec(t[1..]);
    var c := ItemText(line);
    assert t[1..][|t| - 1 - |c|..] == t[|t| - |c|..];
    assert t == t[..|t| - |c|] + t[|t| - |c|..];
    var w := t[1..|t| - |c|];
    forall i | 0 <= i < |w| ensures IsSpace(w[i]) {
      assert w[i] == t[1..][i];
    }
  }

  /** The end of the maximal run of bullet lines starting at `i`. */
  function BulletEnd(lines: seq<string>, i: nat): (j: nat)
    requires i <= |lines|
    ensures i <= j <= |lines|
    ensures forall k :: i <= k < j ==> IsBulletLine(lines[k])
    ensures j < |lines| ==> !IsBulletLine(lines[j])
    decreases |lines| - i
  {
    if i < |lines| && IsBulletLine(lines[i]) then BulletEnd(lines, i + 1) else i
  }

  /** The end of the maximal run of paragraph lines starting at `i`. */
  function ParaEnd(lines: seq<string>, i: nat): (j: nat)
    requires i <= |lines|
    ensures i <= j <= |lines|
    ensures forall k :: i <= k < j ==> IsParaLine(lines[k])
    ensures j < |lines| ==> !IsParaLine(lines[j])
    decreases |lines| - i
  {
    if i < |lines| && IsParaLine(lines[i]) then ParaEnd(lines, i + 1) else i
  }

  /** The items of the bullet lines `lines[i..j]`, in order. */
  function ItemTexts(lines: seq<string>, i: nat, j: nat): (r: seq<string>)
    requires i <= j <= |lines|
    ensures |r| == j - i
    ensures forall k :: 0 <= k < |r| ==> r[k] == ItemText(lines[i + k])
    decreases j - i
  {
    if j == i then [] else ItemTexts(lines, i, j - 1) + [ItemText(lines[j - 1])]
  }

  /** The trimmed lines `lines[i..j]`, in order. */
  function TrimmedLines(lines: seq<string>, i: nat, j: nat): (r: seq<string>)
    requires i <= j <= |lines|
    ensures |r| == j - i
    ensures forall k :: 0 <= k < |r| ==> r[k] == Trim(lines[i + k])
    decreases j - i
  {
    if j == i then [] else TrimmedLines(lines, i, j - 1) + [Trim(lines[j - 1])]
  }

  /** `items.map(processInline)`. */
  function MapInlines(items: seq<string>): (r: seq<seq<Inline>>)
    ensures |r| == |items|
    ensures forall k :: 0 <= k < |items| ==> r[k] == Inlines(items[k])
  {
    seq(|items|, k requires 0 <= k < |items| => Inlines(items[k]))
  }

  /** One list item per line of the run, each the inline pass over that line's item. */
  function ListBlock(lines: seq<string>, i: nat, j: nat): (b: Block)
    requires i <= j <= |lines|
    ensures b.List? && |b.items| == j - i
    ensures forall k :: 0 <= k < j - i ==> b.items[k] == Inlines(ItemText(lines[i + k]))
  {
    List(MapInlines(ItemTexts(lines, i, j)))
  }

  function ParaText(lines: seq<string>, i: nat, j: nat): string
    requires i <= j <= |lines|
  {
    Join(TrimmedLines(lines, i, j), " ")
  }

  /** A paragraph of one line is that line trimmed; each further line is appended
      after one space. */
  lemma ParaTextExtend(lines: seq<string>, i: nat, j: nat)
    requires i < j < |lines|
    ensures ParaText(lines, i, i + 1) == Trim(lines[i])
    ensures ParaText(lines, i, j + 1) == ParaText(lines, i, j) + " " + Trim(lines[j])
  {
    assert TrimmedLines(lines, i, i + 1) == [Trim(lines[i])];
    assert TrimmedLines(lines, i, j + 1) == TrimmedLines(lines, i, j) + [Trim(lines[j])];
    JoinSnoc(TrimmedLines(lines, i, j), Trim(lines[j]), " ");
  }

  /** The blocks the `while (i < lines.length)` loop pushes from line `i` on. */
  function BlocksFrom(lines: seq<string>, i: nat): seq<Block>
    requires i <= |lines|
    decreases |lines| - i
  {
    if i == |lines| then []
    else if IsBlank(lines[i]) then [Spacer] + BlocksFrom(lines, i + 1)
    else if IsBulletLine(lines[i]) then
      var j := BulletEnd(lines, i);
      [ListBlock(lines, i, j)] + BlocksFrom(lines, j)
    else
      var j := ParaEnd(lines, i);
      [Para(Inlines(ParaText(lines, i, j)))] + BlocksFrom(lines, j)
  }

  /** What `renderTipsMarkdown(raw)` returns: nothing for a falsy argument. */
  function RenderTips(raw: Json): (r: Option<seq<Block>>)
    ensures r.None? <==> !Truthy(raw)
  {
    if !Truthy(raw) then None else Some(BlocksFrom(Lines(raw), 0))
  }

  /** The inner `while` over bullet lines: the items with their markers removed, and
      the first line after the run. */
  method CollectItems(lines: seq<string>, start: nat) returns (items: seq<string>, i: nat)
    requires start < |lines| && IsBulletLine(lines[start])
    ensures start < i && i == BulletEnd(lines, start)
    ensures items == ItemTexts(lines, start, i)
  {
    items := [];
    i := start;
    while i < |lines| && IsBulletLine(lines[i])
      invariant start <= i <= |lines|
      invariant forall k :: start <= k < i ==> IsBulletLine(lines[k])
      invariant items == ItemTexts(lines, start, i)
      decreases |lines| - i
    {
      items := items + [ItemText(lines[i])];
      i := i + 1;
    }
    assert i == BulletEnd(lines, start);
  }

  /** The inner `while` over paragraph lines: the trimmed lines, and the first line
      after the run. */
  method CollectParagraph(lines: seq<string>, start: nat) returns (paraLines: seq<string>, i: nat)
    requires start < |lines| && IsParaLine(lines[start])
    ensures start < i && i == ParaEnd(lines, start)
    ensures paraLines == TrimmedLines(lines, start, i)
  {
    paraLines := [];
    i := start;
    while i < |lines| && IsParaLine(lines[i])
      invariant start <= i <= |lines|
      invariant forall k :: start <= k < i ==> IsParaLine(lines[k])
      invariant paraLines == TrimmedLines(lines, start, i)
      decreases |lines| - i
    {
      paraLines := paraLines + [Trim(lines[i])];
      i := i + 1;
    }
    assert i == ParaEnd(lines, start);
  }

  /** The `items.map(...)` of the list element, one `processInline` per item. */
  method ProcessItems(items: seq<string>) returns (rendered: seq<seq<Inline>>)
    ensures rendered == MapInlines(items)
  {
    rendered := [];
    var k := 0;
    while k < |items|
      invariant k <= |items|
      invariant |rendered| == k
      invariant forall m :: 0 <= m < k ==> rendered[m] == Inlines(items[m])
    {
      var parts := ProcessInline(items[k]);
      rendered := rendered + [parts];
      k := k + 1;
    }
  }

  method RenderTipsMarkdown(raw: Json) returns (nodes: Option<seq<Block>>)
    ensures nodes == RenderTips(raw)
  {
    if !Truthy(raw) {
      return None;
    }
    var text := NormalizeNewlines(ToStr(raw));
    var lines := Split(text, '\n');
    var out: seq<Block> := [];
    var i: nat := 0;
    while i < |lines|
      invariant i <= |lines|
      invariant out + BlocksFrom(lines, i) == BlocksFrom(lines, 0)
      decreases |lines| - i
    {
      var line := Trim(lines[i]);
      if line == "" {
        Regroup(out, [Spacer], BlocksFrom(lines, i + 1));
        out := out + [Spacer];
        i := i + 1;
        continue;
      }
      if IsBullet(line) {
        var items, j := CollectItems(lines, i);
        var rendered := ProcessItems(items);
        Regroup(out, [List(rendered)], BlocksFrom(lines, j));
        out := out + [List(rendered)];
        i := j;
        continue;
      }
      var paraLines, j := CollectParagraph(lines, i);
      var content := ProcessInline(Join(paraLines, " "));
      Regroup(out, [Para(content)], BlocksFrom(lines, j));
      out := out + [Para(content)];
      i := j;
    }
    assert BlocksFrom(lines, i) == [];
    assert out + [] == out;
    assert lines == Lines(raw);
    nodes := Some(out);
  }

  // ---------------------------------------------------------------------------
  // Properties of the block pass

  /** The block a line opens is decided by that line alone. */
  lemma BlocksFromHead(lines: seq<string>, i: nat)
    requires i < |lines|
    ensures BlocksFrom(lines, i) != []
    ensures BlocksFrom(lines, i)[0].Spacer? <==> IsBlank(lines[i])
    ensures BlocksFrom(lines, i)[0].List? <==> IsBulletLine(lines[i])
    ensures BlocksFrom(lines, i)[0].Para? <==> IsParaLine(lines[i])
  {
  }

  /** Two list blocks are never adjacent, and neither are two paragraphs. */
  predicate NoAdjacentRuns(bs: seq<Block>) {
    forall k :: 0 <= k < |bs| - 1 ==>
      !(bs[k].List? && bs[k + 1].List?) && !(bs[k].Para? && bs[k + 1].Para?)
  }

  lemma ConsNoAdjacent(b: Block, rest: seq<Block>)
    requires NoAdjacentRuns(rest)
    requires rest != [] ==> !(b.List? && rest[0].List?) && !(b.Para? && rest[0].Para?)
    ensures NoAdjacentRuns([b] + rest)
  {
    var bs := [b] + rest;
    forall k | 1 <= k < |bs| - 1
      ensures !(bs[k].List? && bs[k + 1].List?) && !(bs[k].Para? && bs[k + 1].Para?)
    {
      assert bs[k] == rest[k - 1] && bs[k + 1] == rest[k];
    }
  }

  /** Runs are maximal: the block after a list is not a list, the block after a
      paragraph is not a paragraph. */
  lemma {:induction false} BlocksNoAdjacentRuns(lines: seq<string>, i: nat)
    requires i <= |lines|
    ensures NoAdjacentRuns(BlocksFrom(lines, i))
    decreases |lines| - i
  {
    if i < |lines| {
      var j := if IsBlank(lines[i]) then i + 1
               else if IsBulletLine(lines[i]) then BulletEnd(lines, i)
               else ParaEnd(lines, i);
      BlocksNoAdjacentRuns(lines, j);
      if j < |lines| {
        BlocksFromHead(lines, j);
      }
      ConsNoAdjacent(BlocksFrom(lines, i)[0], BlocksFrom(lines, j));
      assert BlocksFrom(lines, i) == [BlocksFrom(lines, i)[0]] + BlocksFrom(lines, j);
    }
  }

  function SpacerCount(bs: seq<Block>): nat {
    if bs == [] then 0 else (if bs[0].Spacer? then 1 else 0) + SpacerCount(bs[1..])
  }

  /** The number of white-space-only lines from line `i` on. */
  function BlankCount(lines: seq<string>, i: nat): nat
    requires i <= |lines|
    decreases |lines| - i
  {
    if i == |lines| then 0 else (if IsBlank(lines[i]) then 1 else 0) + BlankCount(lines, i + 1)
  }

  lemma {:induction false} BlankCountRun(lines: seq<string>, i: nat, j: nat)
    requires i <= j <= |lines|
    requires forall k :: i <= k < j ==> !IsBlank(lines[k])
    ensures BlankCount(lines, i) == BlankCount(lines, j)
    decreases j - i
  {
    if i < j {
      BlankCountRun(lines, i + 1, j);
    }
  }

  /** Each white-space-only line yields exactly one spacer, and nothing else does. */
  lemma {:induction false} SpacersMatchBlankLines(lines: seq<string>, i: nat)
    requires i <= |lines|
    ensures SpacerCount(BlocksFrom(lines, i)) == BlankCount(lines, i)
    decreases |lines| - i
  {
    if i < |lines| {
      var bs := BlocksFrom(lines, i);
      var j := if IsBlank(lines[i]) then i + 1
               else if IsBulletLine(lines[i]) then BulletEnd(lines, i)
               else ParaEnd(lines, i);
      SpacersMatchBlankLines(lines, j);
      assert bs[1..] == BlocksFrom(lines, j);
      if !IsBlank(lines[i]) {
        BlankCountRun(lines, i, j);
      }
    }
  }
}
