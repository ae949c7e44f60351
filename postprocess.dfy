/** `_post_process_extracted_data`: the four list-like fields of the
    extracted data are rewritten, in place, into bullet lines when their
    string value holds a bracketed JSON array, or, when that array does not
    decode, into at most five comma-separated bullets. Each loop of the
    implementation is a method proved against a function. */
module PostProcess {
  import opened Wrappers
  import opened Dicts
  import opened Json
  import opened Strs

  /** The fields that may hold item lists, in the order they are visited. */
  const ItemFields: seq<string> := ["items_purchased", "line_items", "items", "products"]

  // ------------------------------------------------- re.search(r'\[.*\]')

  /** A match of `\[.*\]` from `p` through `q`: `.` matches anything but a
      newline. */
  predicate IsMatch(s: string, p: int, q: int) {
    0 <= p < q < |s| && s[p] == '[' && s[q] == ']' && '\n' !in s[p..q]
  }

  /** The first newline at or after `i`, or the end of `s`. */
  function LineEnd(s: string, i: nat): (e: nat)
    requires i <= |s|
    ensures i <= e <= |s| && '\n' !in s[i..e]
    ensures e < |s| ==> s[e] == '\n'
    decreases |s| - i
  {
    if i == |s| || s[i] == '\n' then i
    else
      var e := LineEnd(s, i + 1);
      assert s[i..e] == [s[i]] + s[i + 1..e];
      e
  }

  /** The greedy end of a match starting at `p`: the last `]` on the line. */
  function CloseAt(s: string, p: nat): (r: Option<nat>)
    requires p < |s|
    ensures r.Some? ==> p < r.value < LineEnd(s, p + 1) && s[r.value] == ']'
    ensures r.Some? ==> forall q :: r.value < q < LineEnd(s, p + 1) ==> s[q] != ']'
    ensures r.None? ==> forall q :: p < q < LineEnd(s, p + 1) ==> s[q] != ']'
  {
    var e := LineEnd(s, p + 1);
    var k := RFind(s[p + 1..e], ']');
    if k == -1 then
      SliceAt(s, p + 1, e);
      None
    else
      assert s[p + 1..e][k + 1..] == s[p + 2 + k..e];
      SliceAt(s, p + 2 + k, e);
      Some(p + 1 + k)
  }

  lemma SliceAt(s: string, a: nat, b: nat)
    requires a <= b <= |s|
    ensures forall q :: a <= q < b ==> s[a..b][q - a] == s[q]
  {
  }

  lemma IsMatchLine(s: string, p: nat, q: int)
    requires p < |s| && s[p] == '['
    ensures IsMatch(s, p, q) <==> p < q < LineEnd(s, p + 1) && s[q] == ']'
  {
    var e := LineEnd(s, p + 1);
    if p < q < e && s[q] == ']' {
      assert s[p..q] == [s[p]] + s[p + 1..q];
      forall k | p + 1 <= k < q ensures s[k] != '\n' {
        assert s[k] == s[p + 1..e][k - p - 1];
      }
    }
  }

  /** The leftmost match at or after `p`, as the pair of its end points. */
  function SearchFrom(s: string, p: nat): (r: Option<(nat, nat)>)
    requires p <= |s|
    ensures r.Some? ==> p <= r.value.0 < r.value.1 < |s|
    decreases |s| - p
  {
    if p == |s| then None
    else if s[p] == '[' && CloseAt(s, p).Some? then Some((p, CloseAt(s, p).value))
    else SearchFrom(s, p + 1)
  }

  /** What `SearchFrom` finds is a match, no match starts earlier, and none
      that starts at the same place ends later; when nothing is found there is
      no match at all. */
  lemma {:induction false} SearchFromSpec(s: string, p: nat)
    requires p <= |s|
    ensures var r := SearchFrom(s, p);
      && (r.Some? ==> p <= r.value.0 && IsMatch(s, r.value.0, r.value.1))
      && (r.Some? ==> forall q :: IsMatch(s, r.value.0, q) ==> q <= r.value.1)
      && (r.Some? ==> forall p', q :: p <= p' < r.value.0 ==> !IsMatch(s, p', q))
      && (r.None? ==> forall p', q :: p <= p' ==> !IsMatch(s, p', q))
    decreases |s| - p
  {
    if p == |s| {
    } else if s[p] == '[' && CloseAt(s, p).Some? {
      var q := CloseAt(s, p).value;
      forall q' ensures IsMatch(s, p, q') ==> q' <= q { IsMatchLine(s, p, q'); }
      IsMatchLine(s, p, q);
    } else {
      assert forall q :: !IsMatch(s, p, q) by {
        if s[p] == '[' { forall q ensures !IsMatch(s, p, q) { IsMatchLine(s, p, q); } }
      }
      SearchFromSpec(s, p + 1);
    }
  }

  /** `re.search(r'\[.*\]', s)`, as the end points of the match. */
  function BracketMatch(s: string): (r: Option<(nat, nat)>)
    ensures r.Some? ==> r.value.0 < r.value.1 < |s|
  {
    SearchFrom(s, 0)
  }

  /** The match is the leftmost, then longest, one: `[`, anything but a
      newline, then the last `]` of that line. */
  lemma BracketMatchSpec(s: string)
    ensures var r := BracketMatch(s);
      && (r.Some? ==> IsMatch(s, r.value.0, r.value.1))
      && (r.Some? ==> forall p, q :: IsMatch(s, p, q) ==> r.value.0 <= p && (p == r.value.0 ==> q <= r.value.1))
      && (r.None? ==> forall p, q :: !IsMatch(s, p, q))
  {
    SearchFromSpec(s, 0);
  }

  // ------------------------------------------------------ rendering

  /** One readable line for an item dictionary: the description (else the
      name, else "Item"), then the quantity unless it is falsy or 1, then the
      price and the total when they are truthy. */
  function DictItemLine(d: Dict<Value>, show: Value -> string): string {
    var desc := GetOr(d, "description", GetOr(d, "name", Str("Item")));
    var qty := GetOr(d, "quantity", GetOr(d, "qty", Num(1.0)));
    var price := GetOr(d, "unit_price", GetOr(d, "price", Str("")));
    var total := GetOr(d, "total", GetOr(d, "amount", Str("")));
    show(desc) + QuantityPart(qty, show) + PricePart(" @ ", price, show) + PricePart(" = ", total, show)
  }

  /** " (Qty: q)" unless the quantity is falsy or equal to 1. */
  function QuantityPart(qty: Value, show: Value -> string): string {
    if Truthy(qty) && !EqualsOne(qty) then " (Qty: " + show(qty) + ")" else ""
  }

  /** The labelled amount when it is truthy. */
  function PricePart(tag: string, amount: Value, show: Value -> string): string {
    if Truthy(amount) then tag + show(amount) else ""
  }

  /** The readable line for any item: dictionaries as above, anything else
      through `str()`. */
  function ItemLine(item: Value, show: Value -> string): string {
    if item.Obj? then DictItemLine(item.fields, show) else show(item)
  }

  /** The readable lines of a list of items, in order, each item rendered by
      `line`. The post-processing below is stated for any renderer and is
      used with `ItemLine`. */
  function Lines(xs: seq<Value>, line: Value -> string): seq<string>
  {
    if |xs| == 0 then [] else Lines(xs[..|xs| - 1], line) + [line(xs[|xs| - 1])]
  }

  /** One line per item, the `i`-th rendering the `i`-th item. */
  lemma {:induction false} LinesAt(xs: seq<Value>, line: Value -> string)
    ensures |Lines(xs, line)| == |xs|
    ensures forall i :: 0 <= i < |xs| ==> Lines(xs, line)[i] == line(xs[i])
  {
    if |xs| > 0 {
      var init := xs[..|xs| - 1];
      LinesAt(init, line);
      forall i | 0 <= i < |init| ensures init[i] == xs[i] { }
    }
  }

  /** The inner loop: one readable line per item, in order. */
  method RenderItems(xs: seq<Value>, line: Value -> string) returns (lines: seq<string>)
    ensures lines == Lines(xs, line)
  {
    lines := [];
    var i := 0;
    while i < |xs|
      invariant 0 <= i <= |xs| && lines == Lines(xs[..i], line)
    {
      assert xs[..i + 1][..i] == xs[..i];
      lines := lines + [line(xs[i])];
      i := i + 1;
    }
    assert xs[..i] == xs;
  }

  /** `"\n".join([f"• {item}" for item in lines])`. */
  function Bullets(lines: seq<string>): string {
    Join("\n", seq(|lines|, i requires 0 <= i < |lines| => "• " + lines[i]))
  }

  // ------------------------------------------------------- fallback

  /** Every part, stripped, in order. */
  function StripEach(parts: seq<string>): seq<string> {
    seq(|parts|, i requires 0 <= i < |parts| => Strip(parts[i]))
  }

  /** The pieces that are not empty, in order. */
  function NonEmpty(ts: seq<string>): (r: seq<string>)
    ensures |r| <= |ts|
    ensures forall i :: 0 <= i < |r| ==> r[i] != ""
  {
    if |ts| == 0 then []
    else (if ts[0] != "" then [ts[0]] else []) + NonEmpty(ts[1..])
  }

  /** A piece survives exactly when it is one of the pieces and not empty. */
  lemma {:induction false} NonEmptyMembers(ts: seq<string>, x: string)
    ensures x in NonEmpty(ts) <==> x in ts && x != ""
    decreases |ts|
  {
    if |ts| > 0 {
      assert ts == [ts[0]] + ts[1..];
      NonEmptyMembers(ts[1..], x);
    }
  }

  /** Filtering keeps the order of the pieces. */
  lemma {:induction false} NonEmptyAppend(a: seq<string>, b: seq<string>)
    ensures NonEmpty(a + b) == NonEmpty(a) + NonEmpty(b)
    decreases |a|
  {
    if |a| > 0 {
      assert (a + b)[0] == a[0];
      assert (a + b)[1..] == a[1..] + b;
      NonEmptyAppend(a[1..], b);
    } else {
      assert a + b == b;
    }
  }

  /** `[item.strip() for item in parts if item.strip()]`. */
  function NonEmptyStripped(parts: seq<string>): (r: seq<string>)
    ensures |r| <= |parts|
    ensures forall i :: 0 <= i < |r| ==> r[i] != ""
  {
    NonEmpty(StripEach(parts))
  }

  /** `x` is one of the parts, stripped, and not empty. */
  ghost predicate StrippedPart(x: string, parts: seq<string>) {
    exists j :: 0 <= j < |parts| && x == Strip(parts[j]) && x != ""
  }

  /** The items are the non-empty stripped parts, and nothing else. */
  lemma NonEmptyStrippedMembers(parts: seq<string>, x: string)
    ensures x in NonEmptyStripped(parts) <==> StrippedPart(x, parts)
  {
    NonEmptyMembers(StripEach(parts), x);
    if x in StripEach(parts) && x != "" {
      StrippedFrom(parts, x);
    }
    if StrippedPart(x, parts) {
      StrippedInto(parts, x);
    }
  }

  /** A non-empty stripped piece comes from some part. */
  lemma StrippedFrom(parts: seq<string>, x: string)
    requires x in StripEach(parts) && x != ""
    ensures StrippedPart(x, parts)
  {
    var ts := StripEach(parts);
    var j :| 0 <= j < |ts| && ts[j] == x;
    assert x == Strip(parts[j]);
  }

  /** Every non-empty stripped part is among the stripped pieces. */
  lemma StrippedInto(parts: seq<string>, x: string)
    requires StrippedPart(x, parts)
    ensures x in StripEach(parts) && x != ""
  {
    var j :| 0 <= j < |parts| && x == Strip(parts[j]) && x != "";
    assert StripEach(parts)[j] == x;
  }

  /** Stripping keeps the order of the parts: the items of two runs of
      parts are the items of the first followed by those of the second. */
  lemma NonEmptyStrippedAppend(a: seq<string>, b: seq<string>)
    ensures NonEmptyStripped(a + b) == NonEmptyStripped(a) + NonEmptyStripped(b)
  {
    assert StripEach(a + b) == StripEach(a) + StripEach(b);
    NonEmptyAppend(StripEach(a), StripEach(b));
  }

  /** The text the fallback splits: brackets stripped, quotes removed. */
  function CleanedList(raw: string): string {
    Replace(Replace(StripChars(raw, {'[', ']'}), "'", ""), "\"", "")
  }

  /** The comma items of a bracketed string: brackets stripped, quotes
      removed, split on commas, each item stripped, empty ones dropped. */
  function CommaItems(raw: string): (items: seq<string>)
    ensures forall i :: 0 <= i < |items| ==> items[i] != ""
  {
    NonEmptyStripped(Split(CleanedList(raw), ','))
  }

  /** The comma items are exactly the non-empty stripped comma pieces of the
      cleaned value, and those pieces make up the whole cleaned value. */
  lemma CommaItemsMembers(raw: string, x: string)
    ensures x in CommaItems(raw) <==> StrippedPart(x, Split(CleanedList(raw), ','))
    ensures Join(",", Split(CleanedList(raw), ',')) == CleanedList(raw)
  {
    NonEmptyStrippedMembers(Split(CleanedList(raw), ','), x);
    JoinSplit(CleanedList(raw), ',');
  }

  /** The bracket test of the fallback: `startswith('[')` and `endswith(']')`. */
  predicate Bracketed(raw: string) {
    |raw| > 0 && raw[0] == '[' && raw[|raw| - 1] == ']'
  }

  // ---------------------------------------------------- one field

  /** What one field's processing does to the map: nothing, replace the
      value by bullet text, or replace it and keep the original under
      `<field>_raw`. */
  datatype Rewrite = Keep | Bulleted(text: string) | Listed(text: string)

  /** The decision for a string value `raw`. */
  function Decide(raw: string, loads: string -> Option<Value>, line: Value -> string): Rewrite {
    DecideMatched(raw, BracketMatch(raw), loads, line)
  }

  /** The decision once the bracketed part, if any, has been located. */
  function DecideMatched(raw: string, m: Option<(nat, nat)>, loads: string -> Option<Value>, line: Value -> string): Rewrite
    requires m.Some? ==> m.value.0 < m.value.1 < |raw|
  {
    if m.None? then Keep else DecideParsed(raw, loads(raw[m.value.0..m.value.1 + 1]), line)
  }

  /** The decision once the bracketed part has been decoded (or not). */
  function DecideParsed(raw: string, parsed: Option<Value>, line: Value -> string): Rewrite {
    match parsed
    case None =>
      if Bracketed(raw) && |CommaItems(raw)| <= 5 then Bulleted(Bullets(CommaItems(raw))) else Keep
    case Some(Arr(xs)) =>
      if |xs| > 0 then Listed(Bullets(Lines(xs, line))) else Keep
    case Some(_) => Keep
  }

  /** Carrying out a decision on field `field`, whose value was `raw`. */
  function Perform(d: Dict<Value>, field: string, raw: string, w: Rewrite): Dict<Value> {
    match w
    case Keep => d
    case Bulleted(t) => Put(d, field, Str(t))
    case Listed(t) => Put(Put(d, field, Str(t)), field + "_raw", Str(raw))
  }

  /** The specification of one iteration of the outer loop. */
  function ProcessedField(d: Dict<Value>, field: string, loads: string -> Option<Value>, line: Value -> string)
    : Dict<Value>
  {
    var v: Option<Value> := Get(d, field);
    if v.Some? && v.value.Str? then Perform(d, field, v.value.s, Decide(v.value.s, loads, line)) else d
  }

  /** The decision for one string value, with the inner loop as a method. */
  method DecideValue(raw: string, loads: string -> Option<Value>, line: Value -> string) returns (w: Rewrite)
    ensures w == Decide(raw, loads, line)
  {
    var m := BracketMatch(raw);
    w := Keep;
    if m.Some? {
      w := DecideParsedValue(raw, loads(raw[m.value.0..m.value.1 + 1]), line);
    }
    assert w == DecideMatched(raw, m, loads, line);
  }

  /** The decision once the bracketed part has been decoded (or not). */
  method DecideParsedValue(raw: string, parsed: Option<Value>, line: Value -> string) returns (w: Rewrite)
    ensures w == DecideParsed(raw, parsed, line)
  {
    match parsed
    case None =>
      var items := CommaItems(raw);
      if Bracketed(raw) && |items| <= 5 {
        w := Bulleted(Bullets(items));
      } else {
        w := Keep;
      }
    case Some(Arr(xs)) =>
      if |xs| > 0 {
        var lines := RenderItems(xs, line);
        w := Listed(Bullets(lines));
      } else {
        w := Keep;
      }
    case Some(_) => w := Keep;
  }

  /** One iteration of the outer loop. */
  method PostProcessField(d: Dict<Value>, field: string, loads: string -> Option<Value>, line: Value -> string)
    returns (r: Dict<Value>)
    ensures r == ProcessedField(d, field, loads, line)
  {
    r := d;
    var v := Get(d, field);
    if v.Some? && v.value.Str? {
      var w := DecideValue(v.value.s, loads, line);
      r := Perform(d, field, v.value.s, w);
    }
  }

  // ------------------------------------------------------ all fields

  function PostProcessed(d: Dict<Value>, fields: seq<string>, loads: string -> Option<Value>, line: Value -> string)
    : Dict<Value>
    decreases |fields|
  {
    if |fields| == 0 then d
    else PostProcessed(ProcessedField(d, fields[0], loads, line), fields[1..], loads, line)
  }

  /** The outer loop over the four item fields. */
  method PostProcessItems(data: Dict<Value>, loads: string -> Option<Value>, line: Value -> string)
    returns (r: Dict<Value>)
    ensures r == PostProcessed(data, ItemFields, loads, line)
  {
    r := data;
    var i := 0;
    while i < |ItemFields|
      invariant 0 <= i <= |ItemFields|
      invariant PostProcessed(r, ItemFields[i..], loads, line) == PostProcessed(data, ItemFields, loads, line)
    {
      assert ItemFields[i..][1..] == ItemFields[i + 1..];
      r := PostProcessField(r, ItemFields[i], loads, line);
      i := i + 1;
    }
  }

  /** `ItemLine` as the renderer of the item lists. */
  function Renderer(show: Value -> string): (line: Value -> string)
    ensures forall v :: line(v) == ItemLine(v, show)
  {
    v => ItemLine(v, show)
  }

  /** `_post_process_extracted_data`, with items rendered by `ItemLine`. */
  method PostProcessExtractedData(data: Dict<Value>, loads: string -> Option<Value>, show: Value -> string)
    returns (r: Dict<Value>)
    ensures r == PostProcessed(data, ItemFields, loads, Renderer(show))
  {
    r := PostProcessItems(data, loads, Renderer(show));
  }

  // ------------------------------------------------------ properties

  lemma SuffixedDiffers(field: string)
    ensures field != field + "_raw"
  {
    assert |field + "_raw"| > |field|;
  }

  /** Carrying out any decision changes at most the field and its `_raw`
      companion, and adds no key but the companion. */
  lemma PerformFrame(d: Dict<Value>, field: string, raw: string, w: Rewrite, k: string)
    requires k != field && k != field + "_raw"
    ensures Get(Perform(d, field, raw, w), k) == Get(d, k)
    ensures Has(d, field) ==> w.Listed? || Keys(Perform(d, field, raw, w)) == Keys(d)
  {
    match w {
      case Keep =>
      case Bulleted(t) =>
        GetPutOther(d, field, Str(t), k);
      case Listed(t) =>
        GetPutOther(d, field, Str(t), k);
        GetPutOther(Put(d, field, Str(t)), field + "_raw", Str(raw), k);
    }
  }

  /** One field's processing changes no key but the field and its `_raw`
      companion, and adds no key but the companion, which appears only when
      the value decoded to a list. */
  lemma ProcessedFieldFrame(d: Dict<Value>, field: string, loads: string -> Option<Value>, line: Value -> string, k: string)
    requires k != field && k != field + "_raw"
    ensures Get(ProcessedField(d, field, loads, line), k) == Get(d, k)
    ensures Keys(ProcessedField(d, field, loads, line)) == Keys(d) ||
            (Get(d, field).Some? && Get(d, field).value.Str? &&
             Decide(Get(d, field).value.s, loads, line).Listed? &&
             Keys(ProcessedField(d, field, loads, line)) == Keys(Put(d, field + "_raw", Str(Get(d, field).value.s))))
  {
    var v: Option<Value> := Get(d, field);
    if v.Some? && v.value.Str? {
      var w := Decide(v.value.s, loads, line);
      PerformFrame(d, field, v.value.s, w, k);
    }
  }

  /** A field whose value is not a string, or that is absent, is left alone. */
  lemma NonStringFieldUntouched(d: Dict<Value>, field: string, loads: string -> Option<Value>, line: Value -> string)
    requires Get(d, field).None? || !Get(d, field).value.Str?
    ensures ProcessedField(d, field, loads, line) == d
  {
  }

  /** A bracketed array that decodes to a non-empty list becomes bullet lines,
      one per item, and the original string is kept under `<field>_raw`. */
  lemma DecodedListRendered(d: Dict<Value>, field: string, loads: string -> Option<Value>, line: Value -> string,
                            raw: string, xs: seq<Value>)
    requires Get(d, field) == Some(Str(raw))
    requires BracketMatch(raw).Some?
    requires loads(raw[BracketMatch(raw).value.0..BracketMatch(raw).value.1 + 1]) == Some(Arr(xs))
    requires |xs| > 0
    ensures Get(ProcessedField(d, field, loads, line), field) == Some(Str(Bullets(Lines(xs, line))))
    ensures Get(ProcessedField(d, field, loads, line), field + "_raw") == Some(Str(raw))
  {
    var t := Bullets(Lines(xs, line));
    DecidesListed(raw, loads, line, xs);
    ProcessedFieldIs(d, field, loads, line, raw);
    var d1 := Put(d, field, Str(t));
    assert ProcessedField(d, field, loads, line) == Put(d1, field + "_raw", Str(raw));
    GetPutSame(d, field, Str(t));
    SuffixedDiffers(field);
    GetPutOther(d1, field + "_raw", Str(raw), field);
    GetPutSame(d1, field + "_raw", Str(raw));
  }

  lemma DecidesListed(raw: string, loads: string -> Option<Value>, line: Value -> string, xs: seq<Value>)
    requires BracketMatch(raw).Some?
    requires loads(raw[BracketMatch(raw).value.0..BracketMatch(raw).value.1 + 1]) == Some(Arr(xs))
    requires |xs| > 0
    ensures Decide(raw, loads, line) == Listed(Bullets(Lines(xs, line)))
  {
    var m := BracketMatch(raw);
    DecideMatchedSome(raw, m, loads, line);
    assert DecideParsed(raw, Some(Arr(xs)), line) == Listed(Bullets(Lines(xs, line)));
  }

  lemma DecideMatchedSome(raw: string, m: Option<(nat, nat)>, loads: string -> Option<Value>, line: Value -> string)
    requires m.Some? && m.value.0 < m.value.1 < |raw|
    ensures DecideMatched(raw, m, loads, line) == DecideParsed(raw, loads(raw[m.value.0..m.value.1 + 1]), line)
  {
  }

  /** When the bracketed text does not decode, a bracketed value with at most
      five comma items becomes those bullets and no key is added; otherwise
      the map is unchanged. */
  lemma UndecodableFallback(d: Dict<Value>, field: string, loads: string -> Option<Value>, line: Value -> string,
                            raw: string)
    requires Get(d, field) == Some(Str(raw))
    requires BracketMatch(raw).Some?
    requires loads(raw[BracketMatch(raw).value.0..BracketMatch(raw).value.1 + 1]).None?
    ensures Bracketed(raw) && |CommaItems(raw)| <= 5 ==>
      Get(ProcessedField(d, field, loads, line), field) == Some(Str(Bullets(CommaItems(raw))))
    ensures Keys(ProcessedField(d, field, loads, line)) == Keys(d)
    ensures !(Bracketed(raw) && |CommaItems(raw)| <= 5) ==> ProcessedField(d, field, loads, line) == d
  {
    var w := Decide(raw, loads, line);
    DecidesFallback(raw, loads, line);
    ProcessedFieldIs(d, field, loads, line, raw);
    assert Has(d, field);
    if w.Bulleted? {
      GetPutSame(d, field, Str(w.text));
    }
  }

  lemma DecidesFallback(raw: string, loads: string -> Option<Value>, line: Value -> string)
    requires BracketMatch(raw).Some?
    requires loads(raw[BracketMatch(raw).value.0..BracketMatch(raw).value.1 + 1]).None?
    ensures Decide(raw, loads, line) ==
      if Bracketed(raw) && |CommaItems(raw)| <= 5 then Bulleted(Bullets(CommaItems(raw))) else Keep
  {
    var m := BracketMatch(raw);
    DecideMatchedSome(raw, m, loads, line);
    assert DecideParsed(raw, None, line) ==
      if Bracketed(raw) && |CommaItems(raw)| <= 5 then Bulleted(Bullets(CommaItems(raw))) else Keep;
  }

  lemma ProcessedFieldIs(d: Dict<Value>, field: string, loads: string -> Option<Value>, line: Value -> string, raw: string)
    requires Get(d, field) == Some(Str(raw))
    ensures ProcessedField(d, field, loads, line) == Perform(d, field, raw, Decide(raw, loads, line))
  {
  }

  /** A decoded value that is not a non-empty list leaves the map alone, as
      does a string with no bracketed text on one line. */
  lemma NoListNoChange(d: Dict<Value>, field: string, loads: string -> Option<Value>, line: Value -> string, raw: string)
    requires Get(d, field) == Some(Str(raw))
    requires BracketMatch(raw).None? ||
      (var m := BracketMatch(raw).value;
       var v := loads(raw[m.0..m.1 + 1]);
       v.Some? && !(v.value.Arr? && |v.value.items| > 0))
    ensures ProcessedField(d, field, loads, line) == d
  {
    if BracketMatch(raw).Some? {
      DecideMatchedSome(raw, BracketMatch(raw), loads, line);
    }
    assert Decide(raw, loads, line) == Keep;
  }

  /** Keys other than the item fields and their companions come through the
      whole pass unchanged. */
  lemma {:induction false} PostProcessedFrame(d: Dict<Value>, fields: seq<string>, loads: string -> Option<Value>,
                                              line: Value -> string, k: string)
    requires forall i :: 0 <= i < |fields| ==> k != fields[i] && k != fields[i] + "_raw"
    ensures Get(PostProcessed(d, fields, loads, line), k) == Get(d, k)
    decreases |fields|
  {
    if |fields| > 0 {
      ProcessedFieldFrame(d, fields[0], loads, line, k);
      PostProcessedFrame(ProcessedField(d, fields[0], loads, line), fields[1..], loads, line, k);
    }
  }

  /** The item line of a dictionary with a description, a quantity and no
      price or total: the quantity shows exactly when it is truthy and not 1. */
  lemma QuantityShown(d: Dict<Value>, show: Value -> string, desc: string, qty: Value)
    requires PyStr(show)
    requires Get(d, "description") == Some(Str(desc))
    requires !Has(d, "unit_price") && !Has(d, "price") && !Has(d, "total") && !Has(d, "amount")
    requires Get(d, "quantity") == Some(qty)
    ensures DictItemLine(d, show) == desc + if Truthy(qty) && !EqualsOne(qty) then " (Qty: " + show(qty) + ")" else ""
  {
    assert PricePart(" @ ", Str(""), show) == "";
    assert PricePart(" = ", Str(""), show) == "";
  }

  /** A quantity of 1, or none at all, is left out. */
  lemma QuantityOneHidden(d: Dict<Value>, show: Value -> string, desc: string)
    requires PyStr(show)
    requires Get(d, "description") == Some(Str(desc))
    requires !Has(d, "unit_price") && !Has(d, "price") && !Has(d, "total") && !Has(d, "amount")
    requires Get(d, "quantity") == Some(Num(1.0)) || (!Has(d, "quantity") && !Has(d, "qty"))
    ensures DictItemLine(d, show) == desc
  {
    assert PricePart(" @ ", Str(""), show) == "";
    assert PricePart(" = ", Str(""), show) == "";
    assert QuantityPart(Num(1.0), show) == "";
  }

  /** A truthy price and total are appended, in that order, after the
      description (here without a quantity). */
  lemma PriceAndTotalShown(d: Dict<Value>, show: Value -> string, desc: string, price: string, total: string)
    requires PyStr(show)
    requires Get(d, "description") == Some(Str(desc))
    requires !Has(d, "quantity") && !Has(d, "qty")
    requires Get(d, "unit_price") == Some(Str(price)) && price != ""
    requires Get(d, "total") == Some(Str(total)) && total != ""
    ensures DictItemLine(d, show) == desc + (" @ " + price) + (" = " + total)
  {
    var descV := GetOr(d, "description", GetOr(d, "name", Str("Item")));
    var qty := GetOr(d, "quantity", GetOr(d, "qty", Num(1.0)));
    var priceV := GetOr(d, "unit_price", GetOr(d, "price", Str("")));
    var totalV := GetOr(d, "total", GetOr(d, "amount", Str("")));
    assert DictItemLine(d, show) ==
      show(descV) + QuantityPart(qty, show) + PricePart(" @ ", priceV, show) + PricePart(" = ", totalV, show);
    assert show(descV) == desc by {
      assert descV == Str(desc);
    }
    assert QuantityPart(qty, show) == "" by {
      assert Get(d, "qty").None? && Get(d, "quantity").None?;
      assert qty == Num(1.0);
    }
    assert PricePart(" @ ", priceV, show) == " @ " + price by {
      assert priceV == Str(price);
    }
    assert PricePart(" = ", totalV, show) == " = " + total by {
      assert totalV == Str(total);
    }
    assert desc + "" == desc;
  }

  /** An item with neither a description nor a name is called "Item". */
  lemma UnnamedItem(d: Dict<Value>, show: Value -> string)
    requires PyStr(show)
    requires !Has(d, "description") && !Has(d, "name")
    ensures DictItemLine(d, show)[..4] == "Item"
  {
    var desc := GetOr(d, "description", GetOr(d, "name", Str("Item")));
    assert desc == Str("Item");
    assert show(desc) == "Item";
    var qty := GetOr(d, "quantity", GetOr(d, "qty", Num(1.0)));
    var price := GetOr(d, "unit_price", GetOr(d, "price", Str("")));
    var total := GetOr(d, "total", GetOr(d, "amount", Str("")));
    var a := show(desc) + QuantityPart(qty, show);
    var b := a + PricePart(" @ ", price, show);
    assert DictItemLine(d, show) == b + PricePart(" = ", total, show);
    PrefixKept(show(desc), QuantityPart(qty, show));
    PrefixKept(a, PricePart(" @ ", price, show));
    PrefixKept(b, PricePart(" = ", total, show));
  }

  lemma PrefixKept(a: string, b: string)
    requires |a| >= 4
    ensures |a + b| >= 4 && (a + b)[..4] == a[..4]
  {
  }
}
