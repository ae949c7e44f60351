/** The prompt catalog: templates keyed by document type and extraction
    method, a default per method, and a synthesized last resort. A template
    is a Python format string; `Format` models `str.format` with keyword
    arguments only, as far as finding and looking up each field, and a
    template built from `Lit`/`Field` segments is the reference it is
    proved against. */
module Prompts {
  import opened Wrappers
  import opened Dicts
  import opened Strs

  // ------------------------------------------------------- str.format

  /** The exceptions `str.format(**vars)` can raise, and the one outcome
      the model does not determine. */
  datatype FormatError =
    | KeyError(key: string)      // a named field with no such keyword
    | IndexError                 // an empty or numeric field: no positional arguments
    | ValueError(message: string) // a malformed field or a stray brace
    | Unmodelled(field: string)  // a bound field with attribute or index access, a conversion or a spec

  function Prepend(p: string, r: Result<string, FormatError>): Result<string, FormatError> {
    if r.Success? then Success(p + r.value) else r
  }

  /** The code point `n` is one of the ten starting at `zero`. */
  predicate InRun(n: int, zero: int) {
    zero <= n < zero + 10
  }

  /** The first character of the run of ten Unicode decimal digits (general
      category Nd, as of Unicode 15.0) that holds the code point `n`, or -1
      when `n` is not a decimal digit. Below U+0660 only the ASCII digits
      are decimal digits. */
  function DigitZero(n: int): (zero: int)
    ensures zero == -1 || InRun(n, zero)
    ensures 0x30 <= n < 0x3A ==> zero == 0x30
  {
    if n < 0x660 then (if InRun(n, 0x30) then 0x30 else -1)
    else if InRun(n, 0x660) then 0x660
    else if InRun(n, 0x6F0) then 0x6F0
    else if InRun(n, 0x7C0) then 0x7C0
    else if InRun(n, 0x966) then 0x966
    else if InRun(n, 0x9E6) then 0x9E6
    else if InRun(n, 0xA66) then 0xA66
    else if InRun(n, 0xAE6) then 0xAE6
    else if InRun(n, 0xB66) then 0xB66
    else if InRun(n, 0xBE6) then 0xBE6
    else if InRun(n, 0xC66) then 0xC66
    else if InRun(n, 0xCE6) then 0xCE6
    else if InRun(n, 0xD66) then 0xD66
    else if InRun(n, 0xDE6) then 0xDE6
    else if InRun(n, 0xE50) then 0xE50
    else if InRun(n, 0xED0) then 0xED0
    else if InRun(n, 0xF20) then 0xF20
    else if InRun(n, 0x1040) then 0x1040
    else if InRun(n, 0x1090) then 0x1090
    else if InRun(n, 0x17E0) then 0x17E0
    else if InRun(n, 0x1810) then 0x1810
    else if InRun(n, 0x1946) then 0x1946
    else if InRun(n, 0x19D0) then 0x19D0
    else if InRun(n, 0x1A80) then 0x1A80
    else if InRun(n, 0x1A90) then 0x1A90
    else if InRun(n, 0x1B50) then 0x1B50
    else if InRun(n, 0x1BB0) then 0x1BB0
    else if InRun(n, 0x1C40) then 0x1C40
    else if InRun(n, 0x1C50) then 0x1C50
    else if InRun(n, 0xA620) then 0xA620
    else if InRun(n, 0xA8D0) then 0xA8D0
    else if InRun(n, 0xA900) then 0xA900
    else if InRun(n, 0xA9D0) then 0xA9D0
    else if InRun(n, 0xA9F0) then 0xA9F0
    else if InRun(n, 0xAA50) then 0xAA50
    else if InRun(n, 0xABF0) then 0xABF0
    else if InRun(n, 0xFF10) then 0xFF10
    else if InRun(n, 0x104A0) then 0x104A0
    else if InRun(n, 0x10D30) then 0x10D30
    else if InRun(n, 0x11066) then 0x11066
    else if InRun(n, 0x110F0) then 0x110F0
    else if InRun(n, 0x11136) then 0x11136
    else if InRun(n, 0x111D0) then 0x111D0
    else if InRun(n, 0x112F0) then 0x112F0
    else if InRun(n, 0x11450) then 0x11450
    else if InRun(n, 0x114D0) then 0x114D0
    else if InRun(n, 0x11650) then 0x11650
    else if InRun(n, 0x116C0) then 0x116C0
    else if InRun(n, 0x11730) then 0x11730
    else if InRun(n, 0x118E0) then 0x118E0
    else if InRun(n, 0x11950) then 0x11950
    else if InRun(n, 0x11C50) then 0x11C50
    else if InRun(n, 0x11D50) then 0x11D50
    else if InRun(n, 0x11DA0) then 0x11DA0
    else if InRun(n, 0x11F50) then 0x11F50
    else if InRun(n, 0x16A60) then 0x16A60
    else if InRun(n, 0x16AC0) then 0x16AC0
    else if InRun(n, 0x16B50) then 0x16B50
    else if InRun(n, 0x1D7CE) then 0x1D7CE
    else if InRun(n, 0x1D7D8) then 0x1D7D8
    else if InRun(n, 0x1D7E2) then 0x1D7E2
    else if InRun(n, 0x1D7EC) then 0x1D7EC
    else if InRun(n, 0x1D7F6) then 0x1D7F6
    else if InRun(n, 0x1E140) then 0x1E140
    else if InRun(n, 0x1E2F0) then 0x1E2F0
    else if InRun(n, 0x1E4F0) then 0x1E4F0
    else if InRun(n, 0x1E950) then 0x1E950
    else if InRun(n, 0x1FBF0) then 0x1FBF0
    else -1
  }

  /** `Py_UNICODE_TODECIMAL`: the decimal value of a character, or -1. */
  function DecimalValue(c: char): (d: int)
    ensures -1 <= d <= 9
    ensures '0' <= c <= '9' ==> d == c as int - '0' as int
  {
    var zero := DigitZero(c as int);
    if zero < 0 then -1 else c as int - zero
  }

  /** The largest index a format field can name: `PY_SSIZE_T_MAX` of a
      64-bit build. */
  const MaxIndex: nat := 0x7FFF_FFFF_FFFF_FFFF

  const TooManyDigits := "Too many decimal digits in format string"

  /** CPython's `get_integer` on `s[i..]`, `acc` being the value of the
      digits before `i`: `None` at the first character that is not a
      decimal digit, and a ValueError as soon as the next digit would take
      the value past `MaxIndex`, checked digit by digit, so an overflow is
      raised even when a non-digit follows. */
  function GetIntegerFrom(s: string, i: nat, acc: nat): (r: Result<Option<nat>, FormatError>)
    requires i <= |s| && acc <= MaxIndex
    ensures r.Failure? ==> r.error == ValueError(TooManyDigits)
    ensures r.Success? && r.value.Some? ==> acc <= r.value.value <= MaxIndex
    decreases |s| - i
  {
    if i == |s| then Success(Some(acc))
    else
      var d := DecimalValue(s[i]);
      if d < 0 then Success(None)
      else if acc > (MaxIndex - d) / 10 then Failure(ValueError(TooManyDigits))
      else GetIntegerFrom(s, i + 1, acc * 10 + d)
  }

  /** `get_integer`: the empty string is not an integer. */
  function GetInteger(s: string): Result<Option<nat>, FormatError> {
    if s == "" then Success(None) else GetIntegerFrom(s, 0, 0)
  }

  /** The value of the decimal digits `s` read after the value `acc`. */
  function DigitsFold(acc: nat, s: string): nat
    decreases |s|
  {
    if |s| == 0 then acc
    else DigitsFold(acc * 10 + (if DecimalValue(s[0]) >= 0 then DecimalValue(s[0]) else 0), s[1..])
  }

  /** A run of decimal digits whose value exceeds `MaxIndex` raises the
      ValueError, whatever follows the run. */
  lemma {:induction false} GetIntegerOverflow(s: string, i: nat, k: nat, acc: nat)
    requires i <= k <= |s| && acc <= MaxIndex
    requires forall j :: i <= j < k ==> DecimalValue(s[j]) >= 0
    ensures DigitsFold(acc, s[i..k]) > MaxIndex ==> GetIntegerFrom(s, i, acc) == Failure(ValueError(TooManyDigits))
    decreases k - i
  {
    if i < k {
      var d := DecimalValue(s[i]);
      assert s[i..k][0] == s[i] && s[i..k][1..] == s[i + 1..k];
      if acc <= (MaxIndex - d) / 10 {
        GetIntegerOverflow(s, i + 1, k, acc * 10 + d);
      }
    }
  }

  /** What the first part of a field name decides before any lookup: the
      overflow ValueError of `get_integer`, an IndexError for an empty or
      numeric part, as there are no positional arguments, or nothing. */
  function IndexFailure(first: string): (e: Option<FormatError>)
    ensures first == "" ==> e == Some(IndexError)
    ensures e.Some? ==> e.value == IndexError || e.value == ValueError(TooManyDigits)
  {
    match GetInteger(first)
    case Failure(err) => Some(err)
    case Success(index) => if first == "" || index.Some? then Some(IndexError) else None
  }

  /** A replacement field as the parser splits it: the field name, the
      conversion character after `!`, the format spec after `:`, and the
      number of characters after the opening `{` it spans, its closing `}`
      included. */
  datatype ReplacementField = ReplacementField(name: string, conversion: Option<char>, spec: string, width: nat)

  /** Where the field name starting at `i` ends: at the first `}`, `:` or
      `!`, a `[` skipping everything up to the next `]`. */
  function NameEnd(t: string, i: nat): (r: Result<nat, FormatError>)
    requires i <= |t|
    ensures r.Success? ==> i <= r.value < |t| && (t[r.value] == '}' || t[r.value] == ':' || t[r.value] == '!')
    decreases |t| - i
  {
    if i == |t| then Failure(ValueError("expected '}' before end of string"))
    else if t[i] == '{' then Failure(ValueError("unexpected '{' in field name"))
    else if t[i] == '}' || t[i] == ':' || t[i] == '!' then Success(i)
    else if t[i] == '[' then
      var j := Find(t[i + 1..], ']');
      if j == -1 then Failure(ValueError("expected '}' before end of string"))
      else NameEnd(t, i + j + 2)
    else NameEnd(t, i + 1)
  }

  /** Where the format spec starting at `i` ends: at the `}` that closes the
      field, nested braces counted in `depth`. */
  function SpecEnd(t: string, i: nat, depth: nat): (r: Result<nat, FormatError>)
    requires i <= |t| && depth >= 1
    ensures r.Success? ==> i <= r.value < |t| && t[r.value] == '}'
    decreases |t| - i
  {
    if i == |t| then Failure(ValueError("unmatched '{' in format spec"))
    else if t[i] == '{' then SpecEnd(t, i + 1, depth + 1)
    else if t[i] == '}' then (if depth == 1 then Success(i) else SpecEnd(t, i + 1, depth - 1))
    else SpecEnd(t, i + 1, depth)
  }

  /** A field whose spec starts at `start`. */
  function SpecField(t: string, name: string, conversion: Option<char>, start: nat): (r: Result<ReplacementField, FormatError>)
    requires start <= |t|
    ensures r.Success? ==> start < r.value.width <= |t| && t[r.value.width - 1] == '}'
  {
    match SpecEnd(t, start, 1)
    case Failure(e) => Failure(e)
    case Success(j) => Success(ReplacementField(name, conversion, t[start..j], j + 1))
  }

  /** The replacement field that `t`, the text after an opening `{`,
      starts with: the name, then `}`, or `!` and one conversion character
      followed by `}` or `:`, or `:` and a spec up to the balancing `}`. */
  function ParseField(t: string): (r: Result<ReplacementField, FormatError>)
    ensures r.Success? ==> 1 <= r.value.width <= |t| && t[r.value.width - 1] == '}'
  {
    match NameEnd(t, 0)
    case Failure(e) => Failure(e)
    case Success(k) =>
      var name := t[..k];
      if t[k] == '}' then Success(ReplacementField(name, None, "", k + 1))
      else if t[k] == ':' then SpecField(t, name, None, k + 1)
      else if k + 1 == |t| then Failure(ValueError("end of string while looking for conversion specifier"))
      else if k + 2 == |t| then SpecField(t, name, Some(t[k + 1]), k + 2)
      else if t[k + 2] == '}' then Success(ReplacementField(name, Some(t[k + 1]), "", k + 3))
      else if t[k + 2] != ':' then Failure(ValueError("expected ':' after conversion specifier"))
      else SpecField(t, name, Some(t[k + 1]), k + 3)
  }

  /** The part of a field name before its first `.` or `[`: the keyword
      that is looked up. */
  function FirstPart(name: string): (r: string)
    ensures r <= name
  {
    if |name| == 0 || name[0] == '.' || name[0] == '[' then "" else [name[0]] + FirstPart(name[1..])
  }

  /** The text a parsed field stands for: an empty or numeric first part is
      positional, a named one must be a keyword; a bound field is replaced
      by its value when it has no access, no conversion other than `!s` and
      no spec, and is otherwise beyond the model. */
  function Resolve(f: ReplacementField, vars: Dict<string>): Result<string, FormatError> {
    var first := FirstPart(f.name);
    if IndexFailure(first).Some? then Failure(IndexFailure(first).value)
    else match Get(vars, first)
      case None => Failure(KeyError(first))
      case Some(v) =>
        if first == f.name && (f.conversion == None || f.conversion == Some('s')) && f.spec == "" then Success(v)
        else Failure(Unmodelled(f.name))
  }

  /** `s.format(**vars)`, scanning left to right: `{{` and `}}` stand for
      single braces, each replacement field is parsed and resolved, and the
      first malformed or failing field, or stray brace, raises. */
  function Format(s: string, vars: Dict<string>): (r: Result<string, FormatError>)
    decreases |s|
  {
    if |s| == 0 then Success("")
    else if s[0] == '{' then
      if |s| == 1 then Failure(ValueError("Single '{' encountered in format string"))
      else if s[1] == '{' then Prepend("{", Format(s[2..], vars))
      else match ParseField(s[1..])
        case Failure(e) => Failure(e)
        case Success(f) =>
          match Resolve(f, vars)
          case Failure(e) => Failure(e)
          case Success(v) => Prepend(v, Format(s[f.width + 1..], vars))
    else if s[0] == '}' then
      if |s| > 1 && s[1] == '}' then Prepend("}", Format(s[2..], vars))
      else Failure(ValueError("Single '}' encountered in format string"))
    else
      assert s == [s[0]] + s[1..];
      Prepend([s[0]], Format(s[1..], vars))
  }

  // ------------------------------------------------ template segments

  datatype Segment = Lit(text: string) | Field(name: string)

  /** A field name that is looked up whole: no brace, no `:` or `!` that
      would end it, and no `.` or `[` that would access into the value. */
  predicate PlainName(name: string) {
    '{' !in name && '}' !in name && ':' !in name && '!' !in name && '.' !in name && '[' !in name
  }

  predicate PlainFields(segs: seq<Segment>) {
    forall i :: 0 <= i < |segs| && segs[i].Field? ==> PlainName(segs[i].name)
  }

  /** Literal text with every brace doubled. */
  function Escape(t: string): (r: string)
    ensures '{' !in t && '}' !in t ==> r == t
  {
    if |t| == 0 then ""
    else (if t[0] == '{' || t[0] == '}' then [t[0], t[0]] else [t[0]]) + Escape(t[1..])
  }

  /** The format string that stands for a segment list. */
  function Render(segs: seq<Segment>): string {
    if |segs| == 0 then "" else RenderSegment(segs[0]) + Render(segs[1..])
  }

  function RenderSegment(seg: Segment): string {
    match seg
    case Lit(t) => Escape(t)
    case Field(n) => "{" + n + "}"
  }

  lemma RenderCons(seg: Segment, rest: seq<Segment>)
    ensures Render([seg] + rest) == RenderSegment(seg) + Render(rest)
  {
    assert ([seg] + rest)[1..] == rest;
  }

  /** What formatting a segment list means: literals stay, each field is
      looked up, and the first field that cannot be filled is the error. */
  function Substitute(segs: seq<Segment>, vars: Dict<string>): Result<string, FormatError> {
    if |segs| == 0 then Success("")
    else match segs[0]
      case Lit(t) => Prepend(t, Substitute(segs[1..], vars))
      case Field(n) =>
        if IndexFailure(n).Some? then Failure(IndexFailure(n).value)
        else match Get(vars, n)
          case None => Failure(KeyError(n))
          case Some(v) => Prepend(v, Substitute(segs[1..], vars))
  }

  lemma PrependPrepend(a: string, b: string, r: Result<string, FormatError>)
    ensures Prepend(a, Prepend(b, r)) == Prepend(a + b, r)
  {
    if r.Success? { assert a + (b + r.value) == (a + b) + r.value; }
  }

  lemma {:induction false} FormatEscape(t: string, rest: string, vars: Dict<string>)
    ensures Format(Escape(t) + rest, vars) == Prepend(t, Format(rest, vars))
    decreases |t|
  {
    if |t| == 0 {
      assert Escape(t) + rest == rest;
      if Format(rest, vars).Success? { assert "" + Format(rest, vars).value == Format(rest, vars).value; }
    } else {
      FormatEscapeHead(t, rest, vars);
      FormatEscape(t[1..], rest, vars);
      PrependPrepend([t[0]], t[1..], Format(rest, vars));
      assert [t[0]] + t[1..] == t;
    }
  }

  /** The escaped first character formats back to itself. */
  lemma FormatEscapeHead(t: string, rest: string, vars: Dict<string>)
    requires |t| > 0
    ensures Format(Escape(t) + rest, vars) == Prepend([t[0]], Format(Escape(t[1..]) + rest, vars))
  {
    var tail := Escape(t[1..]) + rest;
    var head := if t[0] == '{' || t[0] == '}' then [t[0], t[0]] else [t[0]];
    var s := Escape(t) + rest;
    assert s == head + tail;
    if t[0] == '{' || t[0] == '}' {
      assert s[0] == t[0] && s[1] == t[0] && s[2..] == tail;
    } else {
      assert s[0] == t[0] && s[1..] == tail;
    }
  }

  /** Characters a field name runs over: none of them ends it, opens a
      nested field or starts an index. */
  lemma {:induction false} NameEndSkips(t: string, i: nat, k: nat)
    requires i <= k <= |t|
    requires forall j :: i <= j < k ==> t[j] != '{' && t[j] != '}' && t[j] != ':' && t[j] != '!' && t[j] != '['
    ensures NameEnd(t, i) == NameEnd(t, k)
    decreases k - i
  {
    if i < k {
      NameEndSkips(t, i + 1, k);
    }
  }

  /** Brace-free text inside a spec leaves the nesting depth alone. */
  lemma {:induction false} SpecEndSkips(t: string, i: nat, k: nat, depth: nat)
    requires i <= k <= |t| && depth >= 1
    requires forall j :: i <= j < k ==> t[j] != '{' && t[j] != '}'
    ensures SpecEnd(t, i, depth) == SpecEnd(t, k, depth)
    decreases k - i
  {
    if i < k {
      SpecEndSkips(t, i + 1, k, depth);
    }
  }

  lemma {:induction false} FirstPartWhole(n: string)
    requires '.' !in n && '[' !in n
    ensures FirstPart(n) == n
  {
    if |n| > 0 {
      FirstPartWhole(n[1..]);
      assert [n[0]] + n[1..] == n;
    }
  }

  /** The field name of `"{" + n + …` runs over a plain name. */
  lemma PlainNameRuns(n: string, t: string)
    requires PlainName(n) && n <= t
    ensures NameEnd(t, 0) == NameEnd(t, |n|)
  {
    forall j | 0 <= j < |n|
      ensures t[j] != '{' && t[j] != '}' && t[j] != ':' && t[j] != '!' && t[j] != '['
    {
      assert t[j] == n[j];
    }
    NameEndSkips(t, 0, |n|);
  }

  /** A plain field `{n}`: an empty or numeric name is positional, an
      unknown one raises KeyError for the name, and a bound one is replaced
      by its value. */
  lemma FormatField(n: string, rest: string, vars: Dict<string>)
    requires PlainName(n)
    ensures var s := "{" + n + "}" + rest;
      Format(s, vars) ==
        if IndexFailure(n).Some? then Failure(IndexFailure(n).value)
        else match Get(vars, n)
          case None => Failure(KeyError(n))
          case Some(v) => Prepend(v, Format(rest, vars))
  {
    var s := "{" + n + "}" + rest;
    var t := s[1..];
    assert t == n + "}" + rest;
    assert n <= t;
    PlainNameRuns(n, t);
    assert t[|n|] == '}';
    assert t[..|n|] == n;
    FirstPartWhole(n);
    assert ParseField(t) == Success(ReplacementField(n, None, "", |n| + 1));
    assert s[|n| + 2..] == rest;
    if n == "" {
      assert s[1] == '}';
    } else {
      assert s[1] == n[0];
    }
  }

  /** A field with a spec is named by the text before the `:`: `{text:>5}`
      looks up `text`, an unknown name raises KeyError for the name alone,
      an empty spec changes nothing, and a bound field with a spec is beyond
      the model. */
  lemma FormatSpecField(n: string, spec: string, rest: string, vars: Dict<string>)
    requires PlainName(n) && '{' !in spec && '}' !in spec
    ensures var s := "{" + n + ":" + spec + "}" + rest;
      Format(s, vars) ==
        if IndexFailure(n).Some? then Failure(IndexFailure(n).value)
        else match Get(vars, n)
          case None => Failure(KeyError(n))
          case Some(v) => if spec == "" then Prepend(v, Format(rest, vars)) else Failure(Unmodelled(n))
  {
    var s := "{" + n + ":" + spec + "}" + rest;
    var t := n + ":" + spec + "}" + rest;
    assert s[1..] == t;
    ParseSpecField(n, spec, rest);
    FirstPartWhole(n);
    assert s[|n| + |spec| + 3..] == rest;
    if n == "" {
      assert s[1] == ':';
    } else {
      assert s[1] == n[0];
    }
  }

  /** The field `n:spec}` parses into its name and its spec. */
  lemma ParseSpecField(n: string, spec: string, rest: string)
    requires PlainName(n) && '{' !in spec && '}' !in spec
    ensures ParseField(n + ":" + spec + "}" + rest) == Success(ReplacementField(n, None, spec, |n| + |spec| + 2))
  {
    var t := n + ":" + spec + "}" + rest;
    var k := |n|;
    assert n <= t;
    PlainNameRuns(n, t);
    assert t[k] == ':';
    assert t[..k] == n;
    forall j | k + 1 <= j < k + 1 + |spec| ensures t[j] != '{' && t[j] != '}' {
      assert t[j] == spec[j - k - 1];
    }
    SpecEndSkips(t, k + 1, k + 1 + |spec|, 1);
    assert t[k + 1 + |spec|] == '}';
    assert t[k + 1..k + 1 + |spec|] == spec;
  }

  /** A field with a conversion is named by the text before the `!`: `!s`
      of a string is the string, any other conversion of a bound field is
      beyond the model. */
  lemma FormatConversionField(n: string, c: char, rest: string, vars: Dict<string>)
    requires PlainName(n)
    ensures var s := "{" + n + "!" + [c] + "}" + rest;
      Format(s, vars) ==
        if IndexFailure(n).Some? then Failure(IndexFailure(n).value)
        else match Get(vars, n)
          case None => Failure(KeyError(n))
          case Some(v) => if c == 's' then Prepend(v, Format(rest, vars)) else Failure(Unmodelled(n))
  {
    var s := "{" + n + "!" + [c] + "}" + rest;
    var t := s[1..];
    var k := |n|;
    assert t == n + "!" + [c] + "}" + rest;
    assert n <= t;
    PlainNameRuns(n, t);
    assert t[k] == '!' && t[k + 1] == c && t[k + 2] == '}';
    assert t[..k] == n;
    FirstPartWhole(n);
    assert ParseField(t) == Success(ReplacementField(n, Some(c), "", k + 3));
    assert s[k + 4..] == rest;
    if n == "" {
      assert s[1] == '!';
    } else {
      assert s[1] == n[0];
    }
  }

  /** A `{` inside a field name raises ValueError: `"{a{b}"` is malformed. */
  lemma FieldNameBraceRaises(n: string, rest: string, vars: Dict<string>)
    requires n != "" && PlainName(n)
    ensures Format("{" + n + "{" + rest, vars) == Failure(ValueError("unexpected '{' in field name"))
  {
    var s := "{" + n + "{" + rest;
    var t := s[1..];
    assert t == n + "{" + rest;
    assert n <= t;
    PlainNameRuns(n, t);
    assert t[|n|] == '{';
    assert s[1] == n[0];
  }

  /** A field of Unicode decimal digits is an index: `{٣}` (ARABIC-INDIC
      DIGIT THREE) raises IndexError, not KeyError. */
  lemma UnicodeDigitIndex(rest: string, vars: Dict<string>)
    ensures Format("{\U{0663}}" + rest, vars) == Failure(IndexError)
  {
    var n := "\U{0663}";
    assert n[0] as int == 0x663;
    assert DecimalValue(n[0]) == 3;
    assert GetInteger(n) == Success(Some(3));
    assert IndexFailure(n) == Some(IndexError);
    assert "{\U{0663}}" + rest == "{" + n + "}" + rest;
    FormatField("\U{0663}", rest, vars);
  }

  /** A field name that starts with twenty nines overflows before anything
      after them is read: `{99999999999999999999a}` raises the ValueError,
      not KeyError. */
  lemma OverflowingDigitsRaise(n: string, rest: string, vars: Dict<string>)
    requires PlainName(n) && |n| >= 20 && forall j :: 0 <= j < 20 ==> n[j] == '9'
    ensures Format("{" + n + "}" + rest, vars) == Failure(ValueError(TooManyDigits))
  {
    NinesOverflow(n);
    FormatField(n, rest, vars);
  }

  lemma NinesOverflow(n: string)
    requires |n| >= 20 && forall j :: 0 <= j < 20 ==> n[j] == '9'
    ensures GetInteger(n) == Failure(ValueError(TooManyDigits))
  {
    var nines := n[0..20];
    assert forall j :: 0 <= j < 20 ==> nines[j] == '9';
    TwentyNines(nines);
    forall j | 0 <= j < 20 ensures DecimalValue(n[j]) >= 0 {
      assert n[j] == '9';
    }
    GetIntegerOverflow(n, 0, 20, 0);
  }

  /** Twenty nines read as an index exceed `MaxIndex`. */
  lemma TwentyNines(nines: string)
    requires |nines| == 20 && forall j :: 0 <= j < 20 ==> nines[j] == '9'
    ensures DigitsFold(0, nines) > MaxIndex
  {
    NinesValue(nines, 0);
    assert Pow10(10) == 10_000_000_000;
    Pow10Add(10, 10);
  }

  function Pow10(m: nat): nat {
    if m == 0 then 1 else 10 * Pow10(m - 1)
  }

  lemma {:induction false} Pow10Add(a: nat, b: nat)
    ensures Pow10(a + b) == Pow10(a) * Pow10(b)
    decreases a
  {
    if a > 0 {
      Pow10Add(a - 1, b);
    }
  }

  /** A run of nines read after `acc` is `acc + 1` shifted by the run's
      length, less one. */
  lemma {:induction false} NinesValue(t: string, acc: nat)
    requires forall j :: 0 <= j < |t| ==> t[j] == '9'
    ensures DigitsFold(acc, t) + 1 == (acc + 1) * Pow10(|t|)
    decreases |t|
  {
    if |t| > 0 {
      NinesValue(t[1..], acc * 10 + 9);
      calc {
        DigitsFold(acc, t) + 1;
        DigitsFold(acc * 10 + 9, t[1..]) + 1;
        (acc * 10 + 10) * Pow10(|t| - 1);
        (acc + 1) * (10 * Pow10(|t| - 1));
      }
    }
  }

  /** Rendering a segment list and formatting it gives the substitution. */
  lemma {:induction false} FormatRender(segs: seq<Segment>, vars: Dict<string>)
    requires PlainFields(segs)
    ensures Format(Render(segs), vars) == Substitute(segs, vars)
    decreases |segs|
  {
    if |segs| > 0 {
      assert PlainFields(segs[1..]) by {
        forall i | 0 <= i < |segs[1..]| && segs[1..][i].Field? ensures PlainName(segs[1..][i].name) {
          assert segs[1..][i] == segs[i + 1];
        }
      }
      FormatRender(segs[1..], vars);
      match segs[0]
      case Lit(t) =>
        FormatEscape(t, Render(segs[1..]), vars);
      case Field(n) =>
        assert PlainName(n) by { assert segs[0].Field?; }
        FormatField(n, Render(segs[1..]), vars);
        assert Render(segs) == "{" + n + "}" + Render(segs[1..]);
    }
  }

  // ----------------------------------------------------------- catalog

  /** The parsed prompts file: per document type, a template per method,
      and the per-method defaults. A missing section is empty. */
  datatype Catalog = Catalog(documentTypes: Dict<Dict<string>>, default: Dict<string>)

  /** How reading the prompts file ended. */
  datatype LoadOutcome = Parsed(catalog: Catalog) | FileNotFound | YamlError(message: string)

  /** The built-in catalog. */
  const DefaultCatalog: Catalog := Catalog(
    [Entry("invoice", [
      Entry("ollama", "Extract invoice information from: {text}\nReturn JSON:"),
      Entry("openai", "Extract invoice information from: {text}\nReturn JSON:"),
      Entry("huggingface", "Extract invoice from: {text_preview}...\nJSON:")])],
    [Entry("ollama", "Extract information from: {text}\nReturn JSON:"),
     Entry("openai", "Extract information from: {text}\nReturn JSON:"),
     Entry("huggingface", "Extract from: {text_preview}...\nJSON:")])

  /** `_load_prompts`: the file's catalog, or the built-in one when the file
      is missing or is not valid YAML. */
  function LoadPrompts(o: LoadOutcome): (c: Catalog)
    ensures o.Parsed? ==> c == o.catalog
    ensures !o.Parsed? ==> c == DefaultCatalog
  {
    match o
    case Parsed(c) => c
    case _ => DefaultCatalog
  }

  /** The template of last resort for an unknown method. */
  function SynthesizedPrompt(docType: string): string {
    "Extract " + docType + " information from: {text}\nReturn JSON:"
  }

  /** `get_prompt`: the document type's own template for the method, else
      the default for the method, else the synthesized template. */
  function GetPrompt(c: Catalog, docType: string, backend: string): (t: string)
    ensures Get(c.documentTypes, docType).Some? && Has(Get(c.documentTypes, docType).value, backend) ==>
      t == Get(Get(c.documentTypes, docType).value, backend).value
    ensures (!(Get(c.documentTypes, docType).Some? && Has(Get(c.documentTypes, docType).value, backend)) &&
             Has(c.default, backend)) ==> t == Get(c.default, backend).value
    ensures (!(Get(c.documentTypes, docType).Some? && Has(Get(c.documentTypes, docType).value, backend)) &&
             !Has(c.default, backend)) ==> t == SynthesizedPrompt(docType)
  {
    var own := Get(c.documentTypes, docType);
    if own.Some? && Get(own.value, backend).Some? then Get(own.value, backend).value
    else if Get(c.default, backend).Some? then Get(c.default, backend).value
    else SynthesizedPrompt(docType)
  }

  /** The `text_preview` variable: the first 300 characters. */
  function Preview(text: string): (p: string)
    ensures |p| == if |text| < 300 then |text| else 300
    ensures p <= text
    ensures |text| <= 300 ==> p == text
  {
    if |text| > 300 then text[..300] else text
  }

  function FormatVars(text: string): Dict<string> {
    [Entry("text", text), Entry("text_preview", Preview(text))]
  }

  /** `format_prompt`: the template formatted with `text` and
      `text_preview`; on a KeyError, and only then, the two placeholders are
      replaced literally; any other formatting error propagates. */
  function FormatPrompt(c: Catalog, docType: string, backend: string, text: string): (r: Result<string, FormatError>)
    ensures var f := Format(GetPrompt(c, docType, backend), FormatVars(text));
      && (r.Failure? <==> f.Failure? && !f.error.KeyError?)
      && (f.Success? ==> r == f)
      && (r.Failure? ==> r == f)
      && (f.Failure? && f.error.KeyError? ==>
            r == Success(Replace(Replace(GetPrompt(c, docType, backend), "{text}", text), "{text_preview}", Prefix(text, 300))))
  {
    var template := GetPrompt(c, docType, backend);
    match Format(template, FormatVars(text))
    case Success(s) => Success(s)
    case Failure(KeyError(_)) =>
      Success(Replace(Replace(template, "{text}", text), "{text_preview}", Prefix(text, 300)))
    case Failure(e) => Failure(e)
  }

  // ------------------------------------------- the built-in templates

  lemma DefaultLookups(docType: string)
    ensures GetPrompt(DefaultCatalog, "invoice", "ollama") == "Extract invoice information from: {text}\nReturn JSON:"
    ensures GetPrompt(DefaultCatalog, "invoice", "huggingface") == "Extract invoice from: {text_preview}...\nJSON:"
    ensures docType != "invoice" ==>
      GetPrompt(DefaultCatalog, docType, "ollama") == "Extract information from: {text}\nReturn JSON:"
    ensures docType != "invoice" ==>
      GetPrompt(DefaultCatalog, docType, "huggingface") == "Extract from: {text_preview}...\nJSON:"
  {
  }

  /** A template with one known field between brace-free literals formats
      to the literals around the field's value. */
  lemma FormatPlainPrefix(pre: string, rest: string, vars: Dict<string>)
    requires '{' !in pre && '}' !in pre
    ensures Format(pre + rest, vars) == Prepend(pre, Format(rest, vars))
  {
    FormatEscape(pre, rest, vars);
  }

  /** A brace-free template formats to itself. */
  lemma {:induction false} FormatNoBraces(s: string, vars: Dict<string>)
    requires '{' !in s && '}' !in s
    ensures Format(s, vars) == Success(s)
    decreases |s|
  {
    if |s| > 0 {
      FormatNoBraces(s[1..], vars);
      assert [s[0]] + s[1..] == s;
    }
  }

  lemma FormatKnownField(n: string, rest: string, vars: Dict<string>)
    requires PlainName(n) && IndexFailure(n) == None && Get(vars, n).Some?
    ensures Format("{" + n + "}" + rest, vars) == Prepend(Get(vars, n).value, Format(rest, vars))
  {
    FormatField(n, rest, vars);
  }

  lemma FormatOneField(pre: string, name: string, post: string, vars: Dict<string>)
    requires '{' !in pre && '}' !in pre && '{' !in post && '}' !in post
    requires PlainName(name) && IndexFailure(name) == None && Get(vars, name).Some?
    ensures Format(pre + ("{" + name + "}" + post), vars) == Success(pre + (Get(vars, name).value + post))
  {
    var rest := "{" + name + "}" + post;
    FormatNoBraces(post, vars);
    FormatKnownField(name, post, vars);
    FormatPlainPrefix(pre, rest, vars);
  }

  lemma BraceFreeConcat(a: string, b: string)
    requires '{' !in a && '}' !in a && '{' !in b && '}' !in b
    ensures '{' !in a + b && '}' !in a + b
  {
  }

  /** The two placeholders are plain, named and bound. */
  lemma TextVars(text: string)
    ensures PlainName("text") && IndexFailure("text") == None
    ensures PlainName("text_preview") && IndexFailure("text_preview") == None
    ensures Get(FormatVars(text), "text") == Some(text)
    ensures Get(FormatVars(text), "text_preview") == Some(Preview(text))
  {
    assert "text"[0] == 't';
    assert "text_preview"[0] == 't';
  }

  /** A catalog template with one bound placeholder between brace-free
      literals formats to the literals around the placeholder's value. */
  lemma FormatPromptOneField(c: Catalog, docType: string, backend: string, text: string,
                             pre: string, name: string, post: string)
    requires GetPrompt(c, docType, backend) == pre + ("{" + name + "}" + post)
    requires '{' !in pre && '}' !in pre && '{' !in post && '}' !in post
    requires name == "text" || name == "text_preview"
    ensures FormatPrompt(c, docType, backend, text)
         == Success(pre + (Get(FormatVars(text), name).value + post))
  {
    TextVars(text);
    FormatOneField(pre, name, post, FormatVars(text));
  }

  /** A string `format` copies as it is. */
  predicate BraceFree(s: string) {
    '{' !in s && '}' !in s
  }

  // The literal pieces of the built-in templates hold no braces.

  lemma InvoicePreBraceFree()
    ensures BraceFree("Extract invoice information from: ")
  {
  }

  lemma DefaultPreBraceFree()
    ensures BraceFree("Extract information from: ")
  {
  }

  lemma InvoicePreviewPreBraceFree()
    ensures BraceFree("Extract invoice from: ")
  {
  }

  lemma PreviewPreBraceFree()
    ensures BraceFree("Extract from: ")
  {
  }

  lemma ReturnJsonBraceFree()
    ensures BraceFree("\nReturn JSON:")
  {
  }

  lemma PreviewPostBraceFree()
    ensures BraceFree("...\nJSON:")
  {
  }

  lemma InvoiceOllamaParts()
    ensures "Extract invoice information from: {text}\nReturn JSON:"
         == "Extract invoice information from: " + ("{" + "text" + "}" + "\nReturn JSON:")
  {
  }

  lemma HuggingFaceParts()
    ensures "Extract from: {text_preview}...\nJSON:" == "Extract from: " + ("{" + "text_preview" + "}" + "...\nJSON:")
  {
  }

  lemma SynthesizedParts(docType: string)
    ensures SynthesizedPrompt(docType)
         == "Extract " + docType + " information from: " + ("{" + "text" + "}" + "\nReturn JSON:")
  {
  }

  /** The synthesized template's text before the placeholder is brace-free
      when the document type is. */
  lemma SynthesizedPreBraceFree(docType: string)
    requires '{' !in docType && '}' !in docType
    ensures var pre := "Extract " + docType + " information from: "; '{' !in pre && '}' !in pre
  {
    assert BraceFree("Extract ");
    assert BraceFree(" information from: ");
    BraceFreeConcat("Extract ", docType);
    BraceFreeConcat("Extract " + docType, " information from: ");
  }

  /** With the built-in catalog an invoice prompt for ollama embeds the whole
      text, whatever braces the text itself holds. */
  lemma DefaultInvoiceOllamaPrompt(text: string)
    ensures FormatPrompt(DefaultCatalog, "invoice", "ollama", text)
         == Success("Extract invoice information from: " + (text + "\nReturn JSON:"))
  {
    DefaultLookups("invoice");
    InvoiceOllamaParts();
    InvoicePreBraceFree();
    ReturnJsonBraceFree();
    FormatPromptOneField(DefaultCatalog, "invoice", "ollama", text,
      "Extract invoice information from: ", "text", "\nReturn JSON:");
  }

  /** With the built-in catalog a huggingface prompt for any other document
      type embeds only the first 300 characters of the text. */
  lemma DefaultHuggingFacePrompt(docType: string, text: string)
    requires docType != "invoice"
    ensures FormatPrompt(DefaultCatalog, docType, "huggingface", text)
         == Success("Extract from: " + (Preview(text) + "...\nJSON:"))
  {
    DefaultLookups(docType);
    HuggingFaceParts();
    PreviewPreBraceFree();
    PreviewPostBraceFree();
    FormatPromptOneField(DefaultCatalog, docType, "huggingface", text,
      "Extract from: ", "text_preview", "...\nJSON:");
  }

  /** With the built-in catalog an invoice prompt for huggingface embeds
      only the first 300 characters of the text. */
  lemma DefaultInvoiceHuggingFacePrompt(text: string)
    ensures FormatPrompt(DefaultCatalog, "invoice", "huggingface", text)
         == Success("Extract invoice from: " + (Preview(text) + "...\nJSON:"))
  {
    DefaultLookups("invoice");
    InvoiceHuggingFaceParts();
    InvoicePreviewPreBraceFree();
    PreviewPostBraceFree();
    FormatPromptOneField(DefaultCatalog, "invoice", "huggingface", text,
      "Extract invoice from: ", "text_preview", "...\nJSON:");
  }

  lemma InvoiceHuggingFaceParts()
    ensures "Extract invoice from: {text_preview}...\nJSON:"
         == "Extract invoice from: " + ("{" + "text_preview" + "}" + "...\nJSON:")
  {
  }

  /** With the built-in catalog an ollama prompt for any other document type
      is the generic default with the whole text. */
  lemma DefaultOtherOllamaPrompt(docType: string, text: string)
    requires docType != "invoice"
    ensures FormatPrompt(DefaultCatalog, docType, "ollama", text)
         == Success("Extract information from: " + (text + "\nReturn JSON:"))
  {
    DefaultLookups(docType);
    DefaultOllamaParts();
    DefaultPreBraceFree();
    ReturnJsonBraceFree();
    FormatPromptOneField(DefaultCatalog, docType, "ollama", text,
      "Extract information from: ", "text", "\nReturn JSON:");
  }

  lemma DefaultOllamaParts()
    ensures "Extract information from: {text}\nReturn JSON:"
         == "Extract information from: " + ("{" + "text" + "}" + "\nReturn JSON:")
  {
  }

  /** For a method the catalog does not know, the synthesized template names
      the document type and embeds the text. */
  lemma SynthesizedPromptFormats(c: Catalog, docType: string, backend: string, text: string)
    requires !(Get(c.documentTypes, docType).Some? && Has(Get(c.documentTypes, docType).value, backend))
    requires !Has(c.default, backend)
    requires '{' !in docType && '}' !in docType
    ensures FormatPrompt(c, docType, backend, text)
         == Success("Extract " + docType + " information from: " + (text + "\nReturn JSON:"))
  {
    SynthesizedParts(docType);
    SynthesizedPreBraceFree(docType);
    ReturnJsonBraceFree();
    FormatPromptOneField(c, docType, backend, text,
      "Extract " + docType + " information from: ", "text", "\nReturn JSON:");
  }

  /** A template that names an unknown field falls back to literal
      replacement of the two placeholders. */
  lemma UnknownFieldFallsBack(c: Catalog, docType: string, backend: string, text: string, segs: seq<Segment>)
    requires GetPrompt(c, docType, backend) == Render(segs)
    requires PlainFields(segs)
    requires Substitute(segs, FormatVars(text)).Failure? && Substitute(segs, FormatVars(text)).error.KeyError?
    ensures FormatPrompt(c, docType, backend, text)
         == Success(Replace(Replace(Render(segs), "{text}", text), "{text_preview}", Prefix(text, 300)))
  {
    FormatRender(segs, FormatVars(text));
  }

  /** The KeyError fallback does not rescue a malformed template: a `{`
      inside a field name raises out of `format_prompt`. */
  lemma MalformedTemplateEscapes(c: Catalog, docType: string, backend: string, text: string, n: string, rest: string)
    requires GetPrompt(c, docType, backend) == "{" + n + "{" + rest
    requires n != "" && PlainName(n)
    ensures FormatPrompt(c, docType, backend, text) == Failure(ValueError("unexpected '{' in field name"))
  {
    FieldNameBraceRaises(n, rest, FormatVars(text));
  }

  // ------------------------------------------------------------ loader

  /** Whether some document type, or the defaults, offers a method. */
  ghost predicate MethodOffered(c: Catalog, m: string) {
    (exists i :: 0 <= i < |c.documentTypes| && m in Keys(c.documentTypes[i].value)) || m in Keys(c.default)
  }

  class PromptLoader {
    var prompts: Catalog

    constructor (outcome: LoadOutcome)
      ensures prompts == LoadPrompts(outcome)
    {
      prompts := LoadPrompts(outcome);
    }

    /** `reload_prompts`: a fresh load replaces the catalog. */
    method ReloadPrompts(outcome: LoadOutcome)
      modifies this
      ensures prompts == LoadPrompts(outcome)
    {
      prompts := LoadPrompts(outcome);
    }

    /** `get_available_document_types`: the document-type keys, in order. */
    function AvailableDocumentTypes(): (r: seq<string>)
      reads this
      ensures |r| == |prompts.documentTypes|
      ensures forall k :: k in r <==> Get(prompts.documentTypes, k).Some?
    {
      Keys(prompts.documentTypes)
    }

    /** `get_available_methods`: every method some document type or the
      defaults offer, each once. */
    method AvailableMethods() returns (ms: set<string>)
      ensures forall m :: m in ms <==> MethodOffered(prompts, m)
    {
      var types := prompts.documentTypes;
      ms := {};
      var i := 0;
      while i < |types|
        invariant 0 <= i <= |types|
        invariant forall m :: m in ms <==> exists j :: 0 <= j < i && m in Keys(types[j].value)
      {
        ms := ms + set k | k in Keys(types[i].value);
        i := i + 1;
      }
      ms := ms + set k | k in Keys(prompts.default);
    }
  }

  /** The built-in catalog offers exactly the three backends' methods and one
      document type. */
  lemma DefaultCatalogShape(m: string)
    ensures MethodOffered(DefaultCatalog, m) <==> m in {"ollama", "openai", "huggingface"}
    ensures Keys(DefaultCatalog.documentTypes) == ["invoice"]
  {
    assert Keys(DefaultCatalog.default) == ["ollama", "openai", "huggingface"];
    assert Keys(DefaultCatalog.documentTypes[0].value) == ["ollama", "openai", "huggingface"];
  }
}
