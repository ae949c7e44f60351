/** The brace-slicing parser that turns a backend's free-text reply into an
    extracted-data map. The JSON decoder is a parameter. */
module ResponseParser {
  import opened Wrappers
  import opened Dicts
  import opened Json
  import opened Strs

  /** The fallback map `{"raw_response": response}`. */
  function RawResponse(response: string): (d: Dict<Value>)
    ensures Keys(d) == ["raw_response"]
    ensures Get(d, "raw_response") == Some(Str(response))
  {
    [Entry("raw_response", Str(response))]
  }

  /** The slice from the first `{` through the last `}`, when the reply holds
      both braces in that order. */
  function BraceSlice(response: string): (r: Option<string>)
    ensures r.Some? <==> '{' in response && '}' in response && Find(response, '{') < RFind(response, '}')
    ensures r.Some? ==> 2 <= |r.value| && r.value[0] == '{' && r.value[|r.value| - 1] == '}'
    ensures r.Some? ==> '{' !in response[..Find(response, '{')] && '}' !in response[RFind(response, '}') + 1..]
  {
    var i := Find(response, '{');
    var j := RFind(response, '}');
    if i != -1 && j != -1 && i < j then
      var slice := response[i..j + 1];
      assert slice[|slice| - 1] == response[j];
      Some(slice)
    else None
  }

  /** Nothing of the reply is lost around the slice: the reply is the text
      before the first `{`, the slice, and the text after the last `}`. */
  lemma BraceSliceSplits(response: string)
    ensures BraceSlice(response).Some? ==>
      response == response[..Find(response, '{')] + BraceSlice(response).value + response[RFind(response, '}') + 1..]
  {
    if BraceSlice(response).Some? {
      var i, j := Find(response, '{'), RFind(response, '}');
      assert response == response[..i] + BraceSlice(response).value + response[j + 1..] by {
        assert BraceSlice(response).value == response[i..j + 1];
        ConcatAround(response, i, j);
      }
    }
  }

  lemma ConcatAround(s: string, i: nat, j: nat)
    requires i <= j < |s|
    ensures s[..i] + s[i..j + 1] + s[j + 1..] == s
  {
    assert s[..i] + s[i..j + 1] == s[..j + 1];
  }

  /** `_parse_json_response`: decode the brace slice; when a brace is
      missing, when the last `}` precedes the first `{` (the slice is then
      empty and does not decode), or when decoding fails, the reply itself is
      kept under "raw_response". */
  function ParseJsonResponse(response: string, loads: string -> Option<Value>): (r: Dict<Value>)
    requires JsonLoads(loads)
    ensures BraceSlice(response).Some? && loads(BraceSlice(response).value).Some? ==>
      loads(BraceSlice(response).value) == Some(Obj(r))
    ensures BraceSlice(response).None? || loads(BraceSlice(response).value).None? ==>
      r == RawResponse(response)
  {
    var start := Find(response, '{');
    var end := RFind(response, '}') + 1;
    if start != -1 && end != 0 then
      var js := Slice(response, start, end);
      assert BraceSlice(response).None? ==> js == "";
      match loads(js)
      case Some(Obj(fs)) => fs
      case _ => RawResponse(response)
    else RawResponse(response)
  }

  /** Whatever the reply, the result is either something the decoder produced
      from a slice of it that starts with `{`, or the raw-response map. */
  lemma ParseResultOrigin(response: string, loads: string -> Option<Value>)
    requires JsonLoads(loads)
    ensures var r := ParseJsonResponse(response, loads);
      r == RawResponse(response) ||
      exists i, j :: 0 <= i < j <= |response| && response[i] == '{' && loads(response[i..j]) == Some(Obj(r))
  {
    var r := ParseJsonResponse(response, loads);
    var b := BraceSlice(response);
    if b.Some? && loads(b.value).Some? {
      var i := Find(response, '{');
      var j := RFind(response, '}');
      assert response[i..j + 1] == b.value;
      assert loads(response[i..j + 1]) == Some(Obj(r));
    }
  }

  /** Prose around one object, with no `{` before it and no `}` after it,
      yields that object's fields. */
  lemma ParseEmbeddedObject(pre: string, obj: string, post: string, loads: string -> Option<Value>)
    requires JsonLoads(loads)
    requires '{' !in pre && '}' !in post
    requires 2 <= |obj| && obj[0] == '{' && obj[|obj| - 1] == '}'
    requires loads(obj).Some?
    ensures loads(obj) == Some(Obj(ParseJsonResponse(pre + obj + post, loads)))
  {
    var s := pre + obj + post;
    var i, j := |pre|, |pre| + |obj| - 1;
    assert Find(s, '{') == i by {
      assert s[i] == '{' && s[..i] == pre;
      FindAt(s, '{', i);
    }
    assert RFind(s, '}') == j by {
      assert s[j] == '}' && s[j + 1..] == post;
      RFindAt(s, '}', j);
    }
    assert BraceSlice(s) == Some(obj) by {
      assert s[i..j + 1] == obj;
    }
  }

  /** Reversed braces fall back to the raw reply. */
  lemma ParseReversedBraces(s: string, loads: string -> Option<Value>)
    requires JsonLoads(loads)
    requires s == "} no object {"
    ensures ParseJsonResponse(s, loads) == RawResponse(s)
  {
    assert forall i :: 0 <= i < 12 ==> s[..12][i] == s[i] != '{';
    FindAt(s, '{', 12);
    assert forall i :: 1 <= i < |s| ==> s[1..][i - 1] == s[i] != '}';
    RFindAt(s, '}', 0);
    assert BraceSlice(s).None?;
  }
}
