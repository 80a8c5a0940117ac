/**
 * The integration's hand-rolled JSON field readers: plain index scans over
 * the metrics document, with fixed fallbacks (0.0 or null) in place of
 * errors. `Double.parseDouble` is a parameter `parse`: a partial function
 * that either yields a number or fails.
 */
module JsonExtract {
  import opened Wrappers
  import opened Text

  /** The text searched for a numeric field: `"key":`. */
  function ValueKey(key: string): string {
    ['"'] + key + ['"', ':']
  }

  /** The text searched for a string field: `"key":"`. */
  function StringKey(key: string): string {
    ['"'] + key + ['"', ':', '"']
  }

  /** The text searched for an object field: `"key":{`. */
  function ObjectKey(key: string): string {
    ['"'] + key + ['"', ':', '{']
  }

  /** Where the value of a numeric field ends: the next ',' at or after `start`, else the next '}'. */
  function ValueEnd(json: string, start: nat): (r: int)
    ensures r == -1 || start <= r < |json|
  {
    var comma := IndexOf(json, [','], start);
    if comma == -1 then
      var close := IndexOf(json, ['}'], start);
      assert close == -1 || OccursAt(json, ['}'], close);
      close
    else
      assert OccursAt(json, [','], comma);
      comma
  }

  /** The trimmed text from `start` up to the value's end, or None when no ',' or '}' follows. */
  function ValueFrom(json: string, start: nat): Option<string> {
    var end := ValueEnd(json, start);
    if end == -1 then None else Some(Trim(json[start..end]))
  }

  /**
   * The trimmed text found after the first occurrence of `pat`, up to the
   * value's end, or None when `pat` is absent or no ',' or '}' follows it.
   */
  function ValueAfter(json: string, pat: string): (r: Option<string>)
    ensures IndexOf(json, pat, 0) == -1 ==> r == None
  {
    var at := IndexOf(json, pat, 0);
    if at == -1 then None else ValueFrom(json, at + |pat|)
  }

  /**
   * The trimmed text `extractJsonValue` hands to `Double.parseDouble`, or
   * None where it gives up before parsing: the key is absent, or no ',' or
   * '}' follows it (the substring call throws and the handler answers 0.0).
   */
  function ValueText(json: string, key: string): (r: Option<string>)
    ensures IndexOf(json, ValueKey(key), 0) == -1 ==> r == None
  {
    ValueAfter(json, ValueKey(key))
  }

  /** Once the key is located at `at`, what follows it is read from `start`, just after the key. */
  lemma ValueAfterFound(json: string, pat: string, at: nat, start: nat)
    requires IndexOf(json, pat, 0) == at && start == at + |pat|
    ensures ValueAfter(json, pat) == ValueFrom(json, start)
  {
  }

  /** Once the terminator is located, the value text is the trimmed slice before it. */
  lemma ValueFromAt(json: string, start: nat, end: nat)
    requires ValueEnd(json, start) == end
    ensures start <= end <= |json|
    ensures ValueFrom(json, start) == Some(Trim(json[start..end]))
  {
  }

  /**
   * What reaches the parser is found after the key, holds no ',' and has
   * nothing strippable at either end.
   */
  lemma ValueTextShape(json: string, key: string)
    ensures ValueText(json, key) != None ==> Contains(json, ValueKey(key))
    ensures ValueText(json, key) != None ==>
              Trimmed(ValueText(json, key).value) && ',' !in ValueText(json, key).value
  {
    var pat := ValueKey(key);
    var at := IndexOf(json, pat, 0);
    if at != -1 {
      var start := at + |pat|;
      var end := ValueEnd(json, start);
      if end != -1 {
        ValueAfterFound(json, pat, at, start);
        ValueFromAt(json, start, end);
        NoCommaBefore(json, start, end);
        TrimSlice(json[start..end]);
        TrimAbsent(json[start..end], ',');
      }
    }
  }

  /** The slice between `start` and the value's end holds no ','. */
  lemma NoCommaBefore(json: string, start: nat, end: int)
    requires end == ValueEnd(json, start) && end != -1
    ensures start <= end <= |json| && ',' !in json[start..end]
  {
    if ',' in json[start..end] {
      var k :| 0 <= k < end - start && json[start..end][k] == ',';
      OccursAtChar(json, ',', start + k);
      IndexOfFindsEarlier(json, [','], start, start + k);
      assert false;
    }
  }

  /**
   * `extractJsonValue(json, key)`: the number written after the first
   * `"key":`, or 0.0 when the key is absent, no terminator follows, or the
   * text does not parse.
   */
  function ExtractJsonValue(json: string, key: string, parse: string -> Option<real>): (r: real)
    ensures IndexOf(json, ValueKey(key), 0) == -1 ==> r == 0.0
    ensures ValueText(json, key) == None ==> r == 0.0
    ensures ValueText(json, key) != None ==> r == parse(ValueText(json, key).value).GetOr(0.0)
  {
    match ValueText(json, key)
    case None => 0.0
    case Some(text) =>
      match parse(text)
      case None => 0.0
      case Some(v) => v
  }

  /**
   * `extractJsonString(json, key)`: the characters between the first
   * `"key":"` and the next '"', or null when the key is absent or the
   * closing quote is missing (the substring call throws).
   */
  function ExtractJsonString(json: string, key: string): (r: Option<string>)
    ensures IndexOf(json, StringKey(key), 0) == -1 ==> r == None
    ensures r != None ==> Contains(json, StringKey(key)) && '"' !in r.value
  {
    var at := IndexOf(json, StringKey(key), 0);
    if at == -1 then None else StringFrom(json, at + |StringKey(key)|)
  }

  /** The characters from `start` up to the next '"', or None when no quote follows. */
  function StringFrom(json: string, start: nat): (r: Option<string>)
    ensures r != None ==> '"' !in r.value
  {
    var end := IndexOf(json, ['"'], start);
    if end == -1 then None
    else
      assert '"' !in json[start..end] by {
        if '"' in json[start..end] {
          var k :| 0 <= k < end - start && json[start..end][k] == '"';
          OccursAtChar(json, '"', start + k);
          IndexOfFindsEarlier(json, ['"'], start, start + k);
        }
      }
      Some(json[start..end])
  }

  /** The three page categories `extractJsonObject` reads. */
  const PageKeys: set<string> := {"home", "api", "other"}

  /**
   * `extractJsonObject(json, key)`: null when `"key":{` is absent, otherwise
   * a map from exactly home, api and other to their numeric values. The
   * values are looked up in the whole document, not inside the object.
   */
  function ExtractJsonObject(json: string, key: string, parse: string -> Option<real>): (r: Option<map<string, real>>)
    ensures r == None <==> IndexOf(json, ObjectKey(key), 0) == -1
    ensures r != None ==> r.value.Keys == PageKeys
    ensures r != None ==> forall k :: k in r.value ==> r.value[k] == ExtractJsonValue(json, k, parse)
  {
    if IndexOf(json, ObjectKey(key), 0) == -1 then None
    else
      Some(PageMap(k => ExtractJsonValue(json, k, parse)))
  }

  /** The `pages` entry built from the value `v(k)` of each page key. */
  function PageMap(v: string -> real): (r: map<string, real>)
    ensures r.Keys == PageKeys
    ensures forall k :: k in r ==> r[k] == v(k)
  {
    map["home" := v("home"), "api" := v("api"), "other" := v("other")]
  }

  /** No occurrence of `pat` in `s` begins before position `n`. */
  predicate NoOccurrenceBefore(s: string, pat: string, n: int) {
    forall i :: 0 <= i < n ==> !OccursAt(s, pat, i)
  }

  /**
   * An occurrence of `pat` that starts inside `prefix` is already visible in
   * `prefix + pat`, whatever follows.
   */
  lemma OccurrenceInPrefix(prefix: string, pat: string, tail: string, i: int)
    requires 0 <= i < |prefix|
    requires OccursAt(prefix + pat + tail, pat, i)
    ensures OccursAt(prefix + pat, pat, i)
  {
    assert (prefix + pat + tail)[i..i + |pat|] == (prefix + pat)[i..i + |pat|];
  }

  /**
   * In a document laid out as `prefix + pat + body + [term] + rest`, a key
   * whose first occurrence is right after `prefix` is found there.
   */
  lemma KeyFoundAfter(prefix: string, pat: string, body: string, term: char, rest: string)
    requires NoOccurrenceBefore(prefix + pat, pat, |prefix|)
    ensures IndexOf(prefix + pat + body + [term] + rest, pat, 0) == |prefix|
  {
    var tail := body + [term] + rest;
    var s := prefix + pat + tail;
    assert s == prefix + pat + body + [term] + rest;
    forall i | 0 <= i < |prefix|
      ensures !OccursAt(s, pat, i)
    {
      if OccursAt(s, pat, i) {
        OccurrenceInPrefix(prefix, pat, tail, i);
      }
    }
    assert s[|prefix|..|prefix| + |pat|] == pat;
    IndexOfFirst(s, pat, 0, |prefix|);
  }

  /** Searching from the end of `pre` for a character absent from `body` stops right after `body`. */
  lemma CharFoundAfter(pre: string, body: string, c: char, rest: string)
    requires c !in body
    ensures IndexOf(pre + body + [c] + rest, [c], |pre|) == |pre| + |body|
  {
    var s := pre + body + [c] + rest;
    OccursAtChar(s, c, |pre| + |body|);
    forall i | |pre| <= i < |pre| + |body|
      ensures !OccursAt(s, [c], i)
    {
      OccursAtChar(s, c, i);
      assert s[i] == body[i - |pre|];
    }
    IndexOfFirst(s, [c], |pre|, |pre| + |body|);
  }

  /** Searching for a character that does not occur from `from` on fails. */
  lemma CharAbsentFrom(s: string, c: char, from: nat)
    requires forall i :: from <= i < |s| ==> s[i] != c
    ensures IndexOf(s, [c], from) == -1
  {
    var r := IndexOf(s, [c], from);
    if r != -1 {
      OccursAtChar(s, c, r);
    }
  }

  /** The value written after `pre` ends at its terminator. */
  lemma ValueEndAfter(pre: string, text: string, term: char, rest: string)
    requires ',' !in text
    requires term == ',' || (term == '}' && '}' !in text && ',' !in rest)
    ensures ValueEnd(pre + text + [term] + rest, |pre|) == |pre| + |text|
  {
    var json := pre + text + [term] + rest;
    CharFoundAfter(pre, text, term, rest);
    if term == '}' {
      forall i | |pre| <= i < |json|
        ensures json[i] != ','
      {
        if i < |pre| + |text| {
          assert json[i] == text[i - |pre|];
        } else if |pre| + |text| < i {
          assert json[i] == rest[i - |pre| - |text| - 1];
        }
      }
      CharAbsentFrom(json, ',', |pre|);
    }
  }

  /**
   * Round trip for a numeric field: a document that writes `"key":`, then
   * `text` padded on either side with strippable characters, then ','
   * (or a final '}' with no ',' after it), where `"key":` does not occur
   * earlier, hands exactly `text` to the parser.
   */
  lemma ValueTextRoundTrip(prefix: string, key: string, ws1: string, text: string, ws2: string,
                           term: char, rest: string)
    requires NoOccurrenceBefore(prefix + ValueKey(key), ValueKey(key), |prefix|)
    requires Blank(ws1) && Trimmed(text) && Blank(ws2) && ',' !in text
    requires term == ',' || (term == '}' && '}' !in text && ',' !in rest)
    ensures ValueText(prefix + ValueKey(key) + ws1 + text + ws2 + [term] + rest, key) == Some(text)
  {
    ValueAfterRoundTrip(prefix, ValueKey(key), ws1, text, ws2, term, rest);
  }

  /** The same round trip for any search pattern in place of `"key":`. */
  lemma ValueAfterRoundTrip(prefix: string, pat: string, ws1: string, text: string, ws2: string,
                            term: char, rest: string)
    requires NoOccurrenceBefore(prefix + pat, pat, |prefix|)
    requires Blank(ws1) && Trimmed(text) && Blank(ws2) && ',' !in text
    requires term == ',' || (term == '}' && '}' !in text && ',' !in rest)
    ensures ValueAfter(prefix + pat + ws1 + text + ws2 + [term] + rest, pat) == Some(text)
  {
    var body := ws1 + text + ws2;
    var json := prefix + pat + body + [term] + rest;
    assert json == prefix + pat + ws1 + text + ws2 + [term] + rest;
    KeyFoundAfter(prefix, pat, body, term, rest);
    ValueAfterFound(json, pat, |prefix|, |prefix + pat|);
    ValueFromRoundTrip(prefix + pat, ws1, text, ws2, term, rest);
  }

  /** Reading from the end of `pre`, the value text is exactly the padded `text` written there, trimmed. */
  lemma ValueFromRoundTrip(pre: string, ws1: string, text: string, ws2: string, term: char, rest: string)
    requires Blank(ws1) && Trimmed(text) && Blank(ws2) && ',' !in text
    requires term == ',' || (term == '}' && '}' !in text && ',' !in rest)
    ensures ValueFrom(pre + (ws1 + text + ws2) + [term] + rest, |pre|) == Some(text)
  {
    var body := ws1 + text + ws2;
    var json := pre + body + [term] + rest;
    forall i | 0 <= i < |body|
      ensures body[i] != ',' && (term == '}' ==> body[i] != '}')
    {
      if |ws1| <= i < |ws1| + |text| {
        assert body[i] == text[i - |ws1|];
      } else {
        assert IsSpace(body[i]);
      }
    }
    ValueEndAfter(pre, body, term, rest);
    ValueFromAt(json, |pre|, |pre| + |body|);
    assert json[|pre|..|pre| + |body|] == body;
    TrimPadded(ws1, text, ws2);
  }

  /**
   * The terminator search prefers a ',' anywhere later to the '}' that
   * closes the value: a field that ends its object, with a ',' further on
   * (`"home":12},...`), hands the text up to that ',', closing brace
   * included, to the parser.
   */
  lemma ClosingBraceKept(prefix: string, key: string, text: string, mid: string, rest: string)
    requires NoOccurrenceBefore(prefix + ValueKey(key), ValueKey(key), |prefix|)
    requires ',' !in text && ',' !in mid
    ensures ValueText(prefix + ValueKey(key) + (text + ['}'] + mid) + [','] + rest, key)
         == Some(Trim(text + ['}'] + mid))
  {
    var pat := ValueKey(key);
    var body := text + ['}'] + mid;
    var json := prefix + pat + body + [','] + rest;
    assert ',' !in body by {
      forall i | 0 <= i < |body|
        ensures body[i] != ','
      {
        if i < |text| {
          assert body[i] == text[i];
        } else if i > |text| {
          assert body[i] == mid[i - |text| - 1];
        }
      }
    }
    KeyFoundAfter(prefix, pat, body, ',', rest);
    ValueAfterFound(json, pat, |prefix|, |prefix + pat|);
    ValueEndAfter(prefix + pat, body, ',', rest);
    ValueFromAt(json, |prefix + pat|, |prefix + pat| + |body|);
    assert json[|prefix + pat|..|prefix + pat| + |body|] == body;
  }

  /** ... and `extractJsonValue` returns what `parse` makes of `text`. */
  lemma ValueRoundTrip(prefix: string, key: string, ws1: string, text: string, ws2: string,
                       term: char, rest: string, parse: string -> Option<real>)
    requires NoOccurrenceBefore(prefix + ValueKey(key), ValueKey(key), |prefix|)
    requires Blank(ws1) && Trimmed(text) && Blank(ws2) && ',' !in text
    requires term == ',' || (term == '}' && '}' !in text && ',' !in rest)
    ensures ExtractJsonValue(prefix + ValueKey(key) + ws1 + text + ws2 + [term] + rest, key, parse)
         == parse(text).GetOr(0.0)
  {
    ValueTextRoundTrip(prefix, key, ws1, text, ws2, term, rest);
  }

  /**
   * Round trip for a string field: a document that writes `"key":"name"`,
   * where `"key":"` does not occur earlier and `name` holds no quote,
   * yields `name`.
   */
  lemma StringRoundTrip(prefix: string, key: string, name: string, rest: string)
    requires NoOccurrenceBefore(prefix + StringKey(key), StringKey(key), |prefix|)
    requires '"' !in name
    ensures ExtractJsonString(prefix + StringKey(key) + name + ['"'] + rest, key) == Some(name)
  {
    var sk := StringKey(key);
    KeyFoundAfter(prefix, sk, name, '"', rest);
    StringAfterFound(prefix + sk + name + ['"'] + rest, key, |prefix|, |prefix + sk|);
    StringFromRoundTrip(prefix + sk, name, rest);
  }

  /** Once the key is located at `at`, the string is read from `start`, just after the key. */
  lemma StringAfterFound(json: string, key: string, at: nat, start: nat)
    requires IndexOf(json, StringKey(key), 0) == at && start == at + |StringKey(key)|
    ensures ExtractJsonString(json, key) == StringFrom(json, start)
  {
  }

  /** Reading from the end of `pre`, the string is exactly the quote-free `name` written there. */
  lemma StringFromRoundTrip(pre: string, name: string, rest: string)
    requires '"' !in name
    ensures StringFrom(pre + name + ['"'] + rest, |pre|) == Some(name)
  {
    CharFoundAfter(pre, name, '"', rest);
    assert (pre + name + ['"'] + rest)[|pre|..|pre| + |name|] == name;
  }

}
