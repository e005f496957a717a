/**
 * Request-URL assembly of `_call`: a fixed template holding the remote operation
 * name, the API key and the one-time code, ending in a `%qs` placeholder that
 * `String.prototype.replace` then substitutes with the query string of the
 * options, or with nothing when there are none.
 */
module Endpoint {
  import opened Wrappers
  import opened JsValue
  import opened Flatten

  const Base := "https://bitskins.com/api/v1/"
  const Placeholder := "%qs"

  /** Output of the query-string encoder. The encoder percent-escapes '$', so
      the `$` replacement patterns of `String.prototype.replace` never occur. */
  type QueryText = s: string | '$' !in s

  /** `s` holds `pat` starting at index `j`. */
  predicate OccursAt(s: string, pat: string, j: int) {
    0 <= j && j + |pat| <= |s| && s[j..j + |pat|] == pat
  }

  /** The first occurrence of `pat` in `s` at or after `from`. */
  function IndexFrom(s: string, pat: string, from: nat): (r: Option<nat>)
    requires from <= |s|
    ensures r.Some? ==> from <= r.value && OccursAt(s, pat, r.value)
    ensures r.Some? ==> forall j :: from <= j < r.value ==> !OccursAt(s, pat, j)
    ensures r.None? ==> forall j :: from <= j ==> !OccursAt(s, pat, j)
    decreases |s| - from
  {
    if from + |pat| > |s| then None
    else if s[from..from + |pat|] == pat then Some(from)
    else if from == |s| then None
    else IndexFrom(s, pat, from + 1)
  }

  /** `s.indexOf(pat)`, as an option: the first index where `pat` occurs. */
  function IndexOf(s: string, pat: string): (r: Option<nat>)
    ensures r.Some? ==> OccursAt(s, pat, r.value)
    ensures r.Some? ==> forall j :: 0 <= j < r.value ==> !OccursAt(s, pat, j)
    ensures r.None? ==> forall j :: !OccursAt(s, pat, j)
  {
    IndexFrom(s, pat, 0)
  }

  /** `s.replace(pat, rep)` with a string pattern: only the first occurrence is
      replaced, and a string without one comes back unchanged. */
  function ReplaceFirst(s: string, pat: string, rep: string): (r: string)
    requires '$' !in rep
    ensures IndexOf(s, pat).None? ==> r == s
    ensures IndexOf(s, pat).Some? ==>
              var i := IndexOf(s, pat).value;
              |r| == |s| - |pat| + |rep| && r[..i] == s[..i] && r[i..i + |rep|] == rep
              && r[i + |rep|..] == s[i + |pat|..]
  {
    match IndexOf(s, pat)
    case None => s
    case Some(i) => s[..i] + rep + s[i + |pat|..]
  }

  /** The template up to the placeholder. */
  function Prefix(operation: string, apiKey: string, code: string): string {
    Base + operation + "/?api_key=" + apiKey + "&code=" + code
  }

  /** What replaces the placeholder: `'&' + stringify(options)` when options are
      given (even an empty object), nothing when they are absent. */
  function QuerySuffix(options: Option<Params>, stringify: Params -> QueryText): (q: string)
    ensures '$' !in q
  {
    match options
    case None => ""
    case Some(p) => "&" + stringify(p)
  }

  /** No "%qs" anywhere in `s`. */
  ghost predicate PlaceholderFree(s: string) {
    forall j :: !OccursAt(s, Placeholder, j)
  }

  /** The URL `_call` requests. When the placeholder occurs nowhere before its
      own slot, the URL is the prefix followed by the query suffix. */
  function Url(operation: string, apiKey: string, code: string, options: Option<Params>,
               stringify: Params -> QueryText): (url: string)
    ensures PlaceholderFree(Prefix(operation, apiKey, code)) ==>
              url == Prefix(operation, apiKey, code) + QuerySuffix(options, stringify)
  {
    var p := Prefix(operation, apiKey, code);
    var q := QuerySuffix(options, stringify);
    assert PlaceholderFree(p) ==> ReplaceFirst(p + Placeholder, Placeholder, q) == p + q by {
      if PlaceholderFree(p) {
        PlaceholderAtEnd(p, q);
      }
    }
    ReplaceFirst(p + Placeholder, Placeholder, q)
  }

  /** The URL is the template with its first placeholder replaced. */
  lemma UrlIsReplace(operation: string, apiKey: string, code: string, options: Option<Params>,
                     stringify: Params -> QueryText)
    ensures Url(operation, apiKey, code, options, stringify)
         == ReplaceFirst(Prefix(operation, apiKey, code) + Placeholder, Placeholder, QuerySuffix(options, stringify))
  {
  }

  /** An occurrence with none before it is the one `IndexOf` reports. */
  lemma FirstOccurrence(s: string, pat: string, i: nat)
    requires OccursAt(s, pat, i)
    requires forall j :: 0 <= j < i ==> !OccursAt(s, pat, j)
    ensures IndexOf(s, pat) == Some(i)
  {
  }

  /** A placeholder appended to a placeholder-free string is found at its own
      slot: it cannot straddle the boundary, because '%' does not recur in "%qs". */
  lemma PlaceholderAtEnd(p: string, rep: string)
    requires PlaceholderFree(p)
    requires '$' !in rep
    ensures IndexOf(p + Placeholder, Placeholder) == Some(|p|)
    ensures ReplaceFirst(p + Placeholder, Placeholder, rep) == p + rep
  {
    var s := p + Placeholder;
    assert s[|p|..|p| + 3] == Placeholder;
    forall j | 0 <= j < |p|
      ensures !OccursAt(s, Placeholder, j)
    {
      if j + 3 <= |p| {
        assert s[j..j + 3] == p[j..j + 3];
        assert !OccursAt(p, Placeholder, j);
      } else {
        assert s[j..j + 3][|p| - j] == '%';
      }
    }
    FirstOccurrence(s, Placeholder, |p|);
    assert s[..|p|] == p;
    assert s[|p| + 3..] == "";
  }

  /** A string without '%' holds no placeholder. */
  lemma NoPercentIsPlaceholderFree(s: string)
    requires '%' !in s
    ensures PlaceholderFree(s)
  {
    forall j
      ensures !OccursAt(s, Placeholder, j)
    {
      if 0 <= j && j + 3 <= |s| {
        assert s[j] in s;
        assert s[j..j + 3][0] != Placeholder[0];
      }
    }
  }

  /** With operation, key and code free of '%', the URL is exactly the template
      with the query suffix at the end. */
  lemma UrlOfPlainParts(operation: string, apiKey: string, code: string, options: Option<Params>,
                        stringify: Params -> QueryText)
    requires '%' !in operation && '%' !in apiKey && '%' !in code
    ensures Url(operation, apiKey, code, options, stringify)
         == Base + operation + "/?api_key=" + apiKey + "&code=" + code + QuerySuffix(options, stringify)
  {
    var p := Prefix(operation, apiKey, code);
    assert '%' !in Base;
    assert '%' !in "/?api_key=";
    assert '%' !in "&code=";
    assert '%' !in p;
    NoPercentIsPlaceholderFree(p);
  }

  /** Options present but empty still leave a trailing '&' when the encoder
      writes an empty object as "". */
  lemma EmptyOptionsTrailingAmpersand(operation: string, apiKey: string, code: string,
                                      stringify: Params -> QueryText)
    requires PlaceholderFree(Prefix(operation, apiKey, code))
    requires stringify(map[]) == ""
    ensures Url(operation, apiKey, code, Some(map[]), stringify) == Prefix(operation, apiKey, code) + "&"
    ensures Url(operation, apiKey, code, None, stringify) == Prefix(operation, apiKey, code)
  {
  }

  /** No placeholder starts among the first `n` characters when they hold no '%'. */
  lemma NoPlaceholderBefore(s: string, n: nat)
    requires n <= |s| && '%' !in s[..n]
    ensures forall j :: 0 <= j < n ==> !OccursAt(s, Placeholder, j)
  {
    forall j | 0 <= j < n
      ensures !OccursAt(s, Placeholder, j)
    {
      assert s[j] == s[..n][j];
      if j + 3 <= |s| {
        assert s[j..j + 3][0] != Placeholder[0];
      }
    }
  }

  /** The first "%qs" after a '%'-free head is found right after the head,
      whatever follows, and replacing it keeps head and tail around the
      replacement. */
  lemma PlaceholderAfterHead(head: string, tail: string, rep: string)
    requires '%' !in head
    requires '$' !in rep
    ensures IndexOf(head + Placeholder + tail, Placeholder) == Some(|head|)
    ensures ReplaceFirst(head + Placeholder + tail, Placeholder, rep) == head + rep + tail
  {
    var s := head + Placeholder + tail;
    assert s[..|head|] == head;
    NoPlaceholderBefore(s, |head|);
    assert s[|head|..|head| + 3] == Placeholder;
    FirstOccurrence(s, Placeholder, |head|);
    assert s[|head| + 3..] == tail;
  }

  /** The template around a key holding "%qs": a '%'-free head up to that
      "%qs", and everything after it. */
  lemma KeyHeadAndTail(operation: string, keyHead: string, keyTail: string, code: string)
    returns (head: string, tail: string)
    requires '%' !in operation && '%' !in keyHead
    ensures head == Base + operation + "/?api_key=" + keyHead && '%' !in head
    ensures tail == keyTail + "&code=" + code + Placeholder
    ensures Prefix(operation, keyHead + Placeholder + keyTail, code) + Placeholder == head + Placeholder + tail
  {
    head := Base + operation + "/?api_key=" + keyHead;
    tail := keyTail + "&code=" + code + Placeholder;
    assert '%' !in Base;
    assert '%' !in "/?api_key=";
  }

  /** Concatenation regrouped around a middle piece. */
  lemma Regroup(a: string, b: string, c: string, d: string, q: string, e: string, f: string, g: string, h: string)
    ensures (a + b + c + d) + q + (e + f + g + h) == a + b + c + d + q + e + f + g + h
  {
  }

  /** An API key that itself contains "%qs" captures the substitution: the
      query lands inside the key and the template's own placeholder stays in
      the URL. */
  lemma PlaceholderInKey(operation: string, keyHead: string, keyTail: string, code: string,
                         options: Option<Params>, stringify: Params -> QueryText)
    requires '%' !in operation && '%' !in keyHead
    ensures Url(operation, keyHead + Placeholder + keyTail, code, options, stringify)
         == Base + operation + "/?api_key=" + keyHead + QuerySuffix(options, stringify)
            + keyTail + "&code=" + code + Placeholder
  {
    var head, tail := KeyHeadAndTail(operation, keyHead, keyTail, code);
    var q := QuerySuffix(options, stringify);
    UrlIsReplace(operation, keyHead + Placeholder + keyTail, code, options, stringify);
    PlaceholderAfterHead(head, tail, q);
    Regroup(Base, operation, "/?api_key=", keyHead, q, keyTail, "&code=", code, Placeholder);
  }
}
