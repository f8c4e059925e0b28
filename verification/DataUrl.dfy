/** Image sources and data URLs (RFC 2397, section 3): splitting and joining are inverse on well-formed ones. */
module DataUrl {
  import opened Wrappers
  import opened Text

  datatype Source = Base64(mediaType: string, data: string) | Link(url: string)

  function IndexOf(s: string, c: char): (i: nat)
    ensures i <= |s|
    ensures i < |s| ==> s[i] == c
    ensures forall j :: 0 <= j < i ==> s[j] != c
  {
    if |s| == 0 || s[0] == c then 0 else 1 + IndexOf(s[1..], c)
  }

  const SCHEME := "data:"
  const MARK := ";base64"

  /** imageSourceFromDataURL. */
  function Split(url: string): Source {
    if !HasPrefix(url, SCHEME) then Link(url) else
    var rest := url[|SCHEME|..];
    var comma := IndexOf(rest, ',');
    if comma == 0 || comma == |rest| then Link(url) else
    var meta, data := rest[..comma], rest[comma + 1..];
    if HasSuffix(meta, MARK) then Base64(meta[..|meta| - |MARK|], data) else Link(SCHEME + meta + "," + data)
  }

  /** imageToDataURL on a source of a known type. */
  function Joined(s: Source): Result<string> {
    match s
    case Link(url) => Ok(url)
    case Base64(mediaType, data) =>
      if data == "" then Err("image source without data") else
      Ok(SCHEME + (if mediaType == "" then "image/png" else mediaType) + MARK + "," + data)
  }

  /** A base64 source that survives a round trip. */
  predicate Complete(s: Source) {
    s.Base64? ==> s.mediaType != "" && s.data != ""
  }

  lemma {:induction false} IndexOfIs(s: string, c: char, i: nat)
    requires i < |s| && s[i] == c && forall j :: 0 <= j < i ==> s[j] != c
    ensures IndexOf(s, c) == i
  {
  }

  lemma FirstComma(mediaType: string, data: string)
    requires ',' !in mediaType
    ensures var meta := mediaType + MARK;
      var rest := meta + "," + data;
      IndexOf(rest, ',') == |meta| && rest[..|meta|] == meta && rest[|meta| + 1..] == data
  {
    var meta := mediaType + MARK;
    var rest := meta + "," + data;
    assert forall j :: 0 <= j < |MARK| ==> MARK[j] != ',';
    IndexOfIs(rest, ',', |meta|);
  }

  /** Joining and splitting again: the source comes back whenever its media type has no comma. */
  lemma SplitJoined(mediaType: string, data: string)
    requires ',' !in mediaType
    ensures Split(SCHEME + mediaType + MARK + "," + data) == Base64(mediaType, data)
  {
    hide IndexOf, HasPrefix, HasSuffix;
    var url := SCHEME + mediaType + MARK + "," + data;
    var meta := mediaType + MARK;
    var rest := meta + "," + data;
    assert url == SCHEME + rest;
    Concatenated(SCHEME, rest);
    Concatenated(mediaType, MARK);
    FirstComma(mediaType, data);
  }

  predicate IsDataUrl(url: string, mediaType: string, data: string) {
    ',' !in mediaType && url == "data:" + mediaType + ";base64," + data
  }

  lemma SameText(mediaType: string, data: string)
    ensures SCHEME + mediaType + MARK + "," + data == "data:" + mediaType + ";base64," + data
  {
    assert MARK + "," == ";base64,";
    assert SCHEME + mediaType + MARK + "," + data == SCHEME + mediaType + (MARK + ",") + data;
  }

  /** A base64 data URL splits into its media type and data, empty or not; every other URL is a link. */
  lemma SplitExactly(url: string)
    ensures forall mediaType, data :: IsDataUrl(url, mediaType, data) <==> Split(url) == Base64(mediaType, data)
    ensures Split(url).Base64? || Split(url) == Link(url)
  {
    SplitMeaning(url);
    forall mediaType: string, data: string
      ensures IsDataUrl(url, mediaType, data) <==> Split(url) == Base64(mediaType, data)
    {
      SameText(mediaType, data);
      if ',' !in mediaType {
        SplitJoined(mediaType, data);
      }
    }
    hide Split;
  }

  lemma PrefixSplits(s: string, p: string)
    requires HasPrefix(s, p)
    ensures |p| <= |s| && s == p + s[|p|..]
  {
  }

  lemma SuffixSplits(s: string, p: string)
    requires HasSuffix(s, p)
    ensures |p| <= |s| && s == s[..|s| - |p|] + p
  {
  }

  lemma Concatenated(a: string, b: string)
    ensures HasPrefix(a + b, a) && (a + b)[|a|..] == b
    ensures HasSuffix(a + b, b) && (a + b)[..|a|] == a
  {
  }

  /** What splitting can produce. */
  lemma SplitMeaning(url: string)
    ensures var s := Split(url);
      match s
      case Link(u) => u == url
      case Base64(mediaType, data) => ',' !in mediaType && url == SCHEME + mediaType + MARK + "," + data
  {
    hide IndexOf, HasPrefix, HasSuffix;
    if HasPrefix(url, SCHEME) {
      PrefixSplits(url, SCHEME);
      var rest := url[|SCHEME|..];
      var comma := IndexOf(rest, ',');
      if 0 < comma < |rest| {
        var meta, data := rest[..comma], rest[comma + 1..];
        assert rest == meta + "," + data;
        assert ',' !in meta;
        if HasSuffix(meta, MARK) {
          SuffixSplits(meta, MARK);
        }
      }
    }
  }

  /** Splitting and joining again gives the URL back exactly when its source is complete. */
  lemma JoinSplit(url: string)
    ensures Joined(Split(url)) == Ok(url) <==> Complete(Split(url))
    ensures Joined(Split(url)).Ok? && Split(Joined(Split(url)).value) == Split(url) <==> Complete(Split(url))
    ensures Joined(Split(url)).Err? <==> Split(url).Base64? && Split(url).data == ""
  {
    SplitMeaning(url);
    match Split(url)
    case Link(_) =>
    case Base64(mediaType, data) =>
      if mediaType == "" && data != "" {
        SplitJoined("image/png", data);
      }
  }
}
