/** The upload filename the Register and Analyze screens derive from the
    picked image's URI: the last path segment (or "photo.jpg" when it is
    empty), prefixed with the current time in milliseconds and a dash so that
    every upload gets a fresh name. */
module Upload {
  import opened Text

  const DefaultFilename: string := "photo.jpg"

  /** The index of the last '/' in the URI, or -1 when it has none. */
  function LastSlash(uri: string): (i: int)
    ensures -1 <= i < |uri|
    ensures i >= 0 ==> uri[i] == '/'
    ensures forall j :: i < j < |uri| ==> uri[j] != '/'
    decreases |uri|
  {
    if uri == [] then -1
    else if uri[|uri| - 1] == '/' then |uri| - 1
    else LastSlash(uri[..|uri| - 1])
  }

  /** `r` is the final segment of `uri`: a suffix holding no '/' that is
      either the whole URI or preceded by a '/'. */
  predicate IsFinalSegment(uri: string, r: string)
  {
    && '/' !in r
    && |r| <= |uri| && uri[|uri| - |r|..] == r
    && (|r| < |uri| ==> uri[|uri| - |r| - 1] == '/')
  }

  /** At most one string is the final segment of a URI. */
  lemma FinalSegmentUnique(uri: string, r1: string, r2: string)
    requires IsFinalSegment(uri, r1) && IsFinalSegment(uri, r2)
    ensures r1 == r2
  {
  }

  /** `uri.split('/').pop()`: the text after the last '/', or the whole URI
      when it holds no '/'. */
  function LastSegment(uri: string): (r: string)
    ensures IsFinalSegment(uri, r)
  {
    uri[LastSlash(uri) + 1..]
  }

  /** Whatever precedes the last '/', the segment after it comes back
      unchanged; a URI without '/' is its own segment. */
  lemma LastSegmentOfPath(dir: string, segment: string)
    requires '/' !in segment
    ensures LastSegment(dir + "/" + segment) == segment
    ensures LastSegment(segment) == segment
  {
    var uri := dir + "/" + segment;
    assert uri[|uri| - |segment|..] == segment;
    assert uri[|uri| - |segment| - 1] == '/';
    FinalSegmentUnique(uri, LastSegment(uri), segment);
    FinalSegmentUnique(segment, LastSegment(segment), segment);
  }

  /** `image.uri.split('/').pop() || 'photo.jpg'`. */
  function UploadFilename(uri: string): (r: string)
    ensures r != "" && '/' !in r
    ensures r == DefaultFilename || r == LastSegment(uri)
    ensures LastSegment(uri) != "" ==> r == LastSegment(uri)
  {
    var segment := LastSegment(uri);
    if segment == "" then DefaultFilename else segment
  }

  /** `${Date.now()}-${filename}`. */
  function UniqueFilename(now: nat, uri: string): (r: string)
    ensures |r| > |UploadFilename(uri)| + 1
    ensures r[|r| - |UploadFilename(uri)| - 1..] == "-" + UploadFilename(uri)
    ensures AllDigits(r[..|r| - |UploadFilename(uri)| - 1])
  {
    var digits := DecimalString(now);
    var tail := "-" + UploadFilename(uri);
    SplitConcat(digits, tail);
    digits + tail
  }

  lemma SplitConcat(a: string, b: string)
    ensures (a + b)[..|a|] == a && (a + b)[|a|..] == b
  {
  }

  /** The text before the first '-' of an upload name. */
  function BeforeFirstDash(s: string): string
  {
    if s == [] || s[0] == '-' then [] else [s[0]] + BeforeFirstDash(s[1..])
  }

  /** The text after the first '-' of an upload name. */
  function AfterFirstDash(s: string): string
  {
    if s == [] then [] else if s[0] == '-' then s[1..] else AfterFirstDash(s[1..])
  }

  lemma {:induction false} SplitAtFirstDash(prefix: string, rest: string)
    requires '-' !in prefix
    ensures BeforeFirstDash(prefix + "-" + rest) == prefix
    ensures AfterFirstDash(prefix + "-" + rest) == rest
  {
    if prefix != [] {
      assert (prefix + "-" + rest)[1..] == prefix[1..] + "-" + rest;
      SplitAtFirstDash(prefix[1..], rest);
    }
  }

  /** The unique name can be taken apart again: the timestamp before the
      first dash and the original filename after it. */
  lemma UniqueFilenameRoundTrip(now: nat, uri: string)
    ensures AllDigits(BeforeFirstDash(UniqueFilename(now, uri)))
    ensures DecimalValue(BeforeFirstDash(UniqueFilename(now, uri))) == now
    ensures AfterFirstDash(UniqueFilename(now, uri)) == UploadFilename(uri)
  {
    var digits := DecimalString(now);
    assert forall i :: 0 <= i < |digits| ==> digits[i] != '-';
    SplitAtFirstDash(digits, UploadFilename(uri));
    assert UniqueFilename(now, uri) == digits + "-" + UploadFilename(uri);
    DecimalRoundTrip(now);
  }
}
