/**
 * The crop-list checks of backend/tests/test_crop_sync.py: extracting the
 * crop names from the frontend's TypeScript source with a quoted-string
 * scanner, `sorted(set(...))` of the names, and the validity of the
 * backend's crop storage records. Reading the two files is left to the
 * caller: the functions take their contents.
 */
module CropSync {
  import opened Wrappers
  import opened PyStrings

  /** Pattern `pat` occurs in `s` at index `i`. */
  predicate MatchAt(s: string, pat: string, i: int) {
    0 <= i && i + |pat| <= |s| && s[i..i + |pat|] == pat
  }

  /** Python's `s.find(pat, from)`: the first occurrence at or after `from`, or -1. */
  function Find(s: string, pat: string, from: nat): (r: int)
    ensures r == -1 || (from <= r && MatchAt(s, pat, r))
    ensures r != -1 ==> forall j :: from <= j < r ==> !MatchAt(s, pat, j)
    ensures r == -1 ==> forall j :: from <= j ==> !MatchAt(s, pat, j)
    decreases |s| - from
  {
    if from + |pat| > |s| then -1
    else if s[from..from + |pat|] == pat then from
    else Find(s, pat, from + 1)
  }

  /** Python's normalisation of a slice bound for a sequence of length `n`. */
  function SliceBound(i: int, n: nat): (b: nat)
    ensures b <= n
    ensures 0 <= i <= n ==> b == i
    ensures i > n ==> b == n
    ensures i < 0 && 0 <= n + i ==> b == n + i
    ensures n + i < 0 ==> b == 0
  {
    if i < 0 then (if i + n < 0 then 0 else i + n) else if i <= n then i else n
  }

  /** Python's `s[a:b]`. */
  function Slice(s: string, a: int, b: int): (r: string)
    ensures |r| <= |s|
    ensures 0 <= a <= b <= |s| ==> r == s[a..b]
    ensures 0 <= a <= |s| <= b ==> r == s[a..]
    ensures 0 <= a && b < 0 && a <= |s| + b ==> r == s[a..|s| + b]
    ensures SliceBound(b, |s|) <= SliceBound(a, |s|) ==> r == []
  {
    var lo, hi := SliceBound(a, |s|), SliceBound(b, |s|);
    if lo < hi then s[lo..hi] else []
  }

  const Marker := "export const CROP_LIST = ["

  /** The marker ends in '[', so the bracket search from the marker finds that bracket or an earlier one. */
  lemma BracketAfterMarker(content: string, marker: nat)
    requires MatchAt(content, Marker, marker)
    ensures marker <= Find(content, "[", marker) <= marker + |Marker| - 1
  {
    var b := marker + |Marker| - 1;
    assert content[b..b + 1] == content[marker..marker + |Marker|][|Marker| - 1..];
    assert MatchAt(content, "[", b);
  }

  /** Where the array's contents end: the first "].sort()" after the bracket, else the first "];", else -1. */
  function ArrayEnd(content: string, start: nat): (e: int)
    ensures e == -1 || (start <= e && (MatchAt(content, "].sort()", e) || MatchAt(content, "];", e)))
  {
    if Find(content, "].sort()", start) != -1 then Find(content, "].sort()", start) else Find(content, "];", start)
  }

  // The scanner: a reference definition through Python's `split('"')`.

  /** Python's `s.split('"')`: the pieces between the double quotes. */
  function Split(s: string): (pieces: seq<string>)
    ensures |pieces| >= 1
  {
    if |s| == 0 then [""]
    else
      var p := Split(s[..|s| - 1]);
      if s[|s| - 1] == '"' then p + [""] else p[..|p| - 1] + [p[|p| - 1] + [s[|s| - 1]]]
  }

  /** The characters `str.isspace` holds for. */
  predicate IsSpace(c: char)
    ensures IsSpace(c) ==> c != '"'
  {
    c == ' ' || ('\t' <= c <= '\r') || ('\U{1c}' <= c <= '\U{1f}') || c == '\U{85}' || c == '\U{a0}'
    || c == '\U{1680}' || ('\U{2000}' <= c <= '\U{200a}') || c == '\U{2028}' || c == '\U{2029}'
    || c == '\U{202f}' || c == '\U{205f}' || c == '\U{3000}'
  }

  /** `not s.strip()`: empty or only whitespace. */
  predicate Blank(s: string)
    ensures |s| == 0 ==> Blank(s)
    ensures Blank(s) ==> '"' !in s
  {
    forall i :: 0 <= i < |s| ==> IsSpace(s[i])
  }

  /** The odd-numbered pieces among `ps` (those inside quotes) that are not blank, in order. */
  function Inside(ps: seq<string>): (r: seq<string>)
    ensures |r| <= |ps|
    ensures forall i :: 0 <= i < |r| ==> !Blank(r[i])
  {
    if |ps| == 0 then []
    else Inside(ps[..|ps| - 1]) + (if (|ps| - 1) % 2 == 1 && !Blank(ps[|ps| - 1]) then [ps[|ps| - 1]] else [])
  }

  /** The names the scanner extracts: quoted pieces that are closed by a later quote, and not blank. */
  function Extract(s: string): (names: seq<string>)
    ensures forall i :: 0 <= i < |names| ==> !Blank(names[i])
  {
    var ps := Split(s);
    Inside(ps[..|ps| - 1])
  }

  /** After `s`, the scanner is inside a quoted string: `s` holds an odd number of quotes. */
  predicate InQuote(s: string) {
    |Split(s)| % 2 == 0
  }

  /** The last piece: the text after the last quote. */
  function Last(s: string): string {
    var p := Split(s);
    p[|p| - 1]
  }

  lemma SplitSnoc(s: string, c: char)
    ensures var p := Split(s);
      Split(s + [c]) == if c == '"' then p + [""] else p[..|p| - 1] + [p[|p| - 1] + [c]]
  {
    assert (s + [c])[..|s|] == s;
  }

  /** A quote closes the last piece; it is kept when it was an inside piece and not blank. */
  lemma ExtractQuote(s: string)
    ensures |Split(s + ['"'])| == |Split(s)| + 1 && Last(s + ['"']) == ""
    ensures InQuote(s + ['"']) <==> !InQuote(s)
    ensures Extract(s + ['"']) == Extract(s) + (if InQuote(s) && !Blank(Last(s)) then [Last(s)] else [])
  {
    var p := Split(s);
    var q := Split(s + ['"']);
    SplitSnoc(s, '"');
    assert q == p + [""];
    assert q[..|q| - 1] == p;
    assert Extract(s + ['"']) == Inside(p);
    var init := p[..|p| - 1];
    assert init + [p[|p| - 1]] == p;
    InsideSnoc(init, p[|p| - 1]);
    assert Extract(s) == Inside(init) && Last(s) == p[|p| - 1];
    Parity(|p|);
  }

  lemma Parity(n: nat)
    requires n >= 1
    ensures (n - 1) % 2 == 1 <==> n % 2 == 0
    ensures (n + 1) % 2 == 0 <==> n % 2 == 1
  {
  }

  /** Any other character extends the last piece. */
  lemma ExtractOther(s: string, c: char)
    requires c != '"'
    ensures |Split(s + [c])| == |Split(s)| && Last(s + [c]) == Last(s) + [c]
    ensures InQuote(s + [c]) == InQuote(s)
    ensures Extract(s + [c]) == Extract(s)
  {
    var p := Split(s);
    SplitSnoc(s, c);
    assert (p[..|p| - 1] + [p[|p| - 1] + [c]])[..|p| - 1] == p[..|p| - 1];
  }

  lemma InsideSnoc(ps: seq<string>, x: string)
    ensures Inside(ps + [x]) == Inside(ps) + (if |ps| % 2 == 1 && !Blank(x) then [x] else [])
  {
    assert (ps + [x])[..|ps|] == ps;
  }

  /** The loop of `get_frontend_crops`, with its `in_string` flag and `current` accumulator. */
  method ScanQuoted(arrayContent: string) returns (crops: seq<string>)
    ensures crops == Extract(arrayContent)
  {
    crops := [];
    var inString := false;
    var current := "";
    var k := 0;
    while k < |arrayContent|
      invariant 0 <= k <= |arrayContent|
      invariant inString == InQuote(arrayContent[..k])
      invariant inString ==> current == Last(arrayContent[..k])
      invariant crops == Extract(arrayContent[..k])
    {
      var c := arrayContent[k];
      assert arrayContent[..k + 1] == arrayContent[..k] + [c];
      if c == '"' {
        ExtractQuote(arrayContent[..k]);
      } else {
        ExtractOther(arrayContent[..k], c);
      }
      if c == '"' && !inString {
        inString := true;
        current := "";
      } else if c == '"' && inString {
        inString := false;
        if !Blank(current) {
          crops := crops + [current];
        }
      } else if inString {
        current := current + [c];
      }
      k := k + 1;
    }
    assert arrayContent[..k] == arrayContent;
  }

  // Properties of the reference definition

  /** Splitting on '"' and joining with '"' gives the text back. */
  lemma {:induction false} SplitJoin(s: string)
    ensures Join(Split(s), "\"") == s
    decreases |s|
  {
    if |s| > 0 {
      var t := s[..|s| - 1];
      var p := Split(t);
      SplitJoin(t);
      assert s == t + [s[|s| - 1]];
      if s[|s| - 1] == '"' {
        JoinSnoc(p, "", "\"");
      } else {
        var q := p[..|p| - 1];
        if |p| == 1 {
          assert Split(s) == [p[0] + [s[|s| - 1]]];
        } else {
          JoinSnoc(q, p[|p| - 1], "\"");
          JoinSnoc(q, p[|p| - 1] + [s[|s| - 1]], "\"");
          assert p == q + [p[|p| - 1]];
        }
      }
    }
  }

  /** No piece contains a double quote. */
  lemma {:induction false} SplitNoQuote(s: string)
    ensures forall i :: 0 <= i < |Split(s)| ==> '"' !in Split(s)[i]
    decreases |s|
  {
    if |s| > 0 {
      SplitNoQuote(s[..|s| - 1]);
    }
  }

  /** Every name `Inside` keeps is one of its pieces, at an odd position, and not blank. */
  lemma {:induction false} InsideMembers(ps: seq<string>, x: string)
    requires x in Inside(ps)
    ensures exists i :: 0 <= i < |ps| && i % 2 == 1 && ps[i] == x && !Blank(x)
    decreases |ps|
  {
    var q := ps[..|ps| - 1];
    if x in Inside(q) {
      InsideMembers(q, x);
      var i :| 0 <= i < |q| && i % 2 == 1 && q[i] == x && !Blank(x);
      assert ps[i] == x;
    } else {
      assert ps[|ps| - 1] == x;
    }
  }

  /**
   * Each extracted name is the whole text between an opening quote (an odd
   * one, counting from 1) and the quote that closes it: it contains no '"',
   * it is not blank, and it is kept untrimmed.
   */
  lemma ExtractedNames(s: string, x: string)
    requires x in Extract(s)
    ensures '"' !in x && !Blank(x)
    ensures exists i :: 0 <= i < |Split(s)| - 1 && i % 2 == 1 && Split(s)[i] == x
  {
    var ps := Split(s);
    InsideMembers(ps[..|ps| - 1], x);
    var i :| 0 <= i < |ps| - 1 && i % 2 == 1 && ps[..|ps| - 1][i] == x && !Blank(x);
    SplitNoQuote(s);
    assert ps[i] == x;
  }

  /** Text without quotes extends the last piece and nothing else. */
  lemma {:induction false} SplitNoQuoteSuffix(s: string, t: string)
    requires '"' !in t
    ensures var p := Split(s);
      Split(s + t) == p[..|p| - 1] + [p[|p| - 1] + t]
    decreases |t|
  {
    var p := Split(s);
    if |t| == 0 {
      assert s + t == s && p[|p| - 1] + t == p[|p| - 1];
      assert p[..|p| - 1] + [p[|p| - 1]] == p;
    } else {
      var u, c := t[..|t| - 1], t[|t| - 1];
      NoQuoteSplit(t);
      SplitNoQuoteSuffix(s, u);
      SnocOther(s + u, c, p[..|p| - 1], p[|p| - 1] + u);
      assert s + t == (s + u) + [c] && (p[|p| - 1] + u) + [c] == p[|p| - 1] + t by {
        assert t == u + [c];
      }
    }
  }

  lemma NoQuoteSplit(t: string)
    requires '"' !in t && |t| > 0
    ensures '"' !in t[..|t| - 1] && t[|t| - 1] != '"'
  {
    var u := t[..|t| - 1];
    forall i | 0 <= i < |u| ensures u[i] != '"' {
      assert u[i] == t[i];
    }
  }

  lemma SnocOther(s: string, c: char, init: seq<string>, last: string)
    requires Split(s) == init + [last] && c != '"'
    ensures Split(s + [c]) == init + [last + [c]]
  {
    SplitSnoc(s, c);
    var p := init + [last];
    assert p[..|p| - 1] == init;
  }

  /** A final quote that is never closed contributes nothing, whatever follows it. */
  lemma UnterminatedQuoteIgnored(s: string, t: string)
    requires !InQuote(s) && '"' !in t
    ensures Extract(s + "\"" + t) == Extract(s)
  {
    var p := Split(s);
    ExtractQuote(s);
    SplitSnoc(s, '"');
    assert s + ['"'] == s + "\"";
    SplitNoQuoteSuffix(s + "\"", t);
    var p1 := p + [""];
    assert p1[..|p1| - 1] == p;
    assert "" + t == t;
    var q := Split(s + "\"" + t);
    assert q == p + [t];
    assert q[..|q| - 1] == p;
  }

  // `get_frontend_crops`

  /** `content[start+1:end]`: the text between the array's bracket and its end. */
  function ArrayContent(content: string, marker: nat): string
    requires MatchAt(content, Marker, marker)
  {
    BracketAfterMarker(content, marker);
    var start := Find(content, "[", marker);
    Slice(content, start + 1, ArrayEnd(content, start))
  }

  /** The result `get_frontend_crops` promises for a file's contents. */
  function FrontendCrops(content: string): (crops: seq<string>)
    ensures Ascending(crops)
  {
    var marker := Find(content, Marker, 0);
    if marker == -1 then [] else SortedSet(Extract(ArrayContent(content, marker)))
  }

  method GetFrontendCrops(content: string) returns (crops: seq<string>)
    ensures crops == FrontendCrops(content)
    ensures Ascending(crops)
  {
    var start := Find(content, Marker, 0);
    if start == -1 {
      return [];
    }
    ghost var marker := start;
    BracketAfterMarker(content, start);
    start := Find(content, "[", start);
    var end := Find(content, "].sort()", start);
    if end == -1 {
      end := Find(content, "];", start);
    }
    var arrayContent := Slice(content, start + 1, end);
    assert arrayContent == ArrayContent(content, marker);
    var names := ScanQuoted(arrayContent);
    crops := SortedSet(names);
  }

  /** Without the marker there are no crops. */
  lemma NoMarkerNoCrops(content: string)
    requires forall j :: !MatchAt(content, Marker, j)
    ensures FrontendCrops(content) == []
  {
  }

  /** The result is strictly ascending and holds exactly the names extracted from the array's text. */
  lemma FrontendCropsSortedSet(content: string)
    ensures Ascending(FrontendCrops(content))
    ensures var marker := Find(content, Marker, 0);
      marker != -1 ==> Elems(FrontendCrops(content)) == Elems(Extract(ArrayContent(content, marker)))
  {
  }

  /** The array ends at the first "].sort()" when there is one; otherwise at the first "];". */
  lemma ArrayEndIsFirst(content: string, start: nat)
    ensures var e := ArrayEnd(content, start);
      && (e != -1 ==> start <= e && (MatchAt(content, "].sort()", e) || MatchAt(content, "];", e)))
      && ((exists j :: start <= j && MatchAt(content, "].sort()", j)) ==>
            MatchAt(content, "].sort()", e) && forall j :: start <= j < e ==> !MatchAt(content, "].sort()", j))
      && (e == -1 ==> forall j :: start <= j ==> !MatchAt(content, "].sort()", j) && !MatchAt(content, "];", j))
      && ((forall j :: start <= j ==> !MatchAt(content, "].sort()", j)) && e != -1 ==>
            MatchAt(content, "];", e) && forall j :: start <= j < e ==> !MatchAt(content, "];", j))
  {
  }

  /** With neither terminator present, Python's `end == -1` slice still drops the file's last character. */
  lemma MissingTerminatorDropsLastChar(content: string, marker: nat, start: nat)
    requires MatchAt(content, Marker, marker)
    requires Find(content, "[", marker) == start && ArrayEnd(content, start) == -1
    ensures ArrayContent(content, marker) == if start + 1 < |content| then content[start + 1..|content| - 1] else []
  {
    BracketAfterMarker(content, marker);
  }

  // `get_backend_crops` and the crop storage records

  /** One record of the backend's crop storage data; a missing key is `None`. */
  datatype CropRecord = CropRecord(
    name: string,
    tempMin: Option<real>,
    tempMax: Option<real>,
    humidityMin: Option<real>,
    humidityMax: Option<real>)

  /** The three checks of the data-quality tests: all bounds present, ordered, humidity within 0..100. */
  predicate ValidRecord(c: CropRecord) {
    && c.tempMin.Some? && c.tempMax.Some? && c.humidityMin.Some? && c.humidityMax.Some?
    && c.tempMin.value <= c.tempMax.value
    && c.humidityMin.value <= c.humidityMax.value
    && 0.0 <= c.humidityMin.value <= 100.0
    && 0.0 <= c.humidityMax.value <= 100.0
  }

  /** The data-quality tests' loops: `None` when every record passes, else the first failing record. */
  method FirstInvalidRecord(crops: seq<CropRecord>) returns (failure: Option<nat>)
    ensures failure == None <==> forall i :: 0 <= i < |crops| ==> ValidRecord(crops[i])
    ensures failure.Some? ==> failure.value < |crops| && !ValidRecord(crops[failure.value])
                              && forall i :: 0 <= i < failure.value ==> ValidRecord(crops[i])
  {
    var k := 0;
    while k < |crops|
      invariant 0 <= k <= |crops|
      invariant forall i :: 0 <= i < k ==> ValidRecord(crops[i])
    {
      if !ValidRecord(crops[k]) {
        return Some(k);
      }
      k := k + 1;
    }
    return None;
  }

  function Names(crops: seq<CropRecord>): (names: seq<string>)
    ensures |names| == |crops| && forall i :: 0 <= i < |crops| ==> names[i] == crops[i].name
  {
    seq(|crops|, i requires 0 <= i < |crops| => crops[i].name)
  }

  /** `get_backend_crops`: `sorted(set(c['name'] for c in crops))`. */
  function BackendCrops(crops: seq<CropRecord>): (names: seq<string>)
    ensures Ascending(names) && Elems(names) == Elems(Names(crops))
  {
    SortedSet(Names(crops))
  }

  /** `test_crops_are_identical` passes exactly when the two name sets agree. */
  lemma CropListsIdenticalIffSameNames(crops: seq<CropRecord>, content: string)
    ensures BackendCrops(crops) == FrontendCrops(content) <==> Elems(Names(crops)) == Elems(FrontendCrops(content))
  {
    FrontendCropsSortedSet(content);
    if Elems(Names(crops)) == Elems(FrontendCrops(content)) {
      AscendingUnique(BackendCrops(crops), FrontendCrops(content));
    }
  }
}
