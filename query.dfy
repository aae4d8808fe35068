/**
 * The Overpass query and URL builder of the layer: comment stripping, substitution of the
 * `{{bbox}}` placeholder and the interpreter URL. Coordinates arrive already formatted as strings.
 */
module Query {
  import opened Wrappers

  /** The placeholder the query template uses for the request bounds. */
  const Placeholder: string := "{{bbox}}"

  /** What the URL builder puts between the end point and the query. */
  const InterpreterPath: string := "interpreter?data=[out:json];"

  /** The four corner coordinates of a request, formatted as the request will carry them. */
  datatype Corners = Corners(swLat: string, swLng: string, neLat: string, neLng: string)

  predicate StartsWith(s: string, p: string) {
    |p| <= |s| && s[..|p|] == p
  }

  /** `p` occurs somewhere in `s`. */
  predicate Contains(s: string, p: string) {
    exists i :: 0 <= i <= |s| && StartsWith(s[i..], p)
  }

  /** The characters a JavaScript `.` does not match. */
  predicate IsLineTerminator(c: char) {
    c == '\n' || c == '\r' || c == '\U{2028}' || c == '\U{2029}'
  }

  /** What is left of `s` from its first line terminator on. */
  function SkipLine(s: string): (r: string)
    ensures |r| <= |s| && r == s[|s| - |r|..]
    ensures r == [] || IsLineTerminator(r[0])
    ensures s != [] && !IsLineTerminator(s[0]) ==> |r| < |s|
  {
    if s == [] || IsLineTerminator(s[0]) then s else SkipLine(s[1..])
  }

  /** Every `//` up to the end of its line removed, as `replace(/(\/\/.*)/g, '')` does. */
  function StripComments(s: string): string
    decreases |s|
  {
    if s == [] then []
    else if StartsWith(s, "//") then StripComments(SkipLine(s))
    else [s[0]] + StripComments(s[1..])
  }

  /** Every `{{bbox}}`, taken from left to right, replaced by `coords`. */
  function ReplaceBbox(s: string, coords: string): string
    decreases |s|
  {
    if s == [] then []
    else if StartsWith(s, Placeholder) then coords + ReplaceBbox(s[|Placeholder|..], coords)
    else [s[0]] + ReplaceBbox(s[1..], coords)
  }

  /** `[sw.lat, sw.lng, ne.lat, ne.lng].join(',')`. */
  function Coordinates(c: Corners): string {
    c.swLat + "," + c.swLng + "," + c.neLat + "," + c.neLng
  }

  /** `_buildOverpassQueryFromQueryAndBounds`: comments go first, then the placeholders. */
  function BuildQuery(query: string, c: Corners): string {
    ReplaceBbox(StripComments(query), Coordinates(c))
  }

  /** `_buildOverpassUrlFromEndPointAndQuery`. */
  function BuildUrl(endPoint: string, query: string): string {
    endPoint + InterpreterPath + query
  }

  /** The query a URL built for `endPoint` carries, if it is one. */
  function QueryOfUrl(endPoint: string, url: string): Option<string> {
    var prefix := endPoint + InterpreterPath;
    if StartsWith(url, prefix) then Some(url[|prefix|..]) else None
  }

  // ----- the URL -----

  /** The URL builder and `QueryOfUrl` are inverse to each other. */
  lemma {:induction false} UrlRoundTrip(endPoint: string, query: string, url: string)
    ensures QueryOfUrl(endPoint, BuildUrl(endPoint, query)) == Some(query)
    ensures QueryOfUrl(endPoint, url) == Some(query) ==> BuildUrl(endPoint, query) == url
  {
    var prefix := endPoint + InterpreterPath;
    assert BuildUrl(endPoint, query) == prefix + query;
    assert (prefix + query)[..|prefix|] == prefix;
    assert (prefix + query)[|prefix|..] == query;
    if QueryOfUrl(endPoint, url) == Some(query) {
      assert url == url[..|prefix|] + url[|prefix|..];
    }
  }

  // ----- occurrences -----

  /** How a prefix test splits over a first character. */
  lemma {:induction false} ConsStartsWith(c: char, s: string, p: string)
    ensures StartsWith([c] + s, p) <==> p == [] || (p[0] == c && StartsWith(s, p[1..]))
  {
    if p != [] && |p| <= |s| + 1 {
      assert ([c] + s)[..|p|] == [c] + s[..|p| - 1];
      assert p == [p[0]] + p[1..];
    }
  }

  lemma {:induction false} ContainsShift(c: char, s: string, p: string)
    requires p != [] && !Contains(s, p) && !StartsWith([c] + s, p)
    ensures !Contains([c] + s, p)
  {
    var t := [c] + s;
    forall i | 0 <= i <= |t| ensures !StartsWith(t[i..], p) {
      if i > 0 { assert t[i..] == s[i - 1..]; }
    }
  }

  lemma {:induction false} ContainsSuffix(s: string, k: nat, p: string)
    requires k <= |s| && !Contains(s, p)
    ensures !Contains(s[k..], p)
  {
    forall i | 0 <= i <= |s[k..]| ensures !StartsWith(s[k..][i..], p) {
      assert s[k..][i..] == s[k + i..];
    }
  }

  lemma {:induction false} ContainsInfix(a: string, b: string, p: string)
    requires !Contains(a + b, p)
    ensures !Contains(a, p) && !Contains(b, p)
  {
    forall i | 0 <= i <= |a| ensures !StartsWith(a[i..], p) {
      assert (a + b)[i..] == a[i..] + b;
      assert |p| <= |a[i..]| ==> (a[i..] + b)[..|p|] == a[i..][..|p|];
    }
    ContainsSuffix(a + b, |a|, p);
    assert (a + b)[|a|..] == b;
  }

  // ----- comments -----

  /** Stripping what starts at a line terminator keeps the terminator in front. */
  lemma {:induction false} StripCommentsAtTerminator(u: string)
    requires u == [] || IsLineTerminator(u[0])
    ensures StripComments(u) == [] || IsLineTerminator(StripComments(u)[0])
  {
    if u != [] {
      assert !StartsWith(u, "//");
      assert StripComments(u) == [u[0]] + StripComments(u[1..]);
    }
  }

  /** A stripped template starts with a `/` only where the template started with one that was kept. */
  lemma {:induction false} StripCommentsHead(s: string)
    ensures StripComments(s) != [] && StripComments(s)[0] == '/' ==> s != [] && s[0] == '/' && !StartsWith(s, "//")
  {
    if s == [] {
    } else if StartsWith(s, "//") {
      StripCommentsAtTerminator(SkipLine(s));
    } else {
      assert StripComments(s) == [s[0]] + StripComments(s[1..]);
    }
  }

  /** A template that does not start with `//` does not after stripping either. */
  lemma {:induction false} StripCommentsKeepsNoHead(s: string)
    requires s != [] && !StartsWith(s, "//")
    ensures !StartsWith([s[0]] + StripComments(s[1..]), "//")
  {
    var t := StripComments(s[1..]);
    StripCommentsHead(s[1..]);
    ConsStartsWith(s[0], t, "//");
    ConsStartsWith(s[0], s[1..], "//");
    assert "//"[1..] == "/";
    assert StartsWith(t, "/") ==> t[0] == '/';
    assert StartsWith(s[1..], "/") <== s[1..] != [] && s[1..][0] == '/';
  }

  /** No `//` survives comment stripping. */
  lemma {:induction false} StripCommentsLeavesNoComment(s: string)
    ensures !Contains(StripComments(s), "//")
    decreases |s|
  {
    if s == [] {
    } else if StartsWith(s, "//") {
      StripCommentsLeavesNoComment(SkipLine(s));
    } else {
      StripCommentsLeavesNoComment(s[1..]);
      StripCommentsKeepsNoHead(s);
      assert StripComments(s) == [s[0]] + StripComments(s[1..]);
      ContainsShift(s[0], StripComments(s[1..]), "//");
    }
  }

  /** A template without `//` is left as it is. */
  lemma {:induction false} StripCommentsIdentity(s: string)
    requires !Contains(s, "//")
    ensures StripComments(s) == s
    decreases |s|
  {
    if s != [] {
      assert s[0..] == s;
      assert !StartsWith(s[0..], "//");
      ContainsSuffix(s, 1, "//");
      StripCommentsIdentity(s[1..]);
    }
  }

  // ----- placeholders -----

  /** A template without a placeholder is left as it is. */
  lemma {:induction false} ReplaceBboxIdentity(s: string, coords: string)
    requires !Contains(s, Placeholder)
    ensures ReplaceBbox(s, coords) == s
    decreases |s|
  {
    if s != [] {
      assert s[0..] == s;
      assert !StartsWith(s[0..], Placeholder);
      ContainsSuffix(s, 1, Placeholder);
      ReplaceBboxIdentity(s[1..], coords);
    }
  }

  /** No proper suffix of the placeholder is also a prefix of it, so matches never overlap. */
  lemma {:induction false} PlaceholderHasNoBorder(a: string, b: string)
    requires 0 < |a| < |Placeholder|
    ensures !StartsWith(a + Placeholder + b, Placeholder)
  {
    var t := a + Placeholder + b;
    assert t[|a|] == '{' && t[|a| + 1] == '{';
    assert Placeholder[2] != '{' && Placeholder[3] != '{' && Placeholder[4] != '{';
    assert Placeholder[5] != '{' && Placeholder[6] != '{' && Placeholder[7] != '{';
    assert forall k :: 0 <= k < |Placeholder| ==> t[..|Placeholder|][k] == t[k];
  }

  /** Each placeholder of a template becomes the coordinates, whatever surrounds it. */
  lemma {:induction false} ReplaceBboxSplit(a: string, b: string, coords: string)
    ensures ReplaceBbox(a + Placeholder + b, coords) == ReplaceBbox(a, coords) + coords + ReplaceBbox(b, coords)
    decreases |a|
  {
    var n := |Placeholder|;
    var t := a + Placeholder + b;
    if a == [] {
      assert t == Placeholder + b;
      assert t[n..] == b;
    } else if StartsWith(a, Placeholder) {
      assert t[..n] == a[..n];
      assert t[n..] == a[n..] + Placeholder + b;
      ReplaceBboxSplit(a[n..], b, coords);
    } else {
      if |a| < n {
        PlaceholderHasNoBorder(a, b);
      } else {
        assert t[..n] == a[..n];
      }
      assert t[1..] == a[1..] + Placeholder + b;
      ReplaceBboxSplit(a[1..], b, coords);
    }
  }

  /** When no character of `q` occurs in a non-empty `coords`, output starting with `q` comes from input starting with `q`. */
  lemma {:induction false} ReplaceBboxHead(s: string, coords: string, q: string)
    requires coords != []
    requires forall k :: 0 <= k < |q| ==> q[k] !in coords
    ensures StartsWith(ReplaceBbox(s, coords), q) ==> StartsWith(s, q)
    decreases |s|
  {
    if q != [] && s != [] {
      var r := ReplaceBbox(s, coords);
      if StartsWith(s, Placeholder) {
        assert r == [coords[0]] + (coords[1..] + ReplaceBbox(s[|Placeholder|..], coords));
        ConsStartsWith(coords[0], coords[1..] + ReplaceBbox(s[|Placeholder|..], coords), q);
      } else {
        assert r == [s[0]] + ReplaceBbox(s[1..], coords);
        ConsStartsWith(s[0], ReplaceBbox(s[1..], coords), q);
        ReplaceBboxHead(s[1..], coords, q[1..]);
        assert s == [s[0]] + s[1..];
        ConsStartsWith(s[0], s[1..], q);
      }
    }
  }

  /** Coordinates made of characters foreign to the placeholder leave no placeholder behind. */
  lemma {:induction false} ReplaceBboxLeavesNoPlaceholder(s: string, coords: string)
    requires coords != []
    requires forall k :: 0 <= k < |coords| ==> coords[k] !in Placeholder
    ensures !Contains(ReplaceBbox(s, coords), Placeholder)
    decreases |s|
  {
    var r := ReplaceBbox(s, coords);
    if s == [] {
    } else if StartsWith(s, Placeholder) {
      var rest := ReplaceBbox(s[|Placeholder|..], coords);
      ReplaceBboxLeavesNoPlaceholder(s[|Placeholder|..], coords);
      assert r == coords + rest;
      forall i | 0 <= i <= |r| ensures !StartsWith(r[i..], Placeholder) {
        if i < |coords| {
          assert r[i..][0] == coords[i];
        } else {
          assert r[i..] == rest[i - |coords|..];
        }
      }
    } else {
      var rest := ReplaceBbox(s[1..], coords);
      var q := Placeholder[1..];
      ReplaceBboxLeavesNoPlaceholder(s[1..], coords);
      assert r == [s[0]] + rest;
      assert s == [s[0]] + s[1..];
      assert forall k :: 0 <= k < |q| ==> q[k] in Placeholder;
      ReplaceBboxHead(s[1..], coords, q);
      ConsStartsWith(s[0], rest, Placeholder);
      ConsStartsWith(s[0], s[1..], Placeholder);
      ContainsShift(s[0], rest, Placeholder);
    }
  }

  /** Non-empty coordinates without a `/` do not bring a `//` into a template that had none. */
  lemma {:induction false} ReplaceBboxKeepsNoComment(s: string, coords: string)
    requires coords != [] && '/' !in coords
    requires !Contains(s, "//")
    ensures !Contains(ReplaceBbox(s, coords), "//")
    decreases |s|
  {
    var r := ReplaceBbox(s, coords);
    if s == [] {
    } else if StartsWith(s, Placeholder) {
      var rest := ReplaceBbox(s[|Placeholder|..], coords);
      ContainsSuffix(s, |Placeholder|, "//");
      ReplaceBboxKeepsNoComment(s[|Placeholder|..], coords);
      assert r == coords + rest;
      forall i | 0 <= i <= |r| ensures !StartsWith(r[i..], "//") {
        if i < |coords| {
          assert r[i..][0] == coords[i];
        } else {
          assert r[i..] == rest[i - |coords|..];
        }
      }
    } else {
      var rest := ReplaceBbox(s[1..], coords);
      ContainsSuffix(s, 1, "//");
      ReplaceBboxKeepsNoComment(s[1..], coords);
      assert r == [s[0]] + rest;
      assert s == [s[0]] + s[1..];
      assert s[0..] == s;
      assert !StartsWith(s[0..], "//");
      ReplaceBboxHead(s[1..], coords, "/");
      ConsStartsWith(s[0], rest, "//");
      ConsStartsWith(s[0], s[1..], "//");
      ContainsShift(s[0], rest, "//");
    }
  }

  // ----- the query builder -----

  /** The characters no formatted coordinate may contain for the query to come out clean. */
  predicate IsPlainCoordinate(s: string) {
    forall k :: 0 <= k < |s| ==> s[k] !in "{}box/"
  }

  /** The built query holds no placeholder and no `//`, whatever the template. */
  lemma {:induction false} BuildQueryIsClean(query: string, c: Corners)
    requires IsPlainCoordinate(c.swLat) && IsPlainCoordinate(c.swLng)
    requires IsPlainCoordinate(c.neLat) && IsPlainCoordinate(c.neLng)
    ensures !Contains(BuildQuery(query, c), Placeholder)
    ensures !Contains(BuildQuery(query, c), "//")
  {
    var coords := Coordinates(c);
    assert coords[|c.swLat|] == ',';
    forall k | 0 <= k < |coords| ensures coords[k] !in Placeholder && coords[k] != '/' {
      var a, b, d := |c.swLat|, |c.swLng|, |c.neLat|;
      if k < a { assert coords[k] == c.swLat[k]; }
      else if k == a { }
      else if k < a + 1 + b { assert coords[k] == c.swLng[k - a - 1]; }
      else if k == a + 1 + b { }
      else if k < a + 2 + b + d { assert coords[k] == c.neLat[k - a - 2 - b]; }
      else if k == a + 2 + b + d { }
      else { assert coords[k] == c.neLng[k - a - 3 - b - d]; }
    }
    StripCommentsLeavesNoComment(query);
    ReplaceBboxLeavesNoPlaceholder(StripComments(query), coords);
    ReplaceBboxKeepsNoComment(StripComments(query), coords);
  }

  /** A template with neither a placeholder nor a `//` comes back unchanged. */
  lemma {:induction false} BuildQueryIdentity(query: string, c: Corners)
    requires !Contains(query, Placeholder) && !Contains(query, "//")
    ensures BuildQuery(query, c) == query
  {
    StripCommentsIdentity(query);
    ReplaceBboxIdentity(query, Coordinates(c));
  }

  /** In a template without comments every placeholder becomes `swLat,swLng,neLat,neLng`. */
  lemma {:induction false} BuildQuerySubstitutes(a: string, b: string, c: Corners)
    requires !Contains(a + Placeholder + b, "//")
    ensures BuildQuery(a + Placeholder + b, c)
         == BuildQuery(a, c) + c.swLat + "," + c.swLng + "," + c.neLat + "," + c.neLng + BuildQuery(b, c)
  {
    ContainsInfix(a + Placeholder, b, "//");
    ContainsInfix(a, Placeholder, "//");
    StripCommentsIdentity(a + Placeholder + b);
    StripCommentsIdentity(a);
    StripCommentsIdentity(b);
    ReplaceBboxSplit(a, b, Coordinates(c));
  }
}
