// Choosing the mock route that answers a request (src-tauri/src/mock_server.rs): the
// segment matcher with `:param`, `*` and `**`, and the choice of the best match.
module MockRoutes {
  import opened Common
  import opened Strings

  // ---------------------------------------------------------------- segments

  // `str::split` on one character: never empty, lossless.
  function Split(s: string, c: char): (r: seq<string>)
    ensures |r| > 0
  {
    if s == [] then [[]]
    else
      var rest := Split(s[1..], c);
      if s[0] == c then [[]] + rest else [[s[0]] + rest[0]] + rest[1..]
  }

  lemma {:induction false} JoinOfSplit(s: string, c: char)
    ensures Join(Split(s, c), c) == s
  {
    if s != [] {
      JoinOfSplit(s[1..], c);
      var rest := Split(s[1..], c);
      if s[0] == c {
        assert ([[]] + rest)[1..] == rest;
      } else {
        var r := [[s[0]] + rest[0]] + rest[1..];
        assert r[1..] == rest[1..];
        assert Join(r, c) == [s[0]] + Join(rest, c);
      }
    }
  }

  predicate SeparatorFree(parts: seq<string>, c: char) {
    forall i :: 0 <= i < |parts| ==> c !in parts[i]
  }

  lemma {:induction false} SplitIsSeparatorFree(s: string, c: char)
    ensures SeparatorFree(Split(s, c), c)
  {
    if s != [] {
      SplitIsSeparatorFree(s[1..], c);
    }
  }

  lemma {:induction false} SplitAfterPiece(piece: string, rest: string, c: char)
    requires c !in piece
    ensures Split(piece, c) == [piece]
    ensures Split(piece + [c] + rest, c) == [piece] + Split(rest, c)
  {
    var text := piece + [c] + rest;
    if piece == [] {
      assert text[1..] == rest;
    } else {
      SplitAfterPiece(piece[1..], rest, c);
      assert text[1..] == piece[1..] + [c] + rest;
      assert [piece[0]] + piece[1..] == piece;
    }
  }

  lemma {:induction false} SplitOfJoin(parts: seq<string>, c: char)
    requires parts != [] && SeparatorFree(parts, c)
    ensures Split(Join(parts, c), c) == parts
  {
    if |parts| == 1 {
      SplitAfterPiece(parts[0], [], c);
    } else {
      SplitOfJoin(parts[1..], c);
      SplitAfterPiece(parts[0], Join(parts[1..], c), c);
    }
  }

  // The split of a text is the only list of separator-free pieces that joins to it.
  lemma SplitIsTheOnlyList(s: string, c: char, parts: seq<string>)
    ensures parts != [] && SeparatorFree(parts, c) && Join(parts, c) == s <==> parts == Split(s, c)
  {
    JoinOfSplit(s, c);
    SplitIsSeparatorFree(s, c);
    if parts != [] && SeparatorFree(parts, c) {
      SplitOfJoin(parts, c);
    }
  }

  // `trim_start_matches('/')`
  function TrimSlashes(s: string): string {
    if s != [] && s[0] == '/' then TrimSlashes(s[1..]) else s
  }

  function Segments(s: string): seq<string> {
    var trimmed := TrimSlashes(s);
    if trimmed == [] then [] else Split(trimmed, '/')
  }

  lemma JoinOfSegments(s: string)
    ensures Join(Segments(s), '/') == TrimSlashes(s)
  {
    JoinOfSplit(TrimSlashes(s), '/');
  }

  function PatternSegments(pattern: string): seq<string> { Segments(Split(pattern, '?')[0]) }

  // `format!("{}", n)`
  function Decimal(n: nat): string {
    (if n < 10 then [] else Decimal(n / 10)) + ["0123456789"[n % 10]]
  }

  // ---------------------------------------------------------------- when a pattern matches

  const Glob: string := "**"

  predicate IsParam(pat: string) { pat != [] && pat[0] == ':' }

  predicate SegmentMatches(pat: string, segment: string) { IsParam(pat) || pat == "*" || pat == segment }

  // Where the first `**` is, or the number of segments.
  function FirstGlob(pattern: seq<string>): (k: nat)
    ensures k <= |pattern| && (k < |pattern| ==> pattern[k] == Glob)
    ensures forall i :: 0 <= i < k ==> pattern[i] != Glob
  {
    if pattern == [] || pattern[0] == Glob then 0 else 1 + FirstGlob(pattern[1..])
  }

  // Every segment before the first `**` matches its counterpart; without a `**` nothing
  // may be left over.
  predicate Matches(pattern: seq<string>, path: seq<string>) {
    var k := FirstGlob(pattern);
    && (if k < |pattern| then k <= |path| else k == |path|)
    && forall i :: 0 <= i < k ==> SegmentMatches(pattern[i], path[i])
  }

  // The name under which the segment at position i is captured.
  function KeyAt(pattern: seq<string>, i: nat): Option<string>
    requires i < |pattern|
  {
    if pattern[i] == Glob then Some(Glob)
    else if IsParam(pattern[i]) then Some(pattern[i][1..])
    else if pattern[i] == "*" then Some("*" + Decimal(i))
    else None
  }

  // The text captured there.
  function TextAt(pattern: seq<string>, path: seq<string>, i: nat): string
    requires i < |pattern|
  {
    if i > |path| then [] else if pattern[i] == Glob then Join(path[i..], '/') else if i < |path| then path[i] else []
  }

  // The captures of the first n segments, a later one replacing an earlier of that name.
  function Captures(pattern: seq<string>, path: seq<string>, n: nat): map<string, string>
    requires n <= |pattern|
  {
    if n == 0 then map[]
    else
      var before := Captures(pattern, path, n - 1);
      var key := KeyAt(pattern, n - 1);
      if key.Some? then before[key.value := TextAt(pattern, path, n - 1)] else before
  }

  // How many segments of the pattern take part: up to and including the first `**`.
  function Used(pattern: seq<string>): (n: nat)
    ensures n <= |pattern|
  {
    var k := FirstGlob(pattern);
    if k < |pattern| then k + 1 else k
  }

  predicate MethodMatches(wanted: string, actual: string) { wanted == [] || EqIgnoreAsciiCase(wanted, actual) }

  // `match_route`
  method MatchRoute(pattern: string, wantedMethod: string, requestMethod: string, requestPath: string)
    returns (r: Option<map<string, string>>)
    ensures var pats, path := PatternSegments(pattern), Segments(requestPath);
            && (r.Some? <==> MethodMatches(wantedMethod, requestMethod) && Matches(pats, path))
            && (r.Some? ==> r.value == Captures(pats, path, Used(pats)))
  {
    if wantedMethod != [] && !EqIgnoreAsciiCase(wantedMethod, requestMethod) {
      return None;
    }
    var patterns := PatternSegments(pattern);
    var path := Segments(requestPath);
    r := MatchSegments(patterns, path);
  }

  // The two-index loop of `match_route`.
  method MatchSegments(patterns: seq<string>, path: seq<string>) returns (r: Option<map<string, string>>)
    ensures r.Some? <==> Matches(patterns, path)
    ensures r.Some? ==> r.value == Captures(patterns, path, Used(patterns))
  {
    var params: map<string, string> := map[];
    var pi, si := 0, 0;
    while pi < |patterns|
      invariant pi <= FirstGlob(patterns) && si == pi && si <= |path|
      invariant forall i :: 0 <= i < pi ==> SegmentMatches(patterns[i], path[i])
      invariant params == Captures(patterns, path, pi)
    {
      var pat := patterns[pi];
      if pat == "**" {
        params := params["**" := Join(path[si..], '/')];
        return Some(params);
      }
      assert pi < FirstGlob(patterns);
      if si >= |path| {
        return None;
      }
      if pat != [] && pat[0] == ':' {
        params := params[pat[1..] := path[si]];
      } else if pat == "*" {
        params := params["*" + Decimal(pi) := path[si]];
      } else if pat != path[si] {
        return None;
      }
      pi := pi + 1;
      si := si + 1;
    }
    if si == |path| {
      return Some(params);
    }
    return None;
  }

  // ---------------------------------------------------------------- what was captured

  // No two captures share a name.
  ghost predicate DistinctKeys(pattern: seq<string>) {
    forall i: nat, j: nat | i < j < Used(pattern) && KeyAt(pattern, i).Some? :: KeyAt(pattern, i) != KeyAt(pattern, j)
  }

  // Captures that share a name hold the same text.
  ghost predicate RepeatsAgree(pattern: seq<string>, path: seq<string>) {
    forall i: nat, j: nat
      | i < j < Used(pattern) && KeyAt(pattern, i).Some? && KeyAt(pattern, i) == KeyAt(pattern, j) ::
      TextAt(pattern, path, i) == TextAt(pattern, path, j)
  }

  // A captured name holds the text of its last position.
  lemma {:induction false} CapturesOf(pattern: seq<string>, path: seq<string>, n: nat, i: nat) returns (j: nat)
    requires i < n <= |pattern| && KeyAt(pattern, i).Some?
    ensures i <= j < n && KeyAt(pattern, j) == KeyAt(pattern, i)
    ensures KeyAt(pattern, i).value in Captures(pattern, path, n)
    ensures Captures(pattern, path, n)[KeyAt(pattern, i).value] == TextAt(pattern, path, j)
  {
    if KeyAt(pattern, n - 1) == KeyAt(pattern, i) {
      j := n - 1;
    } else {
      j := CapturesOf(pattern, path, n - 1, i);
    }
  }

  // A segment of the pattern with its capture put in; without a capture it stays as it is.
  function Filled(pattern: seq<string>, params: map<string, string>, i: nat): string
    requires i < |pattern|
  {
    var key := KeyAt(pattern, i);
    if key.Some? && key.value in params then params[key.value] else pattern[i]
  }

  function FilledSegments(pattern: seq<string>, params: map<string, string>): (r: seq<string>)
    ensures |r| == |pattern|
  {
    seq<string>(|pattern|, i requires 0 <= i < |pattern| => Filled(pattern, params, i))
  }

  // The whole pattern with all captures put in.
  function Substituted(pattern: seq<string>, params: map<string, string>): string {
    Join(FilledSegments(pattern, params), '/')
  }

  // Each segment that took part in the match is filled with its own text, exactly when
  // captures of one name agree.
  ghost predicate FilledInPlace(pattern: seq<string>, path: seq<string>) {
    var n := Used(pattern);
    FilledSegments(pattern, Captures(pattern, path, n))[..n] == Texts(pattern, path)
  }

  function Texts(pattern: seq<string>, path: seq<string>): (r: seq<string>)
    ensures |r| == Used(pattern)
  {
    seq<string>(Used(pattern), i requires 0 <= i < Used(pattern) => TextAt(pattern, path, i))
  }

  lemma TextsAre(pattern: seq<string>, path: seq<string>)
    requires Matches(pattern, path)
    ensures var k := FirstGlob(pattern);
            Texts(pattern, path) == if k < |pattern| then path[..k] + [Join(path[k..], '/')] else path
  {
    hide Join, FirstGlob, TextAt;
    var k, texts := FirstGlob(pattern), Texts(pattern, path);
    forall i: nat | i < |texts| ensures texts[i] == if i < k then path[i] else Join(path[k..], '/') {
      TextIs(pattern, path, i);
    }
    hide Matches, Texts;
    if k < |pattern| {
      assert texts == path[..k] + [Join(path[k..], '/')];
    } else {
      assert texts == path;
    }
  }

  lemma TextIs(pattern: seq<string>, path: seq<string>, i: nat)
    requires Matches(pattern, path) && i < Used(pattern)
    ensures var k := FirstGlob(pattern);
            TextAt(pattern, path, i) == if i < k then path[i] else Join(path[k..], '/')
  {
    hide Join;
  }

  lemma FilledInPlaceIffRepeatsAgree(pattern: seq<string>, path: seq<string>)
    requires Matches(pattern, path)
    ensures FilledInPlace(pattern, path) <==> RepeatsAgree(pattern, path)
  {
    hide RepeatsAgree, FilledSegments, Captures, FirstGlob, TextAt;
    var n := Used(pattern);
    var parts := FilledSegments(pattern, Captures(pattern, path, n));
    if RepeatsAgree(pattern, path) {
      forall i: nat | i < n ensures parts[..n][i] == Texts(pattern, path)[i] {
        AgreeingFill(pattern, path, i);
      }
    }
    if FilledInPlace(pattern, path) {
      forall i: nat | i < n ensures parts[i] == TextAt(pattern, path, i) {
        assert parts[..n][i] == Texts(pattern, path)[i];
      }
      FilledAgree(pattern, path);
    }
  }

  lemma AgreeingFill(pattern: seq<string>, path: seq<string>, i: nat)
    requires Matches(pattern, path) && RepeatsAgree(pattern, path) && i < Used(pattern)
    ensures FilledSegments(pattern, Captures(pattern, path, Used(pattern)))[i] == TextAt(pattern, path, i)
  {
    if KeyAt(pattern, i).Some? {
      var j := CapturesOf(pattern, path, Used(pattern), i);
    }
    hide Captures;
  }

  lemma FilledAgree(pattern: seq<string>, path: seq<string>)
    requires var parts := FilledSegments(pattern, Captures(pattern, path, Used(pattern)));
             forall i: nat | i < Used(pattern) :: parts[i] == TextAt(pattern, path, i)
    ensures RepeatsAgree(pattern, path)
  {
    var n := Used(pattern);
    forall i: nat, j: nat | i < j < n && KeyAt(pattern, i).Some? && KeyAt(pattern, i) == KeyAt(pattern, j)
      ensures TextAt(pattern, path, i) == TextAt(pattern, path, j) {
      var last := CapturesOf(pattern, path, n, i);
      hide Captures, TextAt;
    }
  }

  // The first `**` is always filled with the rest of the path.
  lemma FilledGlob(pattern: seq<string>, path: seq<string>)
    requires Matches(pattern, path) && FirstGlob(pattern) < |pattern|
    ensures var k := FirstGlob(pattern);
            Filled(pattern, Captures(pattern, path, Used(pattern)), k) == Join(path[k..], '/')
  {
    var last := CapturesOf(pattern, path, Used(pattern), FirstGlob(pattern));
  }

  // ---------------------------------------------------------------- counting slashes

  function Slashes(s: string): nat {
    if s == [] then 0 else (if s[0] == '/' then 1 else 0) + Slashes(s[1..])
  }

  lemma {:induction false} SlashesAppend(a: string, b: string)
    ensures Slashes(a + b) == Slashes(a) + Slashes(b)
  {
    if a == [] {
      assert a + b == b;
    } else {
      SlashesAppend(a[1..], b);
      DropJoined(a, b, 1);
    }
  }

  lemma {:induction false} NoSlash(s: string)
    ensures Slashes(s) == 0 <==> '/' !in s
  {
    if s != [] {
      NoSlash(s[1..]);
    }
  }

  // Slashes inside the pieces of a list.
  function Inner(parts: seq<string>): nat {
    if parts == [] then 0 else Slashes(parts[0]) + Inner(parts[1..])
  }

  lemma {:induction false} InnerAppend(a: seq<string>, b: seq<string>)
    ensures Inner(a + b) == Inner(a) + Inner(b)
  {
    if a == [] {
      assert a + b == b;
    } else {
      InnerAppend(a[1..], b);
      DropJoined(a, b, 1);
    }
  }

  lemma {:induction false} InnerOf(parts: seq<string>)
    ensures forall i :: 0 <= i < |parts| ==> Slashes(parts[i]) <= Inner(parts)
    ensures Inner(parts) == 0 <==> SeparatorFree(parts, '/')
  {
    if parts != [] {
      InnerOf(parts[1..]);
      NoSlash(parts[0]);
      assert forall i :: 0 < i < |parts| ==> parts[i] == parts[1..][i - 1];
      assert forall i :: 0 <= i < |parts[1..]| ==> parts[1..][i] == parts[i + 1];
    }
  }

  lemma {:induction false} SlashesOfJoin(parts: seq<string>)
    requires parts != []
    ensures Slashes(Join(parts, '/')) == |parts| - 1 + Inner(parts)
  {
    if |parts| > 1 {
      SlashesOfJoin(parts[1..]);
      SlashesAppend(parts[0] + ['/'], Join(parts[1..], '/'));
      SlashesAppend(parts[0], ['/']);
      assert Slashes("/") == 1;
    } else {
      assert Inner(parts[1..]) == 0;
    }
  }

  lemma SlashesOfPath(path: seq<string>)
    requires SeparatorFree(path, '/')
    ensures Slashes(Join(path, '/')) == if path == [] then 0 else |path| - 1
  {
    InnerOf(path);
    if path != [] {
      SlashesOfJoin(path);
    }
  }

  // ---------------------------------------------------------------- putting captures back

  lemma {:induction false} JoinTail(path: seq<string>, k: nat)
    requires k < |path|
    ensures Join(path[..k] + [Join(path[k..], '/')], '/') == Join(path, '/')
  {
    if k > 0 {
      JoinTail(path[1..], k - 1);
      assert path[1..][k - 1..] == path[k..];
      assert path[1..][..k - 1] == path[1..k];
      var whole := path[..k] + [Join(path[k..], '/')];
      assert whole[1..] == path[1..k] + [Join(path[k..], '/')];
      assert whole[0] == path[0];
    } else {
      assert path[..0] + [Join(path, '/')] == [Join(path, '/')];
      assert path[0..] == path;
    }
  }

  // The pattern has no `**`; or its only one is at the end, and something is left for it
  // unless it is the whole pattern.
  predicate GlobFits(pattern: seq<string>, path: seq<string>) {
    var k := FirstGlob(pattern);
    k == |pattern| || (k == |pattern| - 1 && (k == 0 || k < |path|))
  }

  // Otherwise the filled pattern has more slashes than the path.
  lemma UnfitGlobAddsSlashes(pattern: seq<string>, path: seq<string>)
    requires Matches(pattern, path) && SeparatorFree(path, '/') && !GlobFits(pattern, path)
    ensures Slashes(Substituted(pattern, Captures(pattern, path, Used(pattern)))) > Slashes(Join(path, '/'))
  {
    var k, params := FirstGlob(pattern), Captures(pattern, path, Used(pattern));
    var parts := FilledSegments(pattern, params);
    FilledGlob(pattern, path);
    assert parts[k] == Join(path[k..], '/');
    hide Captures, KeyAt, Matches, FilledSegments, Filled;
    SlashesOfJoin(parts);
    InnerOf(parts);
    SlashesOfPath(path);
    SlashesOfPath(path[k..]);
  }

  lemma FilledWithoutGlob(pattern: seq<string>, path: seq<string>)
    requires Matches(pattern, path) && SeparatorFree(path, '/') && FirstGlob(pattern) == |pattern|
    ensures Substituted(pattern, Captures(pattern, path, Used(pattern))) == Join(path, '/')
            <==> FilledInPlace(pattern, path)
  {
    var params := Captures(pattern, path, |pattern|);
    var parts := FilledSegments(pattern, params);
    forall i: nat | i < |pattern| ensures '/' !in parts[i] {
      if KeyAt(pattern, i).Some? {
        var j := CapturesOf(pattern, path, |pattern|, i);
      }
    }
    TextsAre(pattern, path);
    assert parts[..|pattern|] == parts;
    hide Captures, KeyAt, FirstGlob, FilledInPlace, Filled, FilledSegments;
    if path != [] && Join(parts, '/') == Join(path, '/') {
      SplitOfJoin(parts, '/');
      SplitOfJoin(path, '/');
    }
  }

  lemma FilledWithGlob(pattern: seq<string>, path: seq<string>)
    requires Matches(pattern, path) && SeparatorFree(path, '/')
    requires FirstGlob(pattern) == |pattern| - 1 && FirstGlob(pattern) < |path|
    ensures Substituted(pattern, Captures(pattern, path, Used(pattern))) == Join(path, '/')
            <==> FilledInPlace(pattern, path)
  {
    var k, params := FirstGlob(pattern), Captures(pattern, path, Used(pattern));
    var parts := FilledSegments(pattern, params);
    FilledGlob(pattern, path);
    assert parts[k] == Join(path[k..], '/');
    TextsAre(pattern, path);
    hide Captures, FirstGlob, Matches, FilledSegments, Texts, Join;
    assert parts[..k + 1] == parts;
    assert parts == parts[..k] + [Join(path[k..], '/')];
    assert parts[..k] == path[..k] <==> parts == path[..k] + [Join(path[k..], '/')];
    HeadDecides(parts[..k], path);
  }

  // A list that ends with the rest of the path joins to the path only if it begins as the
  // path does: no slash is left over that could hide in an earlier piece.
  lemma HeadDecides(head: seq<string>, path: seq<string>)
    requires |head| < |path| && SeparatorFree(path, '/')
    ensures Join(head + [Join(path[|head|..], '/')], '/') == Join(path, '/') <==> head == path[..|head|]
  {
    var k := |head|;
    var rest := Join(path[k..], '/');
    var parts := head + [rest];
    JoinTail(path, k);
    if Join(parts, '/') == Join(path, '/') {
      SlashesOfJoin(parts);
      SlashesOfPath(path);
      SlashesOfPath(path[k..]);
      InnerAppend(head, [rest]);
      assert Inner([rest]) == Slashes(rest) by {
        assert Inner([rest][1..]) == 0;
      }
      InnerOf(head);
      var whole := head + path[k..];
      assert whole[..k] == head && whole[k..] == path[k..];
      JoinTail(whole, k);
      SplitOfJoin(whole, '/');
      SplitOfJoin(path, '/');
    }
  }

  lemma SegmentsAreSeparatorFree(s: string)
    ensures SeparatorFree(Segments(s), '/')
  {
    SplitIsSeparatorFree(TrimSlashes(s), '/');
  }

  // Putting the captures back into the whole pattern gives the request path if and only
  // if captures that share a name agree and the pattern has no `**`, or only one, at its
  // end, that was given something or is the whole pattern. With distinct names only the
  // second matters.
  lemma SubstitutionGivesThePath(pattern: string, requestPath: string)
    requires Matches(PatternSegments(pattern), Segments(requestPath))
    ensures var pats, path := PatternSegments(pattern), Segments(requestPath);
            var filled := Substituted(pats, Captures(pats, path, Used(pats)));
            && (filled == TrimSlashes(requestPath) <==> GlobFits(pats, path) && RepeatsAgree(pats, path))
            && (DistinctKeys(pats) ==> (filled == TrimSlashes(requestPath) <==> GlobFits(pats, path)))
  {
    var pats, path := PatternSegments(pattern), Segments(requestPath);
    JoinOfSegments(requestPath);
    SegmentsAreSeparatorFree(requestPath);
    FilledInPlaceIffRepeatsAgree(pats, path);
    var k := FirstGlob(pats);
    hide Substituted, Captures, FilledInPlace, Segments, PatternSegments, KeyAt;
    if !GlobFits(pats, path) {
      UnfitGlobAddsSlashes(pats, path);
    } else if k == |pats| {
      FilledWithoutGlob(pats, path);
    } else if k < |path| {
      FilledWithGlob(pats, path);
    } else {
      GlobAlone(pats);
    }
  }

  // The pattern `**` against the empty path.
  lemma GlobAlone(pattern: seq<string>)
    requires FirstGlob(pattern) == 0 && |pattern| == 1
    ensures Substituted(pattern, Captures(pattern, [], Used(pattern))) == Join([], '/')
    ensures RepeatsAgree(pattern, [])
  {
    FilledGlob(pattern, []);
  }

  // ---------------------------------------------------------------- two ways to fail

  lemma PatternOf(text: string, parts: seq<string>)
    requires text != [] && text[0] == '/' && '?' !in text
    requires parts != [] && parts[0] != [] && SeparatorFree(parts, '/') && text[1..] == Join(parts, '/')
    ensures Segments(text) == parts && PatternSegments(text) == parts
  {
    var rest := text[1..];
    assert rest != [] && rest[0] == parts[0][0] != '/';
    assert TrimSlashes(rest) == rest && TrimSlashes(text) == rest;
    SplitOfJoin(parts, '/');
    SplitAfterPiece(text, [], '?');
    assert Split(text, '?')[0] == text;
    hide Split, TrimSlashes;
  }

  // `/a/**` against `/a`: the empty capture leaves a slash behind.
  lemma SubstitutionCanAddASlash()
    ensures Matches(PatternSegments("/a/**"), Segments("/a")) && DistinctKeys(PatternSegments("/a/**"))
    ensures var pats, path := PatternSegments("/a/**"), Segments("/a");
            Captures(pats, path, Used(pats)) == map[Glob := ""] && Substituted(pats, map[Glob := ""]) == "a/"
  {
    JoinOfTwo("a", Glob);
    assert Join(["a"], '/') == "a";
    hide Join, Segments, PatternSegments, Captures, Substituted, Matches, DistinctKeys;
    PatternOf("/a/**", ["a", Glob]);
    PatternOf("/a", ["a"]);
    EmptyGlob();
  }

  lemma EmptyGlob()
    ensures var pats, path := ["a", Glob], ["a"];
            && Matches(pats, path) && DistinctKeys(pats)
            && Captures(pats, path, Used(pats)) == map[Glob := ""] && Substituted(pats, map[Glob := ""]) == "a/"
  {
    var pats, path := ["a", Glob], ["a"];
    assert pats[1..] == [Glob] && path[1..] == [] && FirstGlob(pats[1..]) == 0;
    assert FirstGlob(pats) == 1;
    hide FirstGlob;
    assert Captures(pats, path, 1) == Captures(pats, path, 0) == map[];
    assert FilledSegments(pats, map[Glob := ""]) == ["a", ""];
    JoinOfTwo("a", "");
  }

  // `/a/**/b` against `/a/x`: the match ends at the `**`, and what follows it in the
  // pattern was never compared with anything.
  lemma SubstitutionCanAddSegments()
    ensures Matches(PatternSegments("/a/**/b"), Segments("/a/x")) && DistinctKeys(PatternSegments("/a/**/b"))
    ensures var pats, path := PatternSegments("/a/**/b"), Segments("/a/x");
            Captures(pats, path, Used(pats)) == map[Glob := "x"] && Substituted(pats, map[Glob := "x"]) == "a/x/b"
  {
    JoinOfThree("a", Glob, "b");
    JoinOfTwo("a", "x");
    hide Join, Segments, PatternSegments, Captures, Substituted, Matches, DistinctKeys;
    PatternOf("/a/**/b", ["a", Glob, "b"]);
    PatternOf("/a/x", ["a", "x"]);
    GlobThenSegment();
  }

  lemma GlobThenSegment()
    ensures var pats, path := ["a", Glob, "b"], ["a", "x"];
            && Matches(pats, path) && DistinctKeys(pats)
            && Captures(pats, path, Used(pats)) == map[Glob := "x"] && Substituted(pats, map[Glob := "x"]) == "a/x/b"
  {
    var pats, path := ["a", Glob, "b"], ["a", "x"];
    assert pats[1..] == [Glob, "b"] && path[1..] == ["x"] && FirstGlob(pats[1..]) == 0;
    assert FirstGlob(pats) == 1;
    hide FirstGlob;
    assert Join(["x"], '/') == "x";
    assert Captures(pats, path, 1) == Captures(pats, path, 0) == map[];
    assert FilledSegments(pats, map[Glob := "x"]) == ["a", "x", "b"];
    JoinOfThree("a", "x", "b");
  }

  lemma JoinOfTwo(a: string, b: string)
    ensures Join([a, b], '/') == a + "/" + b
  {
    assert [a, b][1..] == [b] && Join([b], '/') == b;
  }

  lemma JoinOfThree(a: string, b: string, c: string)
    ensures Join([a, b, c], '/') == a + "/" + (b + "/" + c)
  {
    assert [a, b, c][1..] == [b, c];
    JoinOfTwo(b, c);
  }

  // ---------------------------------------------------------------- the best match

  datatype MockRoute = MockRoute(id: string, httpMethod: Option<string>, pattern: string, priority: int, enabled: bool)

  datatype RouteMatch = RouteMatch(routeId: string, params: map<string, string>)

  predicate IsExact(segment: string) { !IsParam(segment) && segment != "*" && segment != Glob }

  function CountExact(segments: seq<string>): nat {
    if segments == [] then 0 else (if IsExact(segments[0]) then 1 else 0) + CountExact(segments[1..])
  }

  function Specificity(route: MockRoute): nat { CountExact(Split(route.pattern, '/')) }

  predicate Answers(route: MockRoute, requestMethod: string, requestPath: string) {
    && route.enabled
    && MethodMatches(if route.httpMethod.Some? then route.httpMethod.value else [], requestMethod)
    && Matches(PatternSegments(route.pattern), Segments(requestPath))
  }

  function MatchOf(route: MockRoute, requestMethod: string, requestPath: string): RouteMatch
  {
    var pats, path := PatternSegments(route.pattern), Segments(requestPath);
    RouteMatch(route.id, Captures(pats, path, Used(pats)))
  }

  predicate Better(a: MockRoute, b: MockRoute) {
    a.priority > b.priority || (a.priority == b.priority && Specificity(a) > Specificity(b))
  }

  // Route k answers; no route answers better, and none before it answers as well.
  ghost predicate IsBest(routes: seq<MockRoute>, requestMethod: string, requestPath: string, k: nat)
    requires k < |routes|
  {
    && Answers(routes[k], requestMethod, requestPath)
    && (forall j: nat | j < |routes| && Answers(routes[j], requestMethod, requestPath) :: !Better(routes[j], routes[k]))
    && (forall j: nat | j < k && Answers(routes[j], requestMethod, requestPath) :: Better(routes[k], routes[j]))
  }

  lemma BestIsUnique(routes: seq<MockRoute>, requestMethod: string, requestPath: string, a: nat, b: nat)
    requires a < |routes| && b < |routes|
    requires IsBest(routes, requestMethod, requestPath, a) && IsBest(routes, requestMethod, requestPath, b)
    ensures a == b
  {}

  // `find_best_match`
  method FindBestMatch(routes: seq<MockRoute>, requestMethod: string, requestPath: string)
      returns (r: Option<RouteMatch>)
    ensures r.None? ==> forall j :: 0 <= j < |routes| ==> !Answers(routes[j], requestMethod, requestPath)
    ensures r.Some? ==>
      exists k: nat :: k < |routes| && IsBest(routes, requestMethod, requestPath, k)
        && r.value == MatchOf(routes[k], requestMethod, requestPath)
  {
    hide Matches, Captures, Segments, PatternSegments, Specificity, MethodMatches, Used;
    var best: Option<(int, RouteMatch, nat)> := None;
    ghost var at: nat := 0;
    var i := 0;
    while i < |routes|
      invariant i <= |routes|
      invariant best.None? ==> forall j :: 0 <= j < i ==> !Answers(routes[j], requestMethod, requestPath)
      invariant best.Some? ==> at < i && IsBest(routes[..i], requestMethod, requestPath, at)
      invariant best.Some? ==>
                  var route := routes[at];
                  best.value == (route.priority, MatchOf(route, requestMethod, requestPath), Specificity(route))
    {
      var route := routes[i];
      if route.enabled {
        var wanted := if route.httpMethod.Some? then route.httpMethod.value else [];
        var params := MatchRoute(route.pattern, wanted, requestMethod, requestPath);
        if params.Some? {
          var specificity := Specificity(route);
          var replace :=
            if best.None? then true
            else if route.priority != best.value.0 then route.priority > best.value.0
            else specificity > best.value.2;
          if replace {
            best := Some((route.priority, RouteMatch(route.id, params.value), specificity));
            at := i;
          }
        }
      }
      i := i + 1;
    }
    assert routes[..i] == routes;
    r := if best.Some? then Some(best.value.1) else None;
  }
}
