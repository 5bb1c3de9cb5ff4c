// Quoting and parsing the parameters of a Digest challenge (src-tauri/src/commands.rs):
// `key="escaped"` lists, the quote-aware split, and the whole of a 401 response.
module Digest {
  import opened Common
  import opened Strings

  // ---------------------------------------------------------------- printing

  // `str::replace` of one character
  function Replace(s: string, c: char, with: string): string {
    if s == [] then [] else (if s[0] == c then with else [s[0]]) + Replace(s[1..], c, with)
  }

  predicate HasControl(s: string) { exists i :: 0 <= i < |s| && IsControl(s[i]) }

  // `digest_quoted_value`
  function QuotedValue(value: string): Option<string> {
    if HasControl(value) then None
    else Some(Replace(Replace(value, '\\', "\\\\"), '\"', "\\\""))
  }

  // Quotes and backslashes each behind a backslash.
  function Escape(s: string): string {
    if s == [] then []
    else (if s[0] == '\\' || s[0] == '\"' then ['\\', s[0]] else [s[0]]) + Escape(s[1..])
  }

  lemma ReplaceFirst(s: string, c: char, with: string)
    requires s != []
    ensures Replace(s, c, with) == (if s[0] == c then with else [s[0]]) + Replace(s[1..], c, with)
  {}

  lemma {:induction false} ReplaceAppend(a: string, b: string, c: char, with: string)
    ensures Replace(a + b, c, with) == Replace(a, c, with) + Replace(b, c, with)
  {
    if a == [] {
      assert a + b == b;
    } else {
      ReplaceAppend(a[1..], b, c, with);
      hide Replace;
      ReplaceFirst(a, c, with);
      ReplaceFirst(a + b, c, with);
      DropJoined(a, b, 1);
      JoinAssociates(if a[0] == c then with else [a[0]], Replace(a[1..], c, with), Replace(b, c, with));
    }
  }

  // The two replacements, one after the other, escape every character once.
  lemma {:induction false} ReplacingIsEscaping(value: string)
    ensures Replace(Replace(value, '\\', "\\\\"), '\"', "\\\"") == Escape(value)
  {
    if value != [] {
      ReplacingIsEscaping(value[1..]);
      var head := if value[0] == '\\' then "\\\\" else [value[0]];
      ReplaceAppend(head, Replace(value[1..], '\\', "\\\\"), '\"', "\\\"");
      assert [value[0]][1..] == [];
      assert "\\\\"[1..] == "\\" && "\\"[1..] == [];
      assert Replace("\\", '\"', "\\\"") == "\\";
    }
  }

  // ---------------------------------------------------------------- reading quotes

  // Where a scan from the left is with respect to a quoted string.
  datatype Quote = Outside | Inside | Escaped

  function Next(q: Quote, c: char): Quote {
    match q
    case Outside => if c == '\"' then Inside else Outside
    case Inside => if c == '\\' then Escaped else if c == '\"' then Outside else Inside
    case Escaped => Inside
  }

  function Run(q: Quote, s: string): Quote
    decreases s
  {
    if s == [] then q else Run(Next(q, s[0]), s[1..])
  }

  // A separator counts outside quotes; a quote is never one.
  predicate Cuts(q: Quote, c: char, sep: char) { q.Outside? && c == sep && c != '\"' }

  predicate Uncut(s: string, sep: char, q: Quote) {
    s == [] || (!Cuts(q, s[0], sep) && Uncut(s[1..], sep, Next(q, s[0])))
  }

  function Prepend(c: string, parts: seq<string>): (r: seq<string>)
    requires parts != []
    ensures |r| == |parts|
  {
    [c + parts[0]] + parts[1..]
  }

  function Split(s: string, sep: char, q: Quote): (r: seq<string>)
    ensures r != []
  {
    if s == [] then [[]]
    else
      var rest := Split(s[1..], sep, Next(q, s[0]));
      if Cuts(q, s[0], sep) then [[]] + rest else Prepend([s[0]], rest)
  }

  function QuoteOf(inQuotes: bool, escaped: bool): Quote {
    if !inQuotes then Outside else if escaped then Escaped else Inside
  }

  lemma PrependTwice(a: string, b: string, parts: seq<string>)
    requires parts != []
    ensures Prepend(a, Prepend(b, parts)) == Prepend(a + b, parts)
    ensures Prepend([], parts) == parts
  {
    assert a + (b + parts[0]) == a + b + parts[0] && [] + parts[0] == parts[0];
    assert Prepend(b, parts)[1..] == parts[1..];
  }

  // One character of the split, with what was read of the current piece before it.
  lemma SplitStep(current: string, s: string, sep: char, q: Quote)
    requires s != []
    ensures Prepend(current, Split(s, sep, q)) ==
              if Cuts(q, s[0], sep) then [current] + Prepend([], Split(s[1..], sep, Outside))
              else Prepend(current + [s[0]], Split(s[1..], sep, Next(q, s[0])))
  {
    var rest := Split(s[1..], sep, Next(q, s[0]));
    PrependTwice(current, [s[0]], rest);
    PrependTwice([], [], rest);
    assert current + [] == current;
  }

  lemma SplitNothing(current: string, sep: char, q: Quote)
    ensures Prepend(current, Split([], sep, q)) == [current]
  {
    assert current + [] == current;
  }

  // `split_outside_quotes`
  method SplitOutsideQuotes(input: string, sep: char) returns (parts: seq<string>)
    ensures parts == Split(input, sep, Outside)
  {
    parts := [];
    var current := [];
    var inQuotes, escaped := false, false;
    var i := 0;
    PrependTwice([], [], Split(input, sep, Outside));
    assert input[0..] == input;
    hide Split, Prepend;
    while i < |input|
      invariant i <= |input| && (escaped ==> inQuotes)
      invariant parts + Prepend(current, Split(input[i..], sep, QuoteOf(inQuotes, escaped))) ==
                Split(input, sep, Outside)
    {
      var c := input[i];
      assert input[i..][0] == c && input[i..][1..] == input[i + 1..];
      SplitStep(current, input[i..], sep, QuoteOf(inQuotes, escaped));
      if inQuotes && escaped {
        current := current + [c];
        escaped := false;
      } else if c == '\\' && inQuotes {
        escaped := true;
        current := current + [c];
      } else if c == '\"' {
        inQuotes := !inQuotes;
        current := current + [c];
      } else if c == sep && !inQuotes {
        JoinAssociates(parts, [current], Prepend([], Split(input[i + 1..], sep, Outside)));
        parts := parts + [current];
        current := [];
      } else {
        current := current + [c];
      }
      i := i + 1;
    }
    SplitNothing(current, sep, QuoteOf(inQuotes, escaped));
    assert input[i..] == [];
    parts := parts + [current];
  }

  // ---------------------------------------------------------------- what the split does

  lemma {:induction false} RunAppend(a: string, b: string, q: Quote)
    ensures Run(q, a + b) == Run(Run(q, a), b)
  {
    if a == [] {
      assert a + b == b;
    } else {
      RunAppend(a[1..], b, Next(q, a[0]));
      assert (a + b)[1..] == a[1..] + b;
    }
  }

  lemma {:induction false} UncutAppend(a: string, b: string, sep: char, q: Quote)
    ensures Uncut(a + b, sep, q) <==> Uncut(a, sep, q) && Uncut(b, sep, Run(q, a))
  {
    if a == [] {
      assert a + b == b;
    } else {
      UncutAppend(a[1..], b, sep, Next(q, a[0]));
      assert (a + b)[1..] == a[1..] + b;
    }
  }

  lemma JoinPrepend(c: string, parts: seq<string>, sep: char)
    requires parts != []
    ensures Join(Prepend(c, parts), sep) == c + Join(parts, sep)
  {
    assert Prepend(c, parts)[1..] == parts[1..];
  }

  lemma JoinNew(parts: seq<string>, sep: char)
    requires parts != []
    ensures Join([[]] + parts, sep) == [sep] + Join(parts, sep)
  {
    assert ([[]] + parts)[1..] == parts;
  }

  // Joining the pieces gives the input back, whatever the input and the separator.
  lemma {:induction false} SplitIsLossless(s: string, sep: char, q: Quote)
    ensures Join(Split(s, sep, q), sep) == s
  {
    if s != [] {
      SplitIsLossless(s[1..], sep, Next(q, s[0]));
      var rest := Split(s[1..], sep, Next(q, s[0]));
      JoinPrepend([s[0]], rest, sep);
      JoinNew(rest, sep);
    }
  }

  // Pieces that a split could have produced: no separator outside the quotes of a piece,
  // and no quoted string that goes on in the next piece.
  ghost predicate Pieces(parts: seq<string>, sep: char, q: Quote) {
    && parts != []
    && Uncut(parts[0], sep, q)
    && (|parts| > 1 ==> Run(q, parts[0]).Outside? && Pieces(parts[1..], sep, Outside))
  }

  lemma {:induction false} SplitGivesPieces(s: string, sep: char, q: Quote)
    ensures Pieces(Split(s, sep, q), sep, q)
  {
    if s != [] {
      var rest := Split(s[1..], sep, Next(q, s[0]));
      SplitGivesPieces(s[1..], sep, Next(q, s[0]));
      if Cuts(q, s[0], sep) {
        assert ([[]] + rest)[1..] == rest;
      } else {
        var first := [s[0]] + rest[0];
        assert first[1..] == rest[0] && Prepend([s[0]], rest)[1..] == rest[1..];
      }
    }
  }

  lemma {:induction false} SplitOfFirst(first: string, rest: string, sep: char, q: Quote)
    requires Uncut(first, sep, q)
    ensures Split(first + rest, sep, q) == Prepend(first, Split(rest, sep, Run(q, first)))
  {
    if first == [] {
      assert first + rest == rest;
      PrependTwice([], [], Split(rest, sep, q));
    } else {
      assert (first + rest)[1..] == first[1..] + rest;
      SplitOfFirst(first[1..], rest, sep, Next(q, first[0]));
      PrependTwice([first[0]], first[1..], Split(rest, sep, Run(q, first)));
      assert [first[0]] + first[1..] == first;
    }
  }

  // And splitting joined pieces gives the pieces back: with the two lemmas above, the
  // split is the one list of pieces that joins to the input.
  lemma {:induction false} SplitUndoesJoin(parts: seq<string>, sep: char, q: Quote)
    requires sep != '\"' && Pieces(parts, sep, q)
    ensures Split(Join(parts, sep), sep, q) == parts
  {
    if |parts| == 1 {
      SplitOfFirst(parts[0], [], sep, q);
      assert parts[0] + [] == parts[0];
      assert Split([], sep, Run(q, parts[0])) == [[]];
      assert [parts[0]] == parts;
    } else {
      SplitUndoesJoin(parts[1..], sep, Outside);
      var rest := Join(parts[1..], sep);
      SplitOfFirst(parts[0], [sep] + rest, sep, q);
      assert parts[0] + ([sep] + rest) == Join(parts, sep);
      assert ([sep] + rest)[1..] == rest;
      assert Split([sep] + rest, sep, Outside) == [[]] + parts[1..];
      assert ([[]] + parts[1..])[1..] == parts[1..];
      assert parts[0] + [] == parts[0];
    }
  }

  // ---------------------------------------------------------------- one parameter

  // The first '=' outside quotes.
  function EqualsAt(s: string, q: Quote): (r: Option<nat>)
    ensures r.Some? ==> r.value < |s| && s[r.value] == '=' && Run(q, s[..r.value]).Outside?
  {
    if s == [] then None
    else if q.Outside? && s[0] == '=' then Some(0)
    else
      var r := EqualsAt(s[1..], Next(q, s[0]));
      if r.None? then None
      else
        assert s[..r.value + 1][0] == s[0] && s[..r.value + 1][1..] == s[1..][..r.value];
        Some(r.value + 1)
  }

  // Nothing before it is one, and if there is none there is none.
  lemma {:induction false} EqualsIsFirst(s: string, q: Quote, j: nat)
    requires j < match EqualsAt(s, q) case Some(i) => i case None => |s|
    ensures s[j] == '=' ==> !Run(q, s[..j]).Outside?
  {
    if j > 0 {
      EqualsIsFirst(s[1..], Next(q, s[0]), j - 1);
      assert s[..j][0] == s[0] && s[..j][1..] == s[1..][..j - 1];
    }
  }

  method FindEquals(pair: string) returns (found: Option<nat>)
    ensures found == EqualsAt(pair, Outside)
  {
    var inQuotes, escaped := false, false;
    var i := 0;
    assert pair[0..] == pair;
    while i < |pair|
      invariant i <= |pair| && (escaped ==> inQuotes)
      invariant EqualsAt(pair, Outside) ==
                  var r := EqualsAt(pair[i..], QuoteOf(inQuotes, escaped)); if r.None? then None else Some(i + r.value)
    {
      var c := pair[i];
      assert pair[i..][0] == c && pair[i..][1..] == pair[i + 1..];
      if inQuotes && escaped {
        escaped := false;
      } else if c == '\\' && inQuotes {
        escaped := true;
      } else if c == '\"' {
        inQuotes := !inQuotes;
      } else if c == '=' && !inQuotes {
        return Some(i);
      }
      i := i + 1;
    }
    assert pair[i..] == [];
    return None;
  }

  // A value and what follows it, with more text in front of the value.
  function Extend(text: string, r: Option<(string, string)>): Option<(string, string)> {
    if r.None? then None else Some((text + r.value.0, r.value.1))
  }

  lemma ExtendTwice(a: string, b: string, r: Option<(string, string)>)
    ensures Extend(a, Extend(b, r)) == Extend(a + b, r) && Extend([], r) == r
  {
    if r.Some? {
      assert a + (b + r.value.0) == a + b + r.value.0 && [] + r.value.0 == r.value.0;
    }
  }

  // What follows an opening quote: the value without its escapes, and the rest after the
  // closing quote.
  function Unquoted(s: string): Option<(string, string)> {
    if s == [] then None
    else if s[0] == '\"' then Some(([], s[1..]))
    else if s[0] != '\\' then Extend([s[0]], Unquoted(s[1..]))
    else if |s| == 1 then None
    else Extend([s[1]], Unquoted(s[2..]))
  }

  function ValueOf(raw: string): Option<string> {
    var text := Trim(raw);
    if text == [] || text[0] != '\"' then Some(text)
    else
      var r := Unquoted(text[1..]);
      if r.None? || Trim(r.value.1) != [] then None else Some(r.value.0)
  }

  // What the value loop still has to read.
  function Remaining(s: string, escaped: bool): Option<(string, string)> {
    if !escaped then Unquoted(s) else if s == [] then None else Extend([s[0]], Unquoted(s[1..]))
  }

  // `parse_digest_parameter_value`
  method ParseParameterValue(raw: string) returns (r: Option<string>)
    ensures r == ValueOf(raw)
  {
    var text := Trim(raw);
    if text == [] || text[0] != '\"' {
      return Some(text);
    }
    var body := text[1..];
    var value: string := [];
    var escaped := false;
    var closing: Option<nat> := None;
    var i := 0;
    assert body[0..] == body;
    ExtendTwice([], [], Unquoted(body));
    while i < |body| && closing.None?
      invariant i <= |body|
      invariant closing.Some? ==>
                  !escaped && closing.value < |body| && Unquoted(body) == Some((value, body[closing.value + 1..]))
      invariant closing.None? ==> Unquoted(body) == Extend(value, Remaining(body[i..], escaped))
      decreases |body| - i, closing.None?
    {
      var c := body[i];
      assert body[i..][0] == c && body[i..][1..] == body[i + 1..];
      assert i + 1 < |body| ==> body[i..][2..] == body[i + 1..][1..];
      ExtendTwice(value, [c], Unquoted(body[i + 1..]));
      if escaped {
        value := value + [c];
        escaped := false;
      } else if c == '\\' {
        escaped := true;
      } else if c == '\"' {
        assert value + [] == value;
        closing := Some(i);
      } else {
        value := value + [c];
      }
      i := i + 1;
    }
    if closing.None? {
      assert body[i..] == [];
      return None;
    }
    if Trim(body[closing.value + 1..]) != [] {
      return None;
    }
    return Some(value);
  }

  lemma EscapeFirst(value: string)
    requires value != []
    ensures Escape(value) ==
              (if value[0] == '\\' || value[0] == '\"' then ['\\', value[0]] else [value[0]]) + Escape(value[1..])
  {}

  lemma {:induction false} UnquotedEscape(value: string, rest: string)
    ensures Unquoted(Escape(value) + ['\"'] + rest) == Some((value, rest))
  {
    if value == [] {
      assert Escape(value) + ['\"'] + rest == ['\"'] + rest;
      assert (['\"'] + rest)[1..] == rest;
    } else {
      UnquotedEscape(value[1..], rest);
      var tail := Escape(value[1..]) + ['\"'] + rest;
      var text := Escape(value) + ['\"'] + rest;
      hide Escape;
      EscapeFirst(value);
      if value[0] == '\\' || value[0] == '\"' {
        assert text == ['\\', value[0]] + tail && text[2..] == tail;
      } else {
        assert text == [value[0]] + tail && text[1..] == tail;
      }
      assert [value[0]] + value[1..] == value;
    }
  }

  // The body of a quoted string that stands for a value: every character of the value as
  // itself or behind a backslash, quotes and backslashes always behind one.
  predicate Encodes(body: string, value: string) {
    if value == [] then body == []
    else
      || (body != [] && body[0] != '\"' && body[0] != '\\' && body[0] == value[0] && Encodes(body[1..], value[1..]))
      || (|body| >= 2 && body[0] == '\\' && body[1] == value[0] && Encodes(body[2..], value[1..]))
  }

  // `s` is such a body, its closing quote, and `rest`.
  predicate IsQuoted(s: string, value: string, rest: string) {
    && |rest| < |s|
    && s[|s| - |rest|..] == rest
    && s[|s| - |rest| - 1] == '\"'
    && Encodes(s[..|s| - |rest| - 1], value)
  }

  // The quote and escape rules of section 3.2.6 of RFC 7230, both ways.
  lemma {:induction false} UnquotedIsExact(s: string, value: string, rest: string)
    ensures Unquoted(s) == Some((value, rest)) <==> IsQuoted(s, value, rest)
    decreases |s|
  {
    if s != [] && s[0] == '\"' {
      UnquotedAtQuote(s, value, rest);
    } else if s != [] && (s[0] != '\\' || |s| > 1) {
      var n := if s[0] == '\\' then 2 else 1;
      if value != [] {
        UnquotedIsExact(s[n..], value[1..], rest);
        hide Unquoted, IsQuoted;
        UnquotedFirst(s, n, value, rest);
        IsQuotedFirst(s, n, value, rest);
      }
    }
  }

  lemma UnquotedAtQuote(s: string, value: string, rest: string)
    requires s != [] && s[0] == '\"'
    ensures IsQuoted(s, value, rest) <==> value == [] && rest == s[1..]
  {}

  // The first character of the value, written with or without a backslash: what the reader
  // does with it, and what the grammar says of it.
  lemma UnquotedFirst(s: string, n: nat, value: string, rest: string)
    requires value != [] && s != [] && s[0] != '\"' && n == (if s[0] == '\\' then 2 else 1) && n <= |s|
    ensures Unquoted(s) == Some((value, rest)) <==> s[n - 1] == value[0] && Unquoted(s[n..]) == Some((value[1..], rest))
  {
    var c, r := s[n - 1], Unquoted(s[n..]);
    assert value == [value[0]] + value[1..];
    if r.Some? {
      assert ([c] + r.value.0)[0] == c && ([c] + r.value.0)[1..] == r.value.0;
    }
  }

  lemma IsQuotedFirst(s: string, n: nat, value: string, rest: string)
    requires value != [] && s != [] && s[0] != '\"' && n == (if s[0] == '\\' then 2 else 1) && n <= |s|
    ensures IsQuoted(s, value, rest) <==> s[n - 1] == value[0] && IsQuoted(s[n..], value[1..], rest)
  {
    if |rest| + n < |s| {
      IsQuotedInside(s, n, value, rest);
    } else if |rest| < |s| {
      EncodesFirst(s[..|s| - |rest| - 1], n, value);
    }
  }

  lemma IsQuotedInside(s: string, n: nat, value: string, rest: string)
    requires value != [] && s != [] && s[0] != '\"' && n == (if s[0] == '\\' then 2 else 1) && |rest| + n < |s|
    ensures IsQuoted(s, value, rest) <==> s[n - 1] == value[0] && IsQuoted(s[n..], value[1..], rest)
  {
    hide Encodes;
    var k := |s| - |rest| - 1;
    EncodesFirst(s[..k], n, value);
    DropThenCut(s, n, k);
    DropThenCut(s, n, k + 1);
  }

  lemma EncodesFirst(body: string, n: nat, value: string)
    requires value != [] && (body != [] ==> body[0] != '\"' && n == (if body[0] == '\\' then 2 else 1))
    ensures Encodes(body, value) <==>
              body != [] && n <= |body| && body[n - 1] == value[0] && Encodes(body[n..], value[1..])
  {}

  // What the value parser accepts, and as what.
  lemma ValueIsExact(raw: string, value: string)
    ensures ValueOf(raw) == Some(value) <==>
              var text := Trim(raw);
              if text == [] || text[0] != '\"' then value == text
              else exists rest :: Trim(rest) == [] && IsQuoted(text[1..], value, rest)
  {
    hide IsQuoted, Unquoted, Trim;
    var text := Trim(raw);
    if text != [] {
      var body := text[1..];
      var r := Unquoted(body);
      if r.Some? {
        UnquotedIsExact(body, r.value.0, r.value.1);
        UnquotedIsExact(body, value, r.value.1);
      }
      forall rest | IsQuoted(body, value, rest) ensures r == Some((value, rest)) {
        UnquotedIsExact(body, value, rest);
      }
    }
  }

  // ---------------------------------------------------------------- the parameter list

  // One piece of the list, if it is a parameter.
  function Parsed(piece: string): Option<(string, string)> {
    var pair := Trim(piece);
    var eq := EqualsAt(pair, Outside);
    if eq.None? then None
    else
      var key, value := Lower(Trim(pair[..eq.value])), ValueOf(pair[eq.value + 1..]);
      if value.None? || key == [] then None else Some((key, value.value))
  }

  // The parameter of a piece, if it has one.
  function Kept(piece: string): seq<(string, string)> {
    var parsed := Parsed(piece);
    if parsed.Some? then [parsed.value] else []
  }

  function ParsedAll(pieces: seq<string>): seq<(string, string)> {
    if pieces == [] then [] else Kept(pieces[0]) + ParsedAll(pieces[1..])
  }

  function Parameters(text: string): seq<(string, string)> { ParsedAll(Split(text, ',', Outside)) }

  // The map that inserting them in order gives.
  function MapOf(list: seq<(string, string)>): map<string, string> {
    if list == [] then map[]
    else MapOf(list[..|list| - 1])[list[|list| - 1].0 := list[|list| - 1].1]
  }

  lemma {:induction false} ParsedAllAppend(a: seq<string>, piece: string)
    ensures ParsedAll(a + [piece]) == ParsedAll(a) + Kept(piece)
  {
    if a == [] {
      assert a + [piece] == [piece] && [piece][1..] == [];
    } else {
      ParsedAllAppend(a[1..], piece);
      ParsedAllFirst(a);
      ParsedAllFirst(a + [piece]);
      hide ParsedAll, Parsed;
      DropJoined(a, [piece], 1);
      JoinAssociates(Kept(a[0]), ParsedAll(a[1..]), Kept(piece));
    }
  }

  lemma ParsedAllFirst(pieces: seq<string>)
    requires pieces != []
    ensures ParsedAll(pieces) == Kept(pieces[0]) + ParsedAll(pieces[1..])
  {
    hide Parsed;
  }

  // The loop of `parse_www_authenticate`.
  method ParseParameters(text: string) returns (r: map<string, string>)
    ensures r == MapOf(Parameters(text))
  {
    hide Split, Parsed, Trim, ValueOf;
    var pieces := SplitOutsideQuotes(text, ',');
    r := map[];
    var i := 0;
    while i < |pieces|
      invariant i <= |pieces| && r == MapOf(ParsedAll(pieces[..i]))
    {
      assert pieces[..i + 1] == pieces[..i] + [pieces[i]];
      ParsedAllAppend(pieces[..i], pieces[i]);
      var before := ParsedAll(pieces[..i]);
      var one := ParsePiece(pieces[i]);
      if one.Some? {
        r := r[one.value.0 := one.value.1];
        assert (before + [one.value])[..|before|] == before;
      } else {
        assert before + [] == before;
      }
      i := i + 1;
    }
    assert pieces[..i] == pieces;
  }

  // The body of that loop, up to the insertion.
  method ParsePiece(piece: string) returns (r: Option<(string, string)>)
    ensures r == Parsed(piece)
  {
    var pair := Trim(piece);
    if pair == [] {
      return None;
    }
    var eq := FindEquals(pair);
    if eq.None? {
      return None;
    }
    var key := Lower(Trim(pair[..eq.value]));
    var value := ParseParameterValue(pair[eq.value + 1..]);
    if value.None? || key == [] {
      return None;
    }
    return Some((key, value.value));
  }

  // ---------------------------------------------------------------- printed lists

  // A parameter as it is printed: `key="escaped"`, or `key=token`.
  datatype Parameter = Parameter(key: string, value: string, quoted: bool)

  // The token characters of section 3.2.6 of RFC 7230.
  predicate IsTokenChar(c: char) {
    'a' <= c <= 'z' || 'A' <= c <= 'Z' || '0' <= c <= '9' || c in "!#$%&'*+-.^_`|~"
  }

  predicate IsToken(s: string) { s != [] && forall i :: 0 <= i < |s| ==> IsTokenChar(s[i]) }

  predicate Printable(p: Parameter) { IsToken(p.key) && if p.quoted then !HasControl(p.value) else IsToken(p.value) }

  function Print(p: Parameter): string
    requires Printable(p)
  {
    p.key + "=" + if p.quoted then ['\"'] + QuotedValue(p.value).value + ['\"'] else p.value
  }

  // The pieces of `key="…", key="…"`: every piece but the first begins with a blank.
  function PrintedPieces(list: seq<Parameter>, lead: string): (r: seq<string>)
    requires forall p | p in list :: Printable(p)
    ensures |r| == |list|
  {
    if list == [] then [] else [lead + Print(list[0])] + PrintedPieces(list[1..], " ")
  }

  function Printed(list: seq<Parameter>): string
    requires forall p | p in list :: Printable(p)
  {
    Join(PrintedPieces(list, []), ',')
  }

  lemma TokenChars(c: char)
    requires IsTokenChar(c)
    ensures c != '\"' && c != '\\' && c != '=' && c != ',' && c != '\n' && !IsWhitespace(c)
  {}

  lemma {:induction false} TokenIsPlain(s: string)
    requires forall i :: 0 <= i < |s| ==> IsTokenChar(s[i])
    ensures Uncut(s, ',', Outside) && Run(Outside, s).Outside?
    ensures Snug(s)
  {
    if s != [] {
      TokenChars(s[0]);
      TokenChars(s[|s| - 1]);
      TokenIsPlain(s[1..]);
    }
  }

  // An escaped value is one quoted string.
  lemma {:induction false} EscapeStaysInside(value: string)
    ensures Uncut(Escape(value), ',', Inside) && Run(Inside, Escape(value)).Inside?
  {
    if value != [] {
      EscapeStaysInside(value[1..]);
      var text := Escape(value);
      if value[0] == '\\' || value[0] == '\"' {
        assert text[1..] == [value[0]] + Escape(value[1..]) && text[1..][1..] == Escape(value[1..]);
      } else {
        assert text[1..] == Escape(value[1..]);
      }
    }
  }

  // The printed value, quoted or not.
  function PrintedValue(p: Parameter): string
    requires Printable(p)
  {
    if p.quoted then ['\"'] + Escape(p.value) + ['\"'] else p.value
  }

  lemma PrintIs(p: Parameter)
    requires Printable(p)
    ensures Print(p) == p.key + "=" + PrintedValue(p)
  {
    ReplacingIsEscaping(p.value);
  }

  lemma QuotedIsPlain(value: string)
    ensures var text := ['\"'] + Escape(value) + ['\"'];
            Uncut(text, ',', Outside) && Run(Outside, text).Outside? && Snug(text)
  {
    var text := ['\"'] + Escape(value) + ['\"'];
    EscapeStaysInside(value);
    UncutAppend(Escape(value), ['\"'], ',', Inside);
    RunAppend(Escape(value), ['\"'], Inside);
    assert text[1..] == Escape(value) + ['\"'];
    assert ['\"'][1..] == [];
  }

  lemma ValueIsPlain(p: Parameter)
    requires Printable(p)
    ensures var v := PrintedValue(p); v != [] && Uncut(v, ',', Outside) && Run(Outside, v).Outside? && Snug(v)
    ensures ValueOf(PrintedValue(p)) == Some(p.value)
  {
    var v := PrintedValue(p);
    if p.quoted {
      QuotedIsPlain(p.value);
      TrimOfSnug(v);
      assert v[1..] == Escape(p.value) + ['\"'] + [];
      UnquotedEscape(p.value, []);
    } else {
      TokenIsPlain(p.value);
      TrimOfSnug(v);
      TokenChars(v[0]);
    }
  }

  // Every value without control characters can be quoted and reads back as itself; no
  // other value can be quoted.
  lemma QuotedValueReadsBack(value: string)
    ensures QuotedValue(value).Some? <==> !HasControl(value)
    ensures QuotedValue(value).Some? ==> ValueOf(['\"'] + QuotedValue(value).value + ['\"']) == Some(value)
  {
    if !HasControl(value) {
      ReplacingIsEscaping(value);
      ValueIsPlain(Parameter("k", value, true));
    }
  }

  lemma {:induction false} EqualsAfterToken(key: string, rest: string)
    requires forall i :: 0 <= i < |key| ==> IsTokenChar(key[i])
    ensures EqualsAt(key + "=" + rest, Outside) == Some(|key|)
  {
    var text := key + "=" + rest;
    if key == [] {
      assert text[0] == '=';
    } else {
      TokenChars(key[0]);
      EqualsAfterToken(key[1..], rest);
      assert text[1..] == key[1..] + "=" + rest;
    }
  }

  lemma PrintIsPlain(p: Parameter)
    requires Printable(p)
    ensures var text := Print(p); text != [] && Uncut(text, ',', Outside) && Run(Outside, text).Outside? && Snug(text)
  {
    PrintIs(p);
    var head, v := p.key + "=", PrintedValue(p);
    TokenIsPlain(p.key);
    ValueIsPlain(p);
    hide Print, PrintedValue, Printable;
    EqualsIsPlain();
    hide Uncut, Run;
    UncutAppend(p.key, "=", ',', Outside);
    RunAppend(p.key, "=", Outside);
    UncutAppend(head, v, ',', Outside);
    RunAppend(head, v, Outside);
    var text := head + v;
    assert text[0] == p.key[0] && text[|text| - 1] == v[|v| - 1];
  }

  lemma EqualsIsPlain()
    ensures Uncut("=", ',', Outside) && Run(Outside, "=").Outside?
  {
    var equals: string := "=";
    assert equals[1..] == [];
  }

  lemma LeadIsPlain(lead: string, text: string)
    requires (lead == [] || lead == " ") && Uncut(text, ',', Outside) && Run(Outside, text).Outside?
    ensures Uncut(lead + text, ',', Outside) && Run(Outside, lead + text).Outside?
  {
    if lead == [] {
      assert lead + text == text;
    } else {
      assert (lead + text)[1..] == text;
    }
  }

  lemma PrintParsesTo(p: Parameter)
    requires Printable(p)
    ensures var text := Print(p);
            && EqualsAt(text, Outside) == Some(|p.key|) && |p.key| < |text|
            && Trim(text[..|p.key|]) == p.key && ValueOf(text[|p.key| + 1..]) == Some(p.value)
  {
    PrintIs(p);
    var text, v := Print(p), PrintedValue(p);
    ValueIsPlain(p);
    hide Print, PrintedValue, ValueOf, Trim;
    EqualsAfterToken(p.key, v);
    hide EqualsAt;
    assert text[..|p.key|] == p.key && text[|p.key| + 1..] == v;
    TokenIsPlain(p.key);
    TrimOfSnug(p.key);
  }

  // A printed parameter is a piece of its own, and parses to itself.
  lemma PrintParses(p: Parameter, lead: string)
    requires Printable(p) && (lead == [] || lead == " ")
    ensures Uncut(lead + Print(p), ',', Outside) && Run(Outside, lead + Print(p)).Outside?
    ensures Parsed(lead + Print(p)) == Some((Lower(p.key), p.value))
    ensures Snug(Print(p)) && Print(p) != []
  {
    hide Print, EqualsAt, ValueOf, Trim, Uncut, Run, Snug;
    var text := Print(p);
    PrintIsPlain(p);
    LeadIsPlain(lead, text);
    PrintParsesTo(p);
    TrimOfSnug(text);
    assert [] + text == text;
    assert Lower(p.key) != [];
  }

  function Lowered(list: seq<Parameter>): seq<(string, string)> {
    if list == [] then [] else [(Lower(list[0].key), list[0].value)] + Lowered(list[1..])
  }

  lemma {:induction false} PrintedPiecesParse(list: seq<Parameter>, lead: string)
    requires (forall p | p in list :: Printable(p)) && (lead == [] || lead == " ") && list != []
    ensures Pieces(PrintedPieces(list, lead), ',', Outside)
    ensures ParsedAll(PrintedPieces(list, lead)) == Lowered(list)
  {
    hide Print, Parsed, Uncut;
    PrintParses(list[0], lead);
    var pieces := PrintedPieces(list, lead);
    assert pieces[1..] == PrintedPieces(list[1..], " ");
    if |list| > 1 {
      PrintedPiecesParse(list[1..], " ");
    } else {
      assert list[1..] == [] && pieces[1..] == [];
      assert ParsedAll([]) == [] && Lowered([]) == [];
    }
  }

  // Whatever the parameters say, with commas, quotes, backslashes and equals signs in
  // their values: parsing what was printed gives them back, in order, keys in lower case.
  lemma ParametersRoundTrip(list: seq<Parameter>)
    requires forall p | p in list :: Printable(p)
    ensures Parameters(Printed(list)) == Lowered(list)
  {
    if list == [] {
      assert Printed(list) == [];
      var nothing: seq<string> := [[]];
      assert Split([], ',', Outside) == nothing && nothing[1..] == [];
      assert ParsedAll(nothing) == [];
    } else {
      PrintedPiecesParse(list, []);
      SplitUndoesJoin(PrintedPieces(list, []), ',', Outside);
    }
  }

  // ---------------------------------------------------------------- the whole response

  // Where a character first is, or the length.
  function IndexOf(s: string, c: char): (r: nat)
    ensures r <= |s| && (r < |s| ==> s[r] == c) && c !in s[..r]
  {
    if s == [] || s[0] == c then 0
    else
      var r := IndexOf(s[1..], c);
      assert s[..r + 1] == [s[0]] + s[1..][..r];
      r + 1
  }

  function WithoutReturn(line: string): string {
    if line != [] && line[|line| - 1] == '\r' then line[..|line| - 1] else line
  }

  // `lines`
  function Lines(s: string): seq<string> {
    if s == [] then []
    else
      var i := IndexOf(s, '\n');
      if i == |s| then [s] else [WithoutReturn(s[..i])] + Lines(s[i + 1..])
  }

  predicate PartAt(s: string, part: string, i: nat) { i + |part| <= |s| && s[i..i + |part|] == part }

  predicate Contains(s: string, part: string) { exists i: nat :: i <= |s| && PartAt(s, part, i) }

  predicate EndsWith(s: string, part: string) { |part| <= |s| && s[|s| - |part|..] == part }

  predicate Is401(statusLine: string) { Contains(statusLine, " 401 ") || EndsWith(TrimEnd(statusLine), " 401") }

  function FirstBlank(s: string): (r: nat)
    ensures r <= |s| && (r < |s| ==> IsWhitespace(s[r])) && forall i :: 0 <= i < r ==> !IsWhitespace(s[i])
  {
    if s == [] || IsWhitespace(s[0]) then 0 else 1 + FirstBlank(s[1..])
  }

  // The parameters of a header line, if it carries a Digest challenge.
  function ChallengeOf(line: string): Option<string> {
    var colon := IndexOf(line, ':');
    if colon == |line| || !EqIgnoreAsciiCase(Trim(line[..colon]), "www-authenticate") then None
    else
      var value := Trim(line[colon + 1..]);
      var end := FirstBlank(value);
      if !EqIgnoreAsciiCase(value[..end], "digest") then None else Some(Trim(value[end..]))
  }

  function FirstChallenge(lines: seq<string>): Option<string> {
    if lines == [] then None
    else if ChallengeOf(lines[0]).Some? then ChallengeOf(lines[0])
    else FirstChallenge(lines[1..])
  }

  function StatusLine(raw: string): string { if Lines(raw) == [] then [] else Lines(raw)[0] }

  // `parse_www_authenticate`
  method ParseWwwAuthenticate(raw: string) returns (r: Option<map<string, string>>)
    ensures r == Challenge(raw)
  {
    var lines := Lines(raw);
    var statusLine := if lines == [] then [] else lines[0];
    if !Is401(statusLine) {
      return None;
    }
    var parameters := FirstChallenge(lines);
    if parameters.None? {
      return None;
    }
    var found := ParseParameters(parameters.value);
    return if found == map[] then None else Some(found);
  }

  function Challenge(raw: string): Option<map<string, string>> {
    if !Is401(StatusLine(raw)) then None
    else
      var text := FirstChallenge(Lines(raw));
      if text.None? || MapOf(Parameters(text.value)) == map[] then None else Some(MapOf(Parameters(text.value)))
  }

  // Header lines as they are sent.
  function Sent(lines: seq<string>): string {
    if lines == [] then [] else lines[0] + "\r\n" + Sent(lines[1..])
  }

  lemma {:induction false} IndexOfFirst(a: string, c: char, rest: string)
    requires c !in a
    ensures IndexOf(a + [c] + rest, c) == |a|
  {
    var text := a + [c] + rest;
    if a != [] {
      assert a[0] != c && text[1..] == a[1..] + [c] + rest;
      IndexOfFirst(a[1..], c, rest);
    }
  }

  lemma LineOfSent(line: string, tail: string)
    requires '\n' !in line
    ensures Lines(line + "\r\n" + tail) == [line] + Lines(tail)
  {
    var ended, text := line + ['\r'], line + "\r\n" + tail;
    assert text == ended + ['\n'] + tail;
    IndexOfFirst(ended, '\n', tail);
    assert text[..|ended|] == ended && text[|ended| + 1..] == tail;
    hide IndexOf;
    assert WithoutReturn(ended) == line;
  }

  lemma {:induction false} LinesOfSent(lines: seq<string>, rest: string)
    requires forall i :: 0 <= i < |lines| ==> '\n' !in lines[i]
    ensures Lines(Sent(lines) + rest) == lines + Lines(rest)
  {
    hide Lines;
    if lines == [] {
      assert Sent(lines) + rest == rest;
    } else {
      LinesOfSent(lines[1..], rest);
      var tail := Sent(lines[1..]);
      assert Sent(lines) + rest == lines[0] + "\r\n" + (tail + rest);
      LineOfSent(lines[0], tail + rest);
    }
  }

  lemma {:induction false} FirstBlankAfter(word: string, rest: string)
    requires forall i :: 0 <= i < |word| ==> !IsWhitespace(word[i])
    ensures FirstBlank(word + [' '] + rest) == |word|
  {
    var text := word + [' '] + rest;
    if word != [] {
      assert text[1..] == word[1..] + [' '] + rest;
      FirstBlankAfter(word[1..], rest);
    }
  }

  const HeaderName: string := "WWW-Authenticate"
  const Scheme: string := "Digest"

  function ChallengeLine(parameters: string): string { HeaderName + [':'] + ([' '] + (Scheme + [' '] + parameters)) }

  lemma NamesMatch()
    ensures EqIgnoreAsciiCase(HeaderName, "www-authenticate") && EqIgnoreAsciiCase(Scheme, "digest")
    ensures Snug(HeaderName) && ':' !in HeaderName
    ensures |Scheme| > 0 && forall i :: 0 <= i < |Scheme| ==> !IsWhitespace(Scheme[i])
  {
    hide Lower;
  }

  lemma SchemeParses(name: string, scheme: string, parameters: string)
    requires Snug(name) && ':' !in name && scheme != [] && forall i :: 0 <= i < |scheme| ==> !IsWhitespace(scheme[i])
    requires parameters != [] && Snug(parameters)
    requires EqIgnoreAsciiCase(name, "www-authenticate") && EqIgnoreAsciiCase(scheme, "digest")
    ensures ChallengeOf(name + [':'] + ([' '] + (scheme + [' '] + parameters))) == Some(parameters)
  {
    hide EqIgnoreAsciiCase, Trim;
    var value := scheme + [' '] + parameters;
    var line := name + [':'] + ([' '] + value);
    IndexOfFirst(name, ':', [' '] + value);
    assert line[..|name|] == name && line[|name| + 1..] == [' '] + value;
    TrimOfSnug(name);
    assert value[0] == scheme[0] && value[|value| - 1] == parameters[|parameters| - 1];
    TrimOfSnug(value);
    FirstBlankAfter(scheme, parameters);
    assert value[..|scheme|] == scheme && value[|scheme|..] == [' '] + parameters;
    TrimOfSnug(parameters);
  }

  lemma ChallengeLineParses(parameters: string)
    requires parameters != [] && Snug(parameters)
    ensures ChallengeOf(ChallengeLine(parameters)) == Some(parameters)
  {
    hide ChallengeOf, Snug;
    NamesMatch();
    SchemeParses(HeaderName, Scheme, parameters);
  }

  lemma {:induction false} FirstChallengeAfter(lines: seq<string>, line: string, rest: seq<string>)
    requires forall i :: 0 <= i < |lines| ==> ChallengeOf(lines[i]).None?
    requires ChallengeOf(line).Some?
    ensures FirstChallenge(lines + [line] + rest) == ChallengeOf(line)
  {
    hide ChallengeOf;
    var all := lines + [line] + rest;
    if lines != [] {
      assert all[1..] == lines[1..] + [line] + rest;
      FirstChallengeAfter(lines[1..], line, rest);
    }
  }

  lemma {:induction false} EscapeHasNo(value: string, c: char)
    requires c !in value && c != '\\'
    ensures c !in Escape(value)
  {
    if value != [] {
      EscapeHasNo(value[1..], c);
    }
  }

  lemma PrintHasNoNewline(p: Parameter)
    requires Printable(p)
    ensures '\n' !in Print(p)
  {
    PrintIs(p);
    forall i | 0 <= i < |p.key| ensures p.key[i] != '\n' {
      TokenChars(p.key[i]);
    }
    if p.quoted {
      forall i | 0 <= i < |p.value| ensures p.value[i] != '\n' {
        assert !IsControl(p.value[i]);
      }
      EscapeHasNo(p.value, '\n');
    } else {
      forall i | 0 <= i < |p.value| ensures p.value[i] != '\n' {
        TokenChars(p.value[i]);
      }
    }
  }

  // One line of text, with nothing to trim after its first `n` characters.
  predicate OneLine(text: string, n: nat) {
    '\n' !in text && |text| > n && !IsWhitespace(text[n]) && !IsWhitespace(text[|text| - 1])
  }

  lemma OneLineJoined(a: string, n: nat, b: string, m: nat)
    requires OneLine(a, n) && OneLine(b, m)
    ensures OneLine(a + [','] + b, n)
  {}

  lemma OneLinePrinted(p: Parameter, lead: string)
    requires Printable(p) && (lead == [] || lead == " ")
    ensures OneLine(lead + Print(p), |lead|)
  {
    PrintParses(p, lead);
    PrintHasNoNewline(p);
    hide Print;
  }

  lemma {:induction false} PiecesShape(list: seq<Parameter>, lead: string)
    requires (forall p | p in list :: Printable(p)) && (lead == [] || lead == " ") && list != []
    ensures OneLine(Join(PrintedPieces(list, lead), ','), |lead|)
  {
    hide Print, OneLine, Printable;
    OneLinePrinted(list[0], lead);
    var first, others := lead + Print(list[0]), PrintedPieces(list[1..], " ");
    assert PrintedPieces(list, lead) == [first] + others && ([first] + others)[1..] == others;
    hide PrintedPieces;
    if |list| > 1 {
      PiecesShape(list[1..], " ");
      OneLineJoined(first, |lead|, Join(others, ','), 1);
    }
  }

  lemma {:induction false} MapOfIsNotEmpty(list: seq<(string, string)>)
    requires list != []
    ensures MapOf(list) != map[]
  {
    assert list[|list| - 1].0 in MapOf(list);
  }

  // A whole 401 response, with any header lines that are no Digest challenge before the
  // challenge and anything at all after it: the challenge that is read is the challenge
  // that was printed.
  lemma ResponseRoundTrip(statusLine: string, before: seq<string>, list: seq<Parameter>, after: string)
    requires '\n' !in statusLine && Is401(statusLine) && ChallengeOf(statusLine).None?
    requires forall i :: 0 <= i < |before| ==> '\n' !in before[i] && ChallengeOf(before[i]).None?
    requires list != [] && forall p | p in list :: Printable(p)
    ensures Challenge(Sent([statusLine] + before + [ChallengeLine(Printed(list))]) + after) ==
              Some(MapOf(Lowered(list)))
  {
    hide ChallengeOf, Is401, Printable, PrintedPieces, ParsedAll, Sent, Lines;
    var parameters := Printed(list);
    PiecesShape(list, []);
    ChallengeLineParses(parameters);
    ParametersRoundTrip(list);
    var line := ChallengeLine(parameters);
    var lines := [statusLine] + before;
    LinesOfSent(lines + [line], after);
    FirstChallengeAfter(lines, line, Lines(after));
    MapOfIsNotEmpty(Lowered(list));
  }

  // A response whose first line is not a 401 is never a challenge, whatever its body says.
  lemma OnlyA401IsAChallenge(raw: string)
    ensures Challenge(raw).Some? ==> Lines(raw) != [] && Is401(Lines(raw)[0]) && FirstChallenge(Lines(raw)).Some?
  {}
}
