// Bounding a stream event before it is queued or emitted (src-tauri/src/grpc_client.rs):
// UTF-8 truncation and the loop that shrinks an event until its JSON fits.
//
// Texts are their UTF-8 bytes. JSON escaping is per byte: seven bytes become two, the
// other control bytes become six, all others stay.
module GrpcEvents {
  import opened Common
  import GrpcLimiter

  type Text = seq<byte>

  const MaxSerialized: nat := 64 * 1024
  const MaxConnectionId: nat := 4 * 1024
  const MaxData: nat := 48 * 1024
  const MaxStatus: nat := 4 * 1024
  const MaxEventsPerSecond: nat := 30
  const MaxEmitBytesPerSecond: nat := 512 * 1024

  type Ascii = b: byte | b < 0x80

  // "\n… [backend preview truncated]"
  const Ellipsis: Text := [10, 226, 128, 166]
  const Notice: seq<Ascii> :=
    [32, 91, 98, 97, 99, 107, 101, 110, 100, 32, 112, 114, 101, 118,
     105, 101, 119, 32, 116, 114, 117, 110, 99, 97, 116, 101, 100, 93]
  const Suffix: Text := Ellipsis + Notice

  // ---------------------------------------------------------------- UTF-8

  predicate IsContinuation(b: byte) { 0x80 <= b <= 0xBF }

  // The length of the character that starts with this byte.
  function CharLength(lead: byte): nat {
    if lead < 0x80 then 1 else if lead < 0xE0 then 2 else if lead < 0xF0 then 3 else 4
  }

  // Whole characters: a lead byte and its continuation bytes.
  predicate WellFormed(s: Text) {
    s == [] ||
    (!IsContinuation(s[0])
     && CharLength(s[0]) <= |s|
     && (forall i :: 1 <= i < CharLength(s[0]) ==> IsContinuation(s[i]))
     && WellFormed(s[CharLength(s[0])..]))
  }

  // `is_char_boundary`
  predicate IsBoundary(s: Text, at: nat) {
    at == 0 || at == |s| || (at < |s| && !IsContinuation(s[at]))
  }

  // The last boundary not after `at`.
  function BoundaryBefore(s: Text, at: nat): (r: nat)
    ensures r <= at && IsBoundary(s, r)
    ensures forall i: nat :: r < i <= at ==> !IsBoundary(s, i)
  {
    if at == 0 || IsBoundary(s, at) then at else BoundaryBefore(s, at - 1)
  }

  lemma {:induction false} PrefixWellFormed(s: Text, at: nat)
    requires WellFormed(s) && at <= |s| && IsBoundary(s, at)
    ensures WellFormed(s[..at])
  {
    if at == |s| {
      assert s[..at] == s;
    } else if at > 0 {
      var n := CharLength(s[0]);
      assert at >= n;
      PrefixWellFormed(s[n..], at - n);
      assert s[..at][n..] == s[n..][..at - n];
    }
  }

  lemma {:induction false} JoinWellFormed(a: Text, b: Text)
    requires WellFormed(a) && WellFormed(b)
    ensures WellFormed(a + b)
  {
    if a == [] {
      assert a + b == b;
    } else {
      var n := CharLength(a[0]);
      var whole := a + b;
      JoinWellFormed(a[n..], b);
      hide CharLength, IsContinuation;
      DropJoined(a, b, n);
      assert forall i :: 0 <= i < n ==> whole[i] == whole[..n][i] && a[i] == a[..n][i];
    }
  }

  lemma {:induction false} AsciiWellFormed(s: seq<Ascii>)
    ensures WellFormed(s)
  {
    if s != [] {
      AsciiWellFormed(s[1..]);
    }
  }

  lemma SuffixWellFormed()
    ensures WellFormed(Suffix)
  {
    AsciiWellFormed(Notice);
    assert Ellipsis[1..][3..] == [];
    assert WellFormed(Ellipsis[1..]);
    JoinWellFormed(Ellipsis, Notice);
  }

  // ---------------------------------------------------------------- truncation

  function Tail(max: nat): (r: Text)
    ensures |r| <= max
  {
    if |Suffix| <= max then Suffix else []
  }

  function Truncated(value: Text, max: nat): Text {
    if |value| <= max then value
    else if max == 0 then []
    else value[..BoundaryBefore(value, max - |Tail(max)|)] + Tail(max)
  }

  // `truncate_utf8`
  method TruncateUtf8(value: Text, max: nat) returns (r: Text)
    ensures r == Truncated(value, max)
    ensures |r| <= max
    ensures |value| <= max ==> r == value
    ensures WellFormed(value) ==> WellFormed(r)
  {
    hide WellFormed, Tail;
    TruncatedIsWellFormed(value, max);
    TruncatedFits(value, max);
    if |value| <= max {
      return value;
    }
    if max == 0 {
      return [];
    }
    var suffix := Tail(max);
    var end: nat := max - |suffix|;
    ghost var latest := end;
    while end > 0 && !IsBoundary(value, end)
      invariant end <= |value| && BoundaryBefore(value, end) == BoundaryBefore(value, latest)
    {
      end := end - 1;
    }
    r := value[..end] + suffix;
  }

  lemma TruncatedFits(value: Text, max: nat)
    ensures |Truncated(value, max)| <= max
  {}

  lemma TruncatedIsWellFormed(value: Text, max: nat)
    ensures WellFormed(value) ==> WellFormed(Truncated(value, max))
  {
    if WellFormed(value) && |value| > max > 0 {
      var end := BoundaryBefore(value, max - |Tail(max)|);
      PrefixWellFormed(value, end);
      SuffixWellFormed();
      JoinWellFormed(value[..end], Tail(max));
    }
  }

  // What truncating any number of times leaves: a beginning of the original text, then a
  // beginning of the notice.
  ghost predicate Preview(text: Text, original: Text) {
    exists e: nat, k: nat :: e <= |original| && k <= |Suffix| && text == original[..e] + Suffix[..k]
  }

  lemma CutIsPreview(original: Text, e: nat, k: nat, end: nat)
    requires e <= |original| && k <= |Suffix| && end <= e + k
    ensures var cut := (original[..e] + Suffix[..k])[..end];
            Preview(cut, original) && (end <= e ==> cut == original[..end])
  {
    var cut := (original[..e] + Suffix[..k])[..end];
    if end <= e {
      assert cut == original[..end] + Suffix[..0];
    } else {
      assert cut == original[..e] + Suffix[..end - e];
    }
  }

  lemma TruncatedIsPreview(text: Text, original: Text, max: nat)
    requires Preview(text, original)
    ensures Preview(Truncated(text, max), original)
  {
    assert |Suffix| == 32;
    hide Suffix;
    if |text| > max {
      var e: nat, k: nat :| e <= |original| && k <= |Suffix| && text == original[..e] + Suffix[..k];
      if max == 0 {
        assert [] == original[..0] + Suffix[..0];
      } else {
        var end := BoundaryBefore(text, max - |Tail(max)|);
        CutIsPreview(original, e, k, end);
        if Tail(max) != [] {
          assert end <= e;
          assert Truncated(text, max) == original[..end] + Suffix[..|Suffix|];
        } else {
          assert Truncated(text, max) == text[..end];
        }
      }
    }
  }

  // ---------------------------------------------------------------- the size of an event

  datatype StreamEvent = StreamEvent(
    connectionId: Text, generation: nat, eventType: Text, data: Option<Text>,
    statusCode: Option<int>, statusMessage: Option<Text>, droppedCount: nat, timestamp: Text)

  function EscapedByte(b: byte): nat {
    if b == 0x22 || b == 0x5C || b == 0x08 || b == 0x09 || b == 0x0A || b == 0x0C || b == 0x0D then 2
    else if b < 0x20 then 6
    else 1
  }

  function Escaped(s: Text): nat {
    if s == [] then 0 else EscapedByte(s[0]) + Escaped(s[1..])
  }

  lemma {:induction false} EscapedBound(s: Text)
    ensures |s| <= Escaped(s) <= 6 * |s|
  {
    if s != [] {
      EscapedBound(s[1..]);
    }
  }

  function Quoted(s: Text): nat { 2 + Escaped(s) }

  function Digits(n: nat): nat { if n < 10 then 1 else 1 + Digits(n / 10) }

  function Number(n: int): nat { if n < 0 then 1 + Digits(-n) else Digits(n) }

  function OptionalText(name: nat, text: Option<Text>): nat { if text.Some? then 1 + name + Quoted(text.value) else 0 }

  // The JSON of an event: braces, commas, and per field its quoted name, colon and value.
  function Serialized(e: StreamEvent): nat {
    2
    + 15 + Quoted(e.connectionId)
    + 1 + 13 + Digits(e.generation)
    + 1 + 12 + Quoted(e.eventType)
    + OptionalText(7, e.data)
    + (if e.statusCode.Some? then 1 + 13 + Number(e.statusCode.value) else 0)
    + OptionalText(16, e.statusMessage)
    + 1 + 15 + Digits(e.droppedCount)
    + 1 + 12 + Quoted(e.timestamp)
  }

  const U64Max: nat := 0xFFFF_FFFF_FFFF_FFFF

  // A connection id that passed validation, and the widths of the other fields.
  predicate Validated(e: StreamEvent) {
    && 0 < |e.connectionId| <= MaxConnectionId
    && e.generation <= U64Max && e.droppedCount <= U64Max
    && (e.statusCode.Some? ==> -0x8000_0000 <= e.statusCode.value < 0x8000_0000)
    && |e.eventType| <= 9 && |e.timestamp| <= 64
  }

  function Pow10(k: nat): nat { if k == 0 then 1 else 10 * Pow10(k - 1) }

  lemma {:induction false} DigitsBound(n: nat, k: nat)
    requires k > 0 && n < Pow10(k)
    ensures Digits(n) <= k
  {
    if k > 1 && n >= 10 {
      DigitsBound(n / 10, k - 1);
    } else {
      assert Pow10(0) == 1;
    }
  }

  function TextLength(text: Option<Text>): nat { if text.Some? then |text.value| else 0 }

  lemma FieldsAreSmall(e: StreamEvent)
    requires Validated(e)
    ensures Quoted(e.connectionId) <= 2 + 6 * MaxConnectionId && Quoted(e.eventType) <= 56 && Quoted(e.timestamp) <= 386
    ensures Digits(e.generation) <= 20 && Digits(e.droppedCount) <= 20
    ensures e.statusCode.Some? ==> Number(e.statusCode.value) <= 11
  {
    EscapedBound(e.connectionId);
    EscapedBound(e.eventType);
    EscapedBound(e.timestamp);
    assert Pow10(20) > U64Max && Pow10(10) > 0x8000_0000;
    hide Pow10;
    DigitsBound(e.generation, 20);
    DigitsBound(e.droppedCount, 20);
    if e.statusCode.Some? {
      DigitsBound(if e.statusCode.value < 0 then -e.statusCode.value else e.statusCode.value, 10);
    }
  }

  // Once both texts are empty nothing can exceed the bound.
  lemma EmptyTextsFit(e: StreamEvent)
    requires Validated(e) && TextLength(e.data) == 0 && TextLength(e.statusMessage) == 0
    ensures Serialized(e) <= MaxSerialized
  {
    FieldsAreSmall(e);
    hide Validated;
    assert e.data.Some? ==> Escaped(e.data.value) == 0;
    assert e.statusMessage.Some? ==> Escaped(e.statusMessage.value) == 0;
    hide Escaped, Digits;
  }

  // ---------------------------------------------------------------- bounding

  function Clip(text: Option<Text>, max: nat): Option<Text> {
    if text.Some? then Some(Truncated(text.value, max)) else None
  }

  // One round of the loop: the longer text is halved.
  function Shrink(e: StreamEvent): (r: StreamEvent)
    requires TextLength(e.data) > 0 || TextLength(e.statusMessage) > 0
    ensures TextLength(r.data) + TextLength(r.statusMessage) < TextLength(e.data) + TextLength(e.statusMessage)
  {
    var d, s := TextLength(e.data), TextLength(e.statusMessage);
    if d >= s && d > 0 then e.(data := Clip(e.data, d / 2)) else e.(statusMessage := Clip(e.statusMessage, s / 2))
  }

  predicate Settled(e: StreamEvent) {
    Serialized(e) <= MaxSerialized || (TextLength(e.data) == 0 && TextLength(e.statusMessage) == 0)
  }

  function Shrunk(e: StreamEvent): StreamEvent
    decreases TextLength(e.data) + TextLength(e.statusMessage)
  {
    if Settled(e) then e else Shrunk(Shrink(e))
  }

  function Clipped(e: StreamEvent): StreamEvent {
    e.(data := Clip(e.data, MaxData), statusMessage := Clip(e.statusMessage, MaxStatus))
  }

  function Bounded(e: StreamEvent): StreamEvent { Shrunk(Clipped(e)) }

  // `bound_stream_event`
  method BoundStreamEvent(event: StreamEvent) returns (r: StreamEvent)
    ensures r == Bounded(event)
  {
    hide Serialized, Truncated;
    r := event;
    if r.data.Some? {
      var text := TruncateUtf8(r.data.value, MaxData);
      r := r.(data := Some(text));
    }
    if r.statusMessage.Some? {
      var text := TruncateUtf8(r.statusMessage.value, MaxStatus);
      r := r.(statusMessage := Some(text));
    }
    assert r == Clipped(event);
    while Serialized(r) > MaxSerialized
      invariant Shrunk(r) == Bounded(event)
      decreases TextLength(r.data) + TextLength(r.statusMessage)
    {
      var dataLength := if r.data.Some? then |r.data.value| else 0;
      var statusLength := if r.statusMessage.Some? then |r.statusMessage.value| else 0;
      if dataLength == 0 && statusLength == 0 {
        break;
      }
      ghost var before := r;
      if dataLength >= statusLength && dataLength > 0 {
        var text := TruncateUtf8(r.data.value, dataLength / 2);
        r := r.(data := Some(text));
      } else {
        var text := TruncateUtf8(r.statusMessage.value, statusLength / 2);
        r := r.(statusMessage := Some(text));
      }
      assert r == Shrink(before);
    }
  }

  // ---------------------------------------------------------------- what bounding gives

  predicate SameFrame(a: StreamEvent, b: StreamEvent) {
    && a == b.(data := a.data, statusMessage := a.statusMessage)
    && (a.data.Some? <==> b.data.Some?) && (a.statusMessage.Some? <==> b.statusMessage.Some?)
  }

  lemma {:induction false} ShrunkIsSettled(e: StreamEvent)
    ensures SameFrame(Shrunk(e), e) && Settled(Shrunk(e))
    decreases TextLength(e.data) + TextLength(e.statusMessage)
  {
    hide Serialized, Truncated;
    if !Settled(e) {
      ShrunkIsSettled(Shrink(e));
    }
  }

  // Every event with a validated connection id fits once it is bounded; nothing but the
  // two texts is touched.
  lemma BoundedFits(e: StreamEvent)
    requires Validated(e)
    ensures Serialized(Bounded(e)) <= MaxSerialized
    ensures SameFrame(Bounded(e), e)
  {
    hide Serialized, Truncated;
    ShrunkIsSettled(Clipped(e));
    var r := Bounded(e);
    if Serialized(r) > MaxSerialized {
      EmptyTextsFit(r);
    }
  }

  // What is shown of a text begins as the text does.
  ghost predicate Shows(shown: Option<Text>, original: Option<Text>) {
    if original.None? then shown.None? else shown.Some? && Preview(shown.value, original.value)
  }

  lemma ClipShows(shown: Option<Text>, original: Option<Text>, max: nat)
    requires Shows(shown, original)
    ensures Shows(Clip(shown, max), original)
  {
    if shown.Some? && original.Some? {
      TruncatedIsPreview(shown.value, original.value, max);
    }
  }

  lemma {:induction false} ShrunkShows(e: StreamEvent, original: StreamEvent)
    requires Shows(e.data, original.data) && Shows(e.statusMessage, original.statusMessage)
    ensures Shows(Shrunk(e).data, original.data) && Shows(Shrunk(e).statusMessage, original.statusMessage)
    decreases TextLength(e.data) + TextLength(e.statusMessage)
  {
    hide Serialized, Truncated, Shows;
    if !Settled(e) {
      ClipShows(e.data, original.data, TextLength(e.data) / 2);
      ClipShows(e.statusMessage, original.statusMessage, TextLength(e.statusMessage) / 2);
      ShrunkShows(Shrink(e), original);
    }
  }

  lemma ShowsItself(text: Option<Text>)
    ensures Shows(text, text)
  {
    if text.Some? {
      assert text.value == text.value[..|text.value|] + Suffix[..0];
    }
  }

  lemma BoundedShowsTheBeginning(e: StreamEvent)
    ensures Shows(Bounded(e).data, e.data) && Shows(Bounded(e).statusMessage, e.statusMessage)
  {
    hide Serialized, Truncated, Shows;
    ShowsItself(e.data);
    ShowsItself(e.statusMessage);
    ClipShows(e.data, e.data, MaxData);
    ClipShows(e.statusMessage, e.statusMessage, MaxStatus);
    ShrunkShows(Clipped(e), e);
  }

  predicate WellFormedText(text: Option<Text>) { text.Some? ==> WellFormed(text.value) }

  // No character is ever cut in two.
  lemma {:induction false} ShrunkIsWellFormed(e: StreamEvent)
    requires WellFormedText(e.data) && WellFormedText(e.statusMessage)
    ensures WellFormedText(Shrunk(e).data) && WellFormedText(Shrunk(e).statusMessage)
    decreases TextLength(e.data) + TextLength(e.statusMessage)
  {
    hide Serialized, Truncated, WellFormed;
    if !Settled(e) {
      ClipIsWellFormed(e.data, TextLength(e.data) / 2);
      ClipIsWellFormed(e.statusMessage, TextLength(e.statusMessage) / 2);
      ShrunkIsWellFormed(Shrink(e));
    }
  }

  lemma ClipIsWellFormed(text: Option<Text>, max: nat)
    requires WellFormedText(text)
    ensures WellFormedText(Clip(text, max))
  {
    if text.Some? {
      TruncatedIsWellFormed(text.value, max);
    }
  }

  lemma BoundedIsWellFormed(e: StreamEvent)
    requires WellFormedText(e.data) && WellFormedText(e.statusMessage)
    ensures WellFormedText(Bounded(e).data) && WellFormedText(Bounded(e).statusMessage)
  {
    hide Serialized, Truncated, WellFormed;
    ClipIsWellFormed(e.data, MaxData);
    ClipIsWellFormed(e.statusMessage, MaxStatus);
    ShrunkIsWellFormed(Clipped(e));
  }

  // The production limits.
  function EmitLimits(window: nat): GrpcLimiter.Limits {
    GrpcLimiter.Limits(MaxEventsPerSecond, MaxEmitBytesPerSecond, window)
  }

  // So the wait loop of the dispatcher cannot spin: a bounded event that is refused is
  // admitted after the one sleep it is asked to take.
  lemma BoundedEventsAreAdmitted(e: StreamEvent, w: GrpcLimiter.Window, window: nat, now: nat, later: nat)
    requires Validated(e) && w.started <= now
    requires !GrpcLimiter.Admits(w, EmitLimits(window), Serialized(Bounded(e)), now)
    requires later >= now + GrpcLimiter.Delay(w, EmitLimits(window), now)
    ensures GrpcLimiter.Delay(w, EmitLimits(window), now) <= window
    ensures
      var bytes := Serialized(Bounded(e));
      GrpcLimiter.Admits(GrpcLimiter.AfterCall(w, EmitLimits(window), bytes, now), EmitLimits(window), bytes, later)
  {
    BoundedFits(e);
    hide Serialized, Bounded;
    GrpcLimiter.AdmittedAfterOneSleep(w, EmitLimits(window), Serialized(Bounded(e)), now, later);
  }
}
