// The request log of a mock server session (src-tauri/src/mock_server.rs), bounded both by
// the number of entries and by their estimated size.
module MockLog {
  import opened Common

  const MaxEntries: nat := 2000
  const MaxTotalBytes: nat := 32 * 1024 * 1024

  // The texts of an entry; a char stands for one byte of UTF-8.
  datatype LogEntry = LogEntry(
    id: string, sessionId: string, timestamp: string, httpMethod: string, path: string, query: string,
    responseBody: string,
    requestHeaders: seq<(string, string)>,
    requestBody: Option<string>, matchedRouteId: Option<string>, matchedPattern: Option<string>)

  // ---------------------------------------------------------------- the size of an entry

  function OptionLength(text: Option<string>): nat { if text.Some? then |text.value| else 0 }

  function HeaderBytes(headers: seq<(string, string)>): nat {
    if headers == [] then 0
    else
      var last := headers[|headers| - 1];
      HeaderBytes(headers[..|headers| - 1]) + |last.0| + |last.1|
  }

  // The bytes of all its texts, without any overflow.
  function TextBytes(e: LogEntry): nat {
    |e.id| + |e.sessionId| + |e.timestamp| + |e.httpMethod| + |e.path| + |e.query| + |e.responseBody|
    + HeaderBytes(e.requestHeaders)
    + OptionLength(e.requestBody) + OptionLength(e.matchedRouteId) + OptionLength(e.matchedPattern)
  }

  function EntryBytes(e: LogEntry): nat { SaturatingAdd(TextBytes(e), 0) }

  // `mock_log_estimated_bytes`
  method EstimatedBytes(e: LogEntry) returns (total: nat)
    ensures total == if TextBytes(e) <= UsizeMax then TextBytes(e) else UsizeMax
  {
    var fixed := |e.id| + |e.sessionId| + |e.timestamp| + |e.httpMethod| + |e.path| + |e.query| + |e.responseBody|;
    total := SaturatingAdd(|e.id|, |e.sessionId|);
    total := SaturatingAdd(SaturatingAdd(total, |e.timestamp|), |e.httpMethod|);
    total := SaturatingAdd(SaturatingAdd(SaturatingAdd(total, |e.path|), |e.query|), |e.responseBody|);
    var i := 0;
    while i < |e.requestHeaders|
      invariant i <= |e.requestHeaders|
      invariant total == SaturatingAdd(fixed + HeaderBytes(e.requestHeaders[..i]), 0)
    {
      assert e.requestHeaders[..i + 1][..i] == e.requestHeaders[..i];
      total := SaturatingAdd(SaturatingAdd(total, |e.requestHeaders[i].0|), |e.requestHeaders[i].1|);
      i := i + 1;
    }
    assert e.requestHeaders[..i] == e.requestHeaders;
    total := SaturatingAdd(total, OptionLength(e.requestBody));
    total := SaturatingAdd(total, OptionLength(e.matchedRouteId));
    total := SaturatingAdd(total, OptionLength(e.matchedPattern));
  }

  function Bytes(entries: seq<LogEntry>): nat {
    if entries == [] then 0 else EntryBytes(entries[0]) + Bytes(entries[1..])
  }

  lemma {:induction false} BytesAppend(a: seq<LogEntry>, b: seq<LogEntry>)
    ensures Bytes(a + b) == Bytes(a) + Bytes(b)
  {
    if a == [] {
      assert a + b == b;
    } else {
      BytesAppend(a[1..], b);
      assert (a + b)[1..] == a[1..] + b;
    }
  }

  // ---------------------------------------------------------------- the log

  datatype Log = Log(entries: seq<LogEntry>, bytes: nat)

  predicate MustEvict(log: Log, size: nat) {
    log.entries != [] && (|log.entries| >= MaxEntries || SaturatingAdd(log.bytes, size) > MaxTotalBytes)
  }

  // The eviction loop.
  function Evicted(log: Log, size: nat): Log
    decreases |log.entries|
  {
    if MustEvict(log, size) then
      Evicted(Log(log.entries[1..], SaturatingSub(log.bytes, EntryBytes(log.entries[0]))), size)
    else log
  }

  function Appended(log: Log, e: LogEntry): Log {
    var room := Evicted(log, EntryBytes(e));
    if EntryBytes(e) <= MaxTotalBytes then Log(room.entries + [e], SaturatingAdd(room.bytes, EntryBytes(e))) else room
  }

  class SessionLog {
    var logs: seq<LogEntry>
    var logBytes: nat

    constructor ()
      ensures View() == Log([], 0)
    {
      logs, logBytes := [], 0;
    }

    ghost function View(): Log
      reads this
    {
      Log(logs, logBytes)
    }

    method Append(entry: LogEntry)
      modifies this
      ensures View() == Appended(old(View()), entry)
    {
      var entryBytes := EstimatedBytes(entry);
      var currentBytes := logBytes;
      while logs != [] && (|logs| >= MaxEntries || SaturatingAdd(currentBytes, entryBytes) > MaxTotalBytes)
        invariant Evicted(Log(logs, currentBytes), entryBytes) == Evicted(old(View()), entryBytes)
        decreases |logs|
      {
        var removed := logs[0];
        logs := logs[1..];
        var removedBytes := EstimatedBytes(removed);
        currentBytes := SaturatingSub(currentBytes, removedBytes);
      }
      if entryBytes <= MaxTotalBytes {
        logs := logs + [entry];
        currentBytes := SaturatingAdd(currentBytes, entryBytes);
      }
      logBytes := currentBytes;
    }

    method Clear()
      modifies this
      ensures View() == Log([], 0)
    {
      logs := [];
      logBytes := 0;
    }
  }

  // ---------------------------------------------------------------- what is retained

  predicate Fits(entries: seq<LogEntry>) { |entries| <= MaxEntries && Bytes(entries) <= MaxTotalBytes }

  // The longest suffix that fits both limits.
  function LongestFit(entries: seq<LogEntry>): (r: seq<LogEntry>)
    ensures Fits(r)
  {
    if Fits(entries) || entries == [] then entries else LongestFit(entries[1..])
  }

  lemma {:induction false} LongestFitIsLongest(entries: seq<LogEntry>, k: nat)
    requires k <= |entries|
    ensures |LongestFit(entries)| <= |entries| && LongestFit(entries) == entries[|entries| - |LongestFit(entries)|..]
    ensures Fits(entries[k..]) ==> |entries| - k <= |LongestFit(entries)|
  {
    if !Fits(entries) {
      if k > 0 {
        LongestFitIsLongest(entries[1..], k - 1);
        assert entries[1..][k - 1..] == entries[k..];
      } else {
        LongestFitIsLongest(entries[1..], 0);
      }
    }
  }

  // An exact log: its byte counter is the size of its entries, and it fits.
  predicate Exact(log: Log) { log.bytes == Bytes(log.entries) && Fits(log.entries) }

  lemma {:induction false} EvictedMakesRoom(log: Log, e: LogEntry)
    requires Exact(log)
    ensures Exact(Evicted(log, EntryBytes(e)))
    ensures EntryBytes(e) <= MaxTotalBytes ==>
              Evicted(log, EntryBytes(e)).entries + [e] == LongestFit(log.entries + [e])
    ensures EntryBytes(e) > MaxTotalBytes ==> Evicted(log, EntryBytes(e)).entries == []
    decreases |log.entries|
  {
    BytesAppend(log.entries, [e]);
    assert Bytes([e]) == EntryBytes(e);
    if MustEvict(log, EntryBytes(e)) {
      EvictedMakesRoom(Log(log.entries[1..], SaturatingSub(log.bytes, EntryBytes(log.entries[0]))), e);
      assert (log.entries + [e])[1..] == log.entries[1..] + [e];
    }
  }

  lemma {:induction false} OversizedFitsNothing(entries: seq<LogEntry>, e: LogEntry)
    requires EntryBytes(e) > MaxTotalBytes
    ensures LongestFit(entries + [e]) == []
  {
    BytesAppend(entries, [e]);
    assert Bytes([e]) == EntryBytes(e);
    if entries != [] {
      OversizedFitsNothing(entries[1..], e);
      assert (entries + [e])[1..] == entries[1..] + [e];
    } else {
      assert ([e])[1..] == [];
      assert [] + [e] == [e];
    }
  }

  // Dropping what did not fit before changes nothing once another entry arrives.
  lemma {:induction false} LongestFitStep(entries: seq<LogEntry>, e: LogEntry)
    ensures LongestFit(LongestFit(entries) + [e]) == LongestFit(entries + [e])
  {
    if !Fits(entries) && entries != [] {
      LongestFitStep(entries[1..], e);
      BytesAppend(entries, [e]);
      assert (entries + [e])[1..] == entries[1..] + [e];
    }
  }

  datatype Action = Request(entry: LogEntry) | ClearLogs

  // The log after a history of requests and clears.
  function Replay(actions: seq<Action>): Log {
    if actions == [] then Log([], 0)
    else
      var before, last := Replay(actions[..|actions| - 1]), actions[|actions| - 1];
      if last.ClearLogs? then Log([], 0) else Appended(before, last.entry)
  }

  // The entries requested since the last clear.
  function SinceClear(actions: seq<Action>): seq<LogEntry> {
    if actions == [] then []
    else
      var last := actions[|actions| - 1];
      if last.ClearLogs? then [] else SinceClear(actions[..|actions| - 1]) + [last.entry]
  }

  // After every history the log is the longest suffix of the entries since the last clear
  // that fits both limits, and the byte counter is exactly its size.
  lemma {:induction false} RetainedIsLongestSuffix(actions: seq<Action>)
    ensures Replay(actions).entries == LongestFit(SinceClear(actions))
    ensures Replay(actions).bytes == Bytes(Replay(actions).entries)
  {
    if actions != [] {
      var front, last := actions[..|actions| - 1], actions[|actions| - 1];
      RetainedIsLongestSuffix(front);
      if last.Request? {
        var before := Replay(front);
        EvictedMakesRoom(before, last.entry);
        LongestFitStep(SinceClear(front), last.entry);
        if EntryBytes(last.entry) > MaxTotalBytes {
          OversizedFitsNothing(before.entries, last.entry);
        } else {
          BytesAppend(Evicted(before, EntryBytes(last.entry)).entries, [last.entry]);
          assert Bytes([last.entry]) == EntryBytes(last.entry);
        }
      }
    }
  }
}
