/**
 The append-only event journal of one run: parsing, torn-tail repair, and the
 `RunJournal` object that appends to it (src/persistence/journal.ts).
 */
module Journal {
  import opened Outcomes
  import opened JournalText

  const MAX_EVENT_BYTES := 64 * 1024
  const MAX_JOURNAL_BYTES := 16 * 1024 * 1024

  datatype Corruption = EmptyRecord(line: nat) | InvalidRecord(line: nat) | OutOfOrder(line: nat)

  /** Index of the first newline, or the length when there is none. */
  function NewlineAt(s: seq<byte>): (i: nat)
    ensures i <= |s| && NoNewline(s[..i]) && (i < |s| ==> s[i] == NEWLINE)
  {
    if s == [] || s[0] == NEWLINE then 0 else 1 + NewlineAt(s[1..])
  }

  function ParseFrom(s: seq<byte>, runId: seq<byte>, events: seq<Event>): Result<seq<Event>, Corruption>
    decreases |s|
  {
    var i := NewlineAt(s);
    if i == |s| then Ok(events)
    else if i == 0 then Err(EmptyRecord(|events| + 1))
    else match Decode(s[..i])
      case None => Err(InvalidRecord(|events| + 1))
      case Some(event) =>
        if event.runId != runId || event.sequence != |events| + 1 then Err(OutOfOrder(|events| + 1))
        else ParseFrom(s[i + 1..], runId, events + [event])
  }

  /** The events of a journal file; bytes after the last newline are a torn record. */
  function Parse(content: seq<byte>, runId: seq<byte>): Result<seq<Event>, Corruption> {
    ParseFrom(content, runId, [])
  }

  method ParseJournal(content: seq<byte>, runId: seq<byte>) returns (r: Result<seq<Event>, Corruption>)
    ensures r == Parse(content, runId)
  {
    var rest, events := content, [];
    while true
      invariant ParseFrom(rest, runId, events) == Parse(content, runId)
      decreases |rest|
    {
      var i := NewlineAt(rest);
      if i == |rest| { return Ok(events); }
      if i == 0 { return Err(EmptyRecord(|events| + 1)); }
      match Decode(rest[..i]) {
        case None => return Err(InvalidRecord(|events| + 1));
        case Some(event) =>
          if event.runId != runId || event.sequence != |events| + 1 { return Err(OutOfOrder(|events| + 1)); }
          rest, events := rest[i + 1..], events + [event];
      }
    }
  }

  /** The file after repair: everything up to and including the last newline. */
  function Repaired(content: seq<byte>): (r: seq<byte>)
    ensures r <= content
  {
    if content == [] || content[|content| - 1] == NEWLINE then content
    else Repaired(content[..|content| - 1])
  }

  predicate EndsComplete(content: seq<byte>) {
    content == [] || content[|content| - 1] == NEWLINE
  }

  // ----- what a journal file means -----

  /** Sequences 1..n of one run, each exactly once. */
  ghost predicate WellSequenced(events: seq<Event>, runId: seq<byte>) {
    forall i :: 0 <= i < |events| ==> events[i].sequence == i + 1 && events[i].runId == runId
  }

  function Joined(texts: seq<seq<byte>>): seq<byte> {
    if texts == [] then [] else texts[0] + [NEWLINE] + Joined(texts[1..])
  }

  ghost predicate Denotes(texts: seq<seq<byte>>, events: seq<Event>) {
    && |texts| == |events|
    && forall i :: 0 <= i < |texts| ==> NoNewline(texts[i]) && Decode(texts[i]) == Some(events[i])
  }

  lemma {:induction false} NewlineAtIs(line: seq<byte>, rest: seq<byte>)
    requires NoNewline(line)
    ensures NewlineAt(line + [NEWLINE] + rest) == |line|
  {
    var s := line + [NEWLINE] + rest;
    if line == [] {
      assert s[0] == NEWLINE;
    } else {
      assert s[1..] == line[1..] + [NEWLINE] + rest;
      NewlineAtIs(line[1..], rest);
    }
  }

  lemma NoNewlineAt(s: seq<byte>)
    requires NoNewline(s)
    ensures NewlineAt(s) == |s|
  {}

  /** One complete line that carries the next event. */
  lemma ParseLine(line: seq<byte>, rest: seq<byte>, runId: seq<byte>, done: seq<Event>, e: Event)
    requires NoNewline(line) && Decode(line) == Some(e) && e.runId == runId && e.sequence == |done| + 1
    ensures ParseFrom(line + [NEWLINE] + rest, runId, done) == ParseFrom(rest, runId, done + [e])
  {
    var s := line + [NEWLINE] + rest;
    NewlineAtIs(line, rest);
    assert s[..|line|] == line && s[|line| + 1..] == rest;
  }

  /** The events carry the sequence numbers after `n`. */
  ghost predicate Follow(events: seq<Event>, n: nat, runId: seq<byte>) {
    forall i :: 0 <= i < |events| ==> events[i].sequence == n + i + 1 && events[i].runId == runId
  }

  lemma ParseFirst(texts: seq<seq<byte>>, events: seq<Event>, rest: seq<byte>, runId: seq<byte>, done: seq<Event>)
    requires texts != [] && Denotes(texts, events) && Follow(events, |done|, runId)
    ensures ParseFrom(Joined(texts) + rest, runId, done) == ParseFrom(Joined(texts[1..]) + rest, runId, done + [events[0]])
  {
    var after := Joined(texts[1..]) + rest;
    assert Joined(texts) + rest == texts[0] + [NEWLINE] + after;
    ParseLine(texts[0], after, runId, done, events[0]);
  }

  /** What holds of all the lines holds of all but the first. */
  lemma AllButFirst(texts: seq<seq<byte>>, events: seq<Event>, n: nat, runId: seq<byte>)
    requires texts != [] && Denotes(texts, events) && Follow(events, n, runId)
    ensures Denotes(texts[1..], events[1..]) && Follow(events[1..], n + 1, runId)
  {}

  lemma {:induction false} ParseThen(texts: seq<seq<byte>>, events: seq<Event>, rest: seq<byte>,
                                     runId: seq<byte>, done: seq<Event>, all: seq<Event>)
    requires Denotes(texts, events) && Follow(events, |done|, runId) && all == done + events
    ensures ParseFrom(Joined(texts) + rest, runId, done) == ParseFrom(rest, runId, all)
    decreases |texts|
  {
    if texts == [] {
      assert Joined(texts) + rest == rest && all == done;
    } else {
      var doneNow := done + [events[0]];
      assert all == doneNow + events[1..];
      ParseFirst(texts, events, rest, runId, done);
      AllButFirst(texts, events, |done|, runId);
      ParseThen(texts[1..], events[1..], rest, runId, doneNow, all);
    }
  }

  lemma ParseComplete(texts: seq<seq<byte>>, events: seq<Event>, torn: seq<byte>, runId: seq<byte>)
    requires Denotes(texts, events) && NoNewline(torn) && WellSequenced(events, runId)
    ensures ParseFrom(Joined(texts) + torn, runId, []) == Ok(events)
  {
    ParseThen(texts, events, torn, runId, [], events);
    NoNewlineAt(torn);
  }

  /** The complete lines of a file, in order, without their newlines. */
  function Records(s: seq<byte>): seq<seq<byte>>
    decreases |s|
  {
    var i := NewlineAt(s);
    if i == |s| then [] else [s[..i]] + Records(s[i + 1..])
  }

  lemma {:induction false} JoinedRecords(s: seq<byte>)
    ensures Joined(Records(s)) == Repaired(s)
    ensures NoNewline(s[|Repaired(s)|..])
    decreases |s|
  {
    var i := NewlineAt(s);
    if i == |s| {
      NothingComplete(s);
    } else {
      JoinedRecords(s[i + 1..]);
      OneRecord(s, i);
    }
  }

  /** The first record and what follows it, joined and repaired on its own. */
  lemma OneRecord(s: seq<byte>, i: nat)
    requires i == NewlineAt(s) < |s|
    ensures var rest := s[i + 1..];
            && Joined(Records(s)) == s[..i] + [NEWLINE] + Joined(Records(rest))
            && Repaired(s) == s[..i] + [NEWLINE] + Repaired(rest) && s[|Repaired(s)|..] == rest[|Repaired(rest)|..]
  {
    var line, rest := s[..i + 1], s[i + 1..];
    assert s == line + rest && line == s[..i] + [NEWLINE];
    assert Records(s)[1..] == Records(rest);
    RepairedAfter(line, rest);
    DropBoth(line, rest, |Repaired(rest)|);
  }

  lemma DropBoth(line: seq<byte>, rest: seq<byte>, k: nat)
    requires k <= |rest|
    ensures (line + rest)[|line| + k..] == rest[k..]
  {}

  lemma {:induction false} ParseSound(s: seq<byte>, runId: seq<byte>, done: seq<Event>)
    requires ParseFrom(s, runId, done).Ok?
    ensures done <= ParseFrom(s, runId, done).value
    ensures Follow(ParseFrom(s, runId, done).value[|done|..], |done|, runId)
    ensures Denotes(Records(s), ParseFrom(s, runId, done).value[|done|..])
    decreases |s|
  {
    var i := NewlineAt(s);
    var all := ParseFrom(s, runId, done).value;
    if i < |s| {
      var event := Decode(s[..i]).value;
      ParseSound(s[i + 1..], runId, done + [event]);
      assert all[|done|] == event;
      OneMoreEvent(s[..i], event, Records(s[i + 1..]), all[|done| + 1..], |done|, runId);
      assert all[|done|..] == [event] + all[|done| + 1..];
    }
  }

  lemma OneMoreEvent(text: seq<byte>, e: Event, texts: seq<seq<byte>>, events: seq<Event>, n: nat, runId: seq<byte>)
    requires NoNewline(text) && Decode(text) == Some(e) && e.sequence == n + 1 && e.runId == runId
    requires Denotes(texts, events) && Follow(events, n + 1, runId)
    ensures Denotes([text] + texts, [e] + events) && Follow([e] + events, n, runId)
  {}

  lemma ParsedFile(content: seq<byte>, runId: seq<byte>)
    requires Parse(content, runId).Ok?
    ensures Denotes(Records(content), Parse(content, runId).value)
    ensures WellSequenced(Parse(content, runId).value, runId)
    ensures Joined(Records(content)) == Repaired(content) && NoNewline(content[|Repaired(content)|..])
    ensures EndsComplete(content) ==> Joined(Records(content)) == content
  {
    ParseSound(content, runId, []);
    JoinedRecords(content);
  }

  lemma {:induction false} NothingComplete(s: seq<byte>)
    requires NoNewline(s)
    ensures Repaired(s) == []
  {
    if s != [] { NothingComplete(s[..|s| - 1]); }
  }

  lemma {:induction false} RepairedAfter(complete: seq<byte>, rest: seq<byte>)
    requires EndsComplete(complete) && complete != []
    ensures Repaired(complete + rest) == complete + Repaired(rest)
    decreases |rest|
  {
    var s := complete + rest;
    if rest == [] {
      assert s == complete && complete + [] == complete;
    } else if rest[|rest| - 1] != NEWLINE {
      assert s[..|s| - 1] == complete + rest[..|rest| - 1];
      RepairedAfter(complete, rest[..|rest| - 1]);
    }
  }

  /**
   A file parses exactly when it is a run of newline-ended lines that decode to
   sequences 1..n of this run, followed by a tail without a newline; the events
   are then those of the lines, never more.
   */
  lemma ParseExactly(content: seq<byte>, runId: seq<byte>, events: seq<Event>)
    ensures Parse(content, runId) == Ok(events) <==>
            exists texts: seq<seq<byte>>, torn: seq<byte> ::
              content == Joined(texts) + torn && NoNewline(torn) && Denotes(texts, events) && WellSequenced(events, runId)
  {
    if Parse(content, runId) == Ok(events) {
      ParsedFile(content, runId);
      var texts, torn := Records(content), content[|Repaired(content)|..];
      assert content == Joined(texts) + torn;
    }
    if texts: seq<seq<byte>>, torn: seq<byte> :|
      content == Joined(texts) + torn && NoNewline(torn) && Denotes(texts, events) && WellSequenced(events, runId)
    {
      assert [] + events == events;
      ParseComplete(texts, events, torn, runId);
    }
  }

  /** Repair removes only the torn tail and changes no event. */
  lemma RepairKeepsEvents(content: seq<byte>, runId: seq<byte>)
    requires Parse(content, runId).Ok?
    ensures Parse(Repaired(content), runId) == Parse(content, runId)
    ensures EndsComplete(Repaired(content))
    ensures NoNewline(content[|Repaired(content)|..])
  {
    ParsedFile(content, runId);
    var texts, events := Records(content), Parse(content, runId).value;
    assert [] + events == events;
    assert Repaired(content) == Joined(texts) + [];
    assert NoNewline([]);
    ParseComplete(texts, events, [], runId);
    RepairedEndsComplete(content);
  }

  lemma {:induction false} RepairedEndsComplete(content: seq<byte>)
    ensures EndsComplete(Repaired(content))
  {
    if content != [] && content[|content| - 1] != NEWLINE { RepairedEndsComplete(content[..|content| - 1]); }
  }

  /**
   Appending a line to a complete file keeps it readable exactly when the line
   carries the next sequence number of the same run.
   */
  lemma AppendParsesExactly(content: seq<byte>, runId: seq<byte>, e: Event)
    requires Parse(content, runId).Ok? && EndsComplete(content)
    ensures Parse(content + Line(e), runId).Ok? <==>
            e.runId == runId && e.sequence == |Parse(content, runId).value| + 1
    ensures Parse(content + Line(e), runId).Ok? ==>
              Parse(content + Line(e), runId).value == Parse(content, runId).value + [e]
  {
    ParsedFile(content, runId);
    var texts, events := Records(content), Parse(content, runId).value;
    assert [] + events == events;
    DecodeEncode(e);
    EncodeHasNoNewline(e);
    ParseThen(texts, events, Line(e), runId, [], events);
    NewlineAtIs(Encode(e), []);
    assert Encode(e) + [NEWLINE] + [] == Line(e);
    assert Line(e)[..|Encode(e)|] == Encode(e);
    assert Line(e)[|Encode(e)| + 1..] == [];
    if e.runId == runId && e.sequence == |events| + 1 {
      assert ParseFrom([], runId, events + [e]) == Ok(events + [e]);
    }
  }

  /**
   An append cut at any byte: the file still parses, to the old events when the
   newline did not reach the disk and to one more when it did; what repair
   leaves is complete and holds exactly those events.
   */
  lemma CrashedAppend(content: seq<byte>, runId: seq<byte>, e: Event, cut: nat)
    requires Parse(content, runId).Ok? && EndsComplete(content)
    requires e.runId == runId && e.sequence == |Parse(content, runId).value| + 1
    requires cut <= |Line(e)|
    ensures var events := Parse(content, runId).value;
            var torn := content + Line(e)[..cut];
            && Parse(torn, runId) == Ok(if cut < |Line(e)| then events else events + [e])
            && Repaired(torn) == (if cut < |Line(e)| then content else torn)
  {
    if cut == |Line(e)| {
      assert Line(e)[..cut] == Line(e);
      AppendParsesExactly(content, runId, e);
    } else {
      var part := Line(e)[..cut];
      EncodeHasNoNewline(e);
      assert forall i :: 0 <= i < |part| ==> part[i] == Encode(e)[i];
      ParsedFile(content, runId);
      var texts, events := Records(content), Parse(content, runId).value;
      assert [] + events == events;
      ParseComplete(texts, events, part, runId);
      NothingComplete(part);
      if content != [] {
        RepairedAfter(content, part);
        assert content + [] == content;
      } else {
        assert content + part == part;
      }
    }
  }

  // ----- the journal object -----

  datatype Snapshot = Snapshot(runId: seq<byte>, lastSequence: nat, state: seq<byte>)

  datatype JournalError =
    | LeaseMismatch
    | LeaseFenced
    | TooLarge
    | InvalidEvent
    | Corrupt(reason: Corruption)
    | SnapshotMismatch

  /** `events.jsonl` and `run.json` of one run. */
  class RunDirectory {
    var journal: Option<seq<byte>>
    var snapshot: Option<Snapshot>

    constructor ()
      ensures journal == None && snapshot == None
    {
      journal, snapshot := None, None;
    }

    function Content(): seq<byte>
      reads this
    {
      if journal.Some? then journal.value else []
    }
  }

  class RunJournal {
    const runId: seq<byte>
    const directory: RunDirectory
    var sequence: nat

    /** The file is complete, readable, and ends at this object's sequence. */
    ghost predicate Valid()
      reads this, directory
    {
      && EndsComplete(directory.Content())
      && Parse(directory.Content(), runId).Ok?
      && |Events()| == sequence
    }

    ghost function Events(): seq<Event>
      reads this, directory
      requires Parse(directory.Content(), runId).Ok?
    {
      Parse(directory.Content(), runId).value
    }

    constructor (runId: seq<byte>, directory: RunDirectory, sequence: nat)
      ensures this.runId == runId && this.directory == directory && this.sequence == sequence
    {
      this.runId, this.directory, this.sequence := runId, directory, sequence;
    }

    /**
     Opens the journal under a lease: repairs a torn tail and continues after
     the last durable event. `leaseCurrent` is the answer of `assertCurrent`.
     */
    static method Open(directory: RunDirectory, runId: seq<byte>, leaseRunId: seq<byte>, leaseCurrent: bool)
        returns (r: Result<RunJournal, JournalError>)
      modifies directory
      ensures directory.snapshot == old(directory.snapshot)
      ensures r.Ok? ==> fresh(r.value) && r.value.directory == directory && r.value.runId == runId && r.value.Valid()
      ensures r.Ok? <==> leaseRunId == runId && leaseCurrent
                         && |old(directory.Content())| <= MAX_JOURNAL_BYTES && Parse(old(directory.Content()), runId).Ok?
      ensures r.Ok? ==> directory.Content() == Repaired(old(directory.Content()))
                        && r.value.Events() == Parse(old(directory.Content()), runId).value
      ensures r.Err? ==> directory.journal == old(directory.journal)
    {
      if leaseRunId != runId { return Err(LeaseMismatch); }
      if !leaseCurrent { return Err(LeaseFenced); }
      var events := [];
      if directory.journal.Some? {
        var content := directory.journal.value;
        if |content| > MAX_JOURNAL_BYTES { return Err(TooLarge); }
        var parsed := ParseJournal(content, runId);
        if parsed.Err? { return Err(Corrupt(parsed.error)); }
        events := parsed.value;
        RepairKeepsEvents(content, runId);
        directory.journal := Some(Repaired(content));
      } else {
        NoNewlineAt([]);
      }
      var journal := new RunJournal(runId, directory, |events|);
      r := Ok(journal);
    }

    method Append(kind: seq<byte>, data: seq<byte>, leaseCurrent: bool) returns (r: Result<Event, JournalError>)
      requires Valid()
      modifies this, directory
      ensures Valid() && directory.snapshot == old(directory.snapshot)
      ensures r.Ok? ==> r.value == Event(old(sequence) + 1, runId, kind, data)
                        && directory.Content() == old(directory.Content()) + Line(r.value)
                        && Events() == old(Events()) + [r.value]
      ensures r.Err? ==> directory.journal == old(directory.journal) && sequence == old(sequence)
      ensures r.Ok? <==> leaseCurrent && 1 <= |kind| <= 128
                         && |Line(Event(old(sequence) + 1, runId, kind, data))| <= MAX_EVENT_BYTES
                         && |old(directory.Content())| + |Line(Event(old(sequence) + 1, runId, kind, data))| <= MAX_JOURNAL_BYTES
    {
      if !leaseCurrent { return Err(LeaseFenced); }
      var event := Event(sequence + 1, runId, kind, data);
      if !(1 <= |kind| <= 128) { return Err(InvalidEvent); }
      var line := Line(event);
      if |line| > MAX_EVENT_BYTES { return Err(TooLarge); }
      if directory.journal.Some? && |directory.journal.value| + |line| > MAX_JOURNAL_BYTES { return Err(TooLarge); }
      AppendParsesExactly(directory.Content(), runId, event);
      directory.journal := Some(directory.Content() + line);
      sequence := event.sequence;
      r := Ok(event);
    }

    method ReadEvents() returns (r: Result<seq<Event>, JournalError>)
      requires Valid()
      ensures r == if |directory.Content()| > MAX_JOURNAL_BYTES then Err(TooLarge) else Ok(Events())
    {
      if directory.journal.None? {
        NoNewlineAt([]);
        return Ok([]);
      }
      if |directory.journal.value| > MAX_JOURNAL_BYTES { return Err(TooLarge); }
      var parsed := ParseJournal(directory.journal.value, runId);
      r := Ok(parsed.value);
    }

    method WriteSnapshot(state: seq<byte>, leaseCurrent: bool) returns (r: Result<Snapshot, JournalError>)
      requires Valid()
      modifies directory
      ensures Valid() && directory.journal == old(directory.journal)
      ensures r.Ok? <==> leaseCurrent
      ensures r.Ok? ==> directory.snapshot == Some(r.value) && r.value == Snapshot(runId, |Events()|, state)
      ensures r.Err? ==> directory.snapshot == old(directory.snapshot)
    {
      if !leaseCurrent { return Err(LeaseFenced); }
      var snapshot := Snapshot(runId, sequence, state);
      directory.snapshot := Some(snapshot);
      r := Ok(snapshot);
    }

    /** Never returns a snapshot that claims events this journal does not hold. */
    method ReadSnapshot() returns (r: Result<Option<Snapshot>, JournalError>)
      requires Valid()
      ensures r.Ok? && r.value.Some? ==>
                && r.value == directory.snapshot
                && r.value.value.runId == runId && r.value.value.lastSequence <= |Events()|
      ensures r.Err? <==>
                && directory.snapshot.Some?
                && (directory.snapshot.value.runId != runId || directory.snapshot.value.lastSequence > |Events()|)
      ensures r == Ok(None) <==> directory.snapshot == None
    {
      match directory.snapshot
      case None => r := Ok(None);
      case Some(found) =>
        if found.runId != runId || found.lastSequence > sequence {
          r := Err(SnapshotMismatch);
        } else {
          r := Ok(directory.snapshot);
        }
    }
  }
}
