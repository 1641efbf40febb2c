/** The ledger file as bytes: one encoded record and a newline per transaction, writes
    that may stop anywhere, and the repair of a torn last line. */
module LedgerBytes {
  import opened Wrappers
  import opened Ledger

  newtype Byte = x: int | 0 <= x < 256

  type Bytes = seq<Byte>

  const NEWLINE: Byte := 10

  /** How records become lines and back. */
  datatype Codec = Codec(encode: Record -> Bytes, decode: Bytes -> Option<Record>)

  /** Encoding can be undone, and never writes a newline. */
  ghost predicate Faithful(codec: Codec) {
    forall rec :: codec.decode(codec.encode(rec)) == Some(rec) && NEWLINE !in codec.encode(rec)
  }

  datatype ReadError = Torn | Invalid(number: nat)

  function Line(codec: Codec, rec: Record): (line: Bytes)
    ensures line != [] && line[|line| - 1] == NEWLINE
  {
    codec.encode(rec) + [NEWLINE]
  }

  function Written(codec: Codec, records: seq<Record>): Bytes {
    if records == [] then [] else Written(codec, records[..|records| - 1]) + Line(codec, records[|records| - 1])
  }

  predicate Numbered(records: seq<Record>, start: nat) {
    forall i :: 0 <= i < |records| ==> records[i].number == start + i + 1
  }

  /** The position of the first newline, or the length without one. */
  function FirstNewline(data: Bytes): (i: nat)
    ensures i <= |data| && (i < |data| ==> data[i] == NEWLINE)
    ensures forall k :: 0 <= k < i ==> data[k] != NEWLINE
  {
    if data == [] || data[0] == NEWLINE then 0
    else
      var n := FirstNewline(data[1..]);
      assert data[..n + 1] == [data[0]] + data[1..][..n];
      n + 1
  }

  /** The records on consecutive lines, numbered from start + 1. */
  function Parse(codec: Codec, data: Bytes, start: nat): Result<seq<Record>, ReadError>
    decreases |data|
  {
    if data == [] then Ok([])
    else
      var i := FirstNewline(data);
      match codec.decode(data[..i])
      case None => Err(Invalid(start + 1))
      case Some(rec) =>
        if rec.number != start + 1 then Err(Invalid(start + 1))
        else
          match Parse(codec, if i < |data| then data[i + 1..] else [], start + 1)
          case Err(e) => Err(e)
          case Ok(rest) => Ok([rec] + rest)
  }

  function Read(codec: Codec, data: Bytes): Result<seq<Record>, ReadError> {
    if data != [] && data[|data| - 1] != NEWLINE then Err(Torn) else Parse(codec, data, 0)
  }

  // ---------------------------------------------------------------- reading

  lemma {:induction false} FirstNewlineAt(line: Bytes, rest: Bytes)
    requires NEWLINE !in line
    ensures FirstNewline(line + [NEWLINE] + rest) == |line|
    decreases |line|
  {
    var data := line + [NEWLINE] + rest;
    if line != [] {
      assert data[0] == line[0] && line[0] in line;
      assert data[1..] == line[1..] + [NEWLINE] + rest;
      FirstNewlineAt(line[1..], rest);
    }
  }

  lemma ParseLine(codec: Codec, rec: Record, rest: Bytes, start: nat)
    requires Faithful(codec) && rec.number == start + 1
    ensures Parse(codec, Line(codec, rec) + rest, start) ==
            match Parse(codec, rest, start + 1) case Err(e) => Err(e) case Ok(more) => Ok([rec] + more)
  {
    var line := codec.encode(rec);
    var data := Line(codec, rec) + rest;
    FirstNewlineAt(line, rest);
    assert data == line + [NEWLINE] + rest;
    assert data[..|line|] == line && data[|line| + 1..] == rest;
  }

  lemma {:induction false} WrittenFirst(codec: Codec, records: seq<Record>)
    requires records != []
    ensures Written(codec, records) == Line(codec, records[0]) + Written(codec, records[1..])
    decreases |records|
  {
    var n := |records| - 1;
    if n == 0 {
      assert records[..0] == [] && records[1..] == [];
    } else {
      WrittenFirst(codec, records[..n]);
      assert records[..n][1..] == records[1..][..n - 1];
      assert records[1..][n - 1] == records[n];
    }
  }

  lemma {:induction false} ParseWritten(codec: Codec, records: seq<Record>, start: nat)
    requires Faithful(codec) && Numbered(records, start)
    ensures Parse(codec, Written(codec, records), start) == Ok(records)
    decreases |records|
  {
    if records != [] {
      WrittenFirst(codec, records);
      ParseWritten(codec, records[1..], start + 1);
      ParseLine(codec, records[0], Written(codec, records[1..]), start);
      assert [records[0]] + records[1..] == records;
    }
  }

  lemma WrittenEnds(codec: Codec, records: seq<Record>)
    ensures Written(codec, records) != [] ==> Written(codec, records)[|Written(codec, records)| - 1] == NEWLINE
  {
  }

  /** What was written is read back. */
  lemma ReadWritten(codec: Codec, records: seq<Record>)
    requires Faithful(codec) && Numbered(records, 0)
    ensures Read(codec, Written(codec, records)) == Ok(records)
  {
    WrittenEnds(codec, records);
    ParseWritten(codec, records, 0);
  }

  /** However many bytes of one more line reached the file, reading it gives the old
      records, the new records, or an error that says that the line is torn. */
  lemma EveryPrefix(codec: Codec, records: seq<Record>, rec: Record, n: nat)
    requires Faithful(codec) && Numbered(records, 0) && rec.number == |records| + 1
    requires n <= |Line(codec, rec)|
    ensures Read(codec, Written(codec, records) + Line(codec, rec)[..n])
         == if n == 0 then Ok(records)
            else if n == |Line(codec, rec)| then Ok(records + [rec])
            else Err(Torn)
  {
    var line := Line(codec, rec);
    var data := Written(codec, records) + line[..n];
    if n == 0 {
      assert data == Written(codec, records);
      ReadWritten(codec, records);
    } else if n == |line| {
      assert line[..n] == line;
      assert (records + [rec])[..|records|] == records;
      assert data == Written(codec, records + [rec]);
      ReadWritten(codec, records + [rec]);
    } else {
      assert data[|data| - 1] == line[n - 1] == codec.encode(rec)[n - 1];
    }
  }
}

/** Appending to the ledger file, and repairing it. */
module LedgerRepair {
  import opened Wrappers
  import opened Ledger
  import opened Receipts
  import opened Writers
  import opened LedgerBytes

  /** The unresolved reservation that blocks admissions until a repair is audited. */
  function Marker(id: string, now: real): Session {
    Session(id, "ledger-repair", "unknown", "repair", 0.0, Unresolved, now, None, None, true,
            None, map[], None, None, None, map[], None, None, "", None)
  }

  function MarkerRecord(st: State, id: string, t: Ticks): Record {
    RecordOf(st, [AccrueEvent(st, t.accrual), Admit(Marker(id, t.now))], t)
  }

  /** The bytes up to the last newline. */
  function Verified(data: Bytes): (prefix: Bytes)
    ensures |prefix| <= |data| && prefix == data[..|prefix|]
    ensures prefix != [] ==> prefix[|prefix| - 1] == NEWLINE
    ensures forall k :: |prefix| <= k < |data| ==> data[k] != NEWLINE
  {
    if data == [] || data[|data| - 1] == NEWLINE then data
    else
      var n := |data| - 1;
      var rest := Verified(data[..n]);
      assert data[|rest|..] == data[..n][|rest|..] + [data[n]];
      rest
  }

  lemma {:induction false} VerifiedOf(whole: Bytes, torn: Bytes)
    requires whole != [] ==> whole[|whole| - 1] == NEWLINE
    requires NEWLINE !in torn
    ensures Verified(whole + torn) == whole
    decreases |torn|
  {
    if torn == [] {
      assert whole + torn == whole;
    } else {
      var m := |torn| - 1;
      assert torn[m] in torn;
      assert (whole + torn)[..|whole| + m] == whole + torn[..m];
      VerifiedOf(whole, torn[..m]);
    }
  }

  function Joined(records: seq<Record>, rest: Result<seq<Record>, ReadError>): Result<seq<Record>, ReadError> {
    if rest.Err? then rest else Ok(records + rest.value)
  }

  lemma JoinedStep(records: seq<Record>, rec: Record, rest: Result<seq<Record>, ReadError>)
    ensures Joined(records, Joined([rec], rest)) == Joined(records + [rec], rest)
  {
    if rest.Ok? {
      assert records + ([rec] + rest.value) == records + [rec] + rest.value;
    }
  }

  lemma JoinedNothing(rest: Result<seq<Record>, ReadError>)
    ensures Joined([], rest) == rest
  {
    if rest.Ok? {
      assert [] + rest.value == rest.value;
    }
  }

  /** One line that decodes to the next record. */
  lemma ParsedLine(codec: Codec, data: Bytes, start: nat, rec: Record)
    requires data != [] && codec.decode(data[..FirstNewline(data)]) == Some(rec) && rec.number == start + 1
    ensures var i := FirstNewline(data);
            var more := if i < |data| then data[i + 1..] else [];
            Parse(codec, data, start) == Joined([rec], Parse(codec, more, start + 1))
  {
  }

  /** Reading one line moves its record to those that were read. */
  lemma LineRead(codec: Codec, records: seq<Record>, rest: Bytes, rec: Record)
    requires rest != [] && codec.decode(rest[..FirstNewline(rest)]) == Some(rec) && rec.number == |records| + 1
    ensures var i := FirstNewline(rest);
            var more := if i < |rest| then rest[i + 1..] else [];
            Joined(records, Parse(codec, rest, |records|))
            == Joined(records + [rec], Parse(codec, more, |records + [rec]|))
  {
    var i := FirstNewline(rest);
    ParsedLine(codec, rest, |records|, rec);
    JoinedStep(records, rec, Parse(codec, if i < |rest| then rest[i + 1..] else [], |records| + 1));
  }

  class LedgerFile {
    const codec: Codec
    var data: Bytes

    constructor (codec: Codec)
      ensures this.codec == codec && data == []
    {
      this.codec := codec;
      data := [];
    }

    /** Reads all records, line by line. */
    method Records() returns (result: Result<seq<Record>, ReadError>)
      ensures result == Read(codec, data)
    {
      if data != [] && data[|data| - 1] != NEWLINE {
        return Err(Torn);
      }
      var records, rest := [], data;
      JoinedNothing(Parse(codec, data, 0));
      while rest != []
        invariant Parse(codec, data, 0) == Joined(records, Parse(codec, rest, |records|))
        decreases |rest|
      {
        var i := FirstNewline(rest);
        var rec := codec.decode(rest[..i]);
        if rec.None? || rec.value.number != |records| + 1 {
          return Err(Invalid(|records| + 1));
        }
        LineRead(codec, records, rest, rec.value);
        rest := if i < |rest| then rest[i + 1..] else [];
        records := records + [rec.value];
      }
      assert records + [] == records;
      return Ok(records);
    }

    /** Writes a line; each write may accept fewer bytes than offered, or none, which
        ends the attempt. */
    method Append(line: Bytes, accepted: seq<nat>) returns (ok: bool, n: nat)
      modifies this`data
      ensures n <= |line| && data == old(data) + line[..n]
      ensures ok ==> n == |line|
    {
      n := 0;
      ok := true;
      var i := 0;
      while n < |line|
        invariant n <= |line| && data == old(data) + line[..n]
        decreases |line| - n
      {
        if i >= |accepted| || accepted[i] == 0 {
          return false, n;
        }
        var written := if accepted[i] <= |line| - n then accepted[i] else |line| - n;
        assert line[..n] + line[n..n + written] == line[..n + written];
        data := data + line[n..n + written];
        n, i := n + written, i + 1;
      }
    }

    /** One writer call: nothing is written unless all records can be read. */
    method Write(queue: Option<Queue>, op: Op, t: Ticks, accepted: seq<nat>) returns (ok: bool, appended: Bytes)
      modifies this`data
      ensures data == old(data) + appended
      ensures Read(codec, old(data)).Err? ==> !ok && appended == []
      ensures Read(codec, old(data)).Ok? ==>
                var files := Files(Read(codec, old(data)).value, queue);
                exists n :: 0 <= n <= |LineOf(codec, files, op, t)| && appended == LineOf(codec, files, op, t)[..n]
    {
      var records := Records();
      if records.Err? {
        return false, [];
      }
      var files := Files(records.value, queue);
      var line := LineOf(codec, files, op, t);
      var n;
      ok, n := Append(line, accepted);
      return ok, line[..n];
    }

    /** Finds the last newline. */
    method VerifiedPrefix() returns (prefix: Bytes)
      ensures prefix == Verified(data)
    {
      var n := |data|;
      while n > 0 && data[n - 1] != NEWLINE
        invariant 0 <= n <= |data| && Verified(data[..n]) == Verified(data)
      {
        assert data[..n][..n - 1] == data[..n - 1];
        n := n - 1;
      }
      assert Verified(data[..n]) == data[..n];
      return data[..n];
    }

    /** Replaces a torn ledger by its verified records and one unresolved marker. The
        damaged bytes are returned as the archive. */
    method Repair(noted: bool, id: string, t: Ticks) returns (archive: Option<Bytes>)
      modifies this`data
      ensures archive.Some? <==>
                && noted
                && (old(data) == [] || old(data)[|old(data)| - 1] != NEWLINE)
                && Parse(codec, Verified(old(data)), 0).Ok?
                && Replay(Parse(codec, Verified(old(data)), 0).value).Some?
      ensures archive.None? ==> data == old(data)
      ensures archive.Some? ==>
                && archive.value == old(data)
                && data == Repaired(codec, old(data), id, t)
    {
      if !noted || (data != [] && data[|data| - 1] == NEWLINE) {
        return None;
      }
      var prefix := VerifiedPrefix();
      var records := Parse(codec, prefix, 0);
      if records.Err? || Replay(records.value).None? {
        return None;
      }
      var st := Replay(records.value).value;
      archive := Some(data);
      data := prefix + Line(codec, MarkerRecord(st, id, t));
    }
  }

  function Repaired(codec: Codec, data: Bytes, id: string, t: Ticks): Bytes
    requires Parse(codec, Verified(data), 0).Ok? && Replay(Parse(codec, Verified(data), 0).value).Some?
  {
    Verified(data) + Line(codec, MarkerRecord(Replay(Parse(codec, Verified(data), 0).value).value, id, t))
  }

  /** Repairing any torn write gives back exactly the old records and one marker, which
      is numbered as the next record and blocks every admission. */
  lemma RepairKeepsRecords(codec: Codec, records: seq<Record>, rec: Record, n: nat, id: string, t: Ticks)
    requires Faithful(codec) && Numbered(records, 0) && Replay(records).Some?
    requires 0 < n < |Line(codec, rec)|
    ensures var torn := Written(codec, records) + Line(codec, rec)[..n];
            var marker := MarkerRecord(Replay(records).value, id, t);
            && Parse(codec, Verified(torn), 0) == Ok(records)
            && marker.number == |records| + 1
            && Read(codec, Repaired(codec, torn, id, t)) == Ok(records + [marker])
  {
    TornPrefix(codec, records, rec, n);
    ParseWritten(codec, records, 0);
    ReplayNumber(records);
    var marker := MarkerRecord(Replay(records).value, id, t);
    WrittenLast(codec, records, marker);
    ReadWritten(codec, records + [marker]);
  }

  /** The part up to the last newline of a torn file is what was written before. */
  lemma TornPrefix(codec: Codec, records: seq<Record>, rec: Record, n: nat)
    requires Faithful(codec) && n < |Line(codec, rec)|
    ensures Verified(Written(codec, records) + Line(codec, rec)[..n]) == Written(codec, records)
  {
    assert Line(codec, rec)[..n] == codec.encode(rec)[..n];
    WrittenEnds(codec, records);
    VerifiedOf(Written(codec, records), Line(codec, rec)[..n]);
  }

  lemma WrittenLast(codec: Codec, records: seq<Record>, rec: Record)
    ensures Written(codec, records + [rec]) == Written(codec, records) + Line(codec, rec)
  {
    assert (records + [rec])[..|records|] == records;
  }

  /** The line that a writer call offers to the file, empty when it appends nothing. */
  function LineOf(codec: Codec, files: Files, op: Op, t: Ticks): Bytes {
    var after := Step(files, op, t).ledger;
    if |after| == |files.ledger| + 1 then Line(codec, after[|files.ledger|]) else []
  }
}
