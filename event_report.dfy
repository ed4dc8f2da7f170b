/**
 * Decoding of the lock's undocumented `eventReport` attribute: byte 0 is the
 * user id, byte 1 is reserved, byte 2 the reason code and byte 3 the source.
 * The two lookup tables are object literals keyed by number literals and
 * indexed with the buffer's bytes. A number indexes exactly the entry written
 * with the same number literal (JsValues.NumberIndexesNumberKey), so the
 * tables are kept here as maps from those numbers; a byte past the end of the
 * buffer reads as `undefined`, whose property name "undefined" is no number's
 * name (JsValues.UndefinedIsNoNumberKey), so it finds nothing.
 */
module EventReport {
  import opened Results
  import opened JsValues

  /** The tokens handed to the `lock_event` trigger. */
  datatype LockEvent = LockEvent(userId: JsValue, reason: string, source: string)

  const SourceMap: map<nat, string> := map[
    0x02 := "Keypad",
    0x04 := "RF",
    0x0A := "Remote"
  ]

  const ReasonMap: map<nat, string> := map[
    0x00 := "Unknown",
    0x01 := "Lock",
    0x02 := "Unlock",
    0x03 := "Lock failure invalid PIN or ID",
    0x04 := "Lock failure invalid schedule",
    0x05 := "Unlock failure invalid PIN or ID",
    0x06 := "Unlock failure invalid schedule",
    0x07 := "One touch lock",
    0x08 := "Key lock",
    0x09 := "Key unlock",
    0x0A := "Auto lock",
    0x0B := "Schedule lock",
    0x0C := "Schedule unlock",
    0x0D := "Manual lock (Key or Thumbturn)",
    0x0E := "Manual unlock (Key or Thumbturn)",
    0x0F := "Non-Access user operational event"
  ]

  /** The sixteen reason texts in code order: the reason enumeration the table is meant to spell out. */
  const ReasonTexts: seq<string> := [
    "Unknown", "Lock", "Unlock", "Lock failure invalid PIN or ID",
    "Lock failure invalid schedule", "Unlock failure invalid PIN or ID",
    "Unlock failure invalid schedule", "One touch lock", "Key lock", "Key unlock",
    "Auto lock", "Schedule lock", "Schedule unlock", "Manual lock (Key or Thumbturn)",
    "Manual unlock (Key or Thumbturn)", "Non-Access user operational event"
  ]

  /** `event[i]` on a Node.js Buffer: the byte, or None (`undefined`) past the end. */
  function ByteAt(event: seq<uint8>, i: nat): Option<uint8> {
    if i < |event| then Some(event[i]) else None
  }

  /** `table[code]` for a table keyed by number literals. */
  function LookupCode(table: map<nat, string>, code: Option<uint8>): Option<string> {
    if code.Some? && code.value in table then Some(table[code.value]) else None
  }

  /** `sourceMap[event[3]] || 'Unknown'`. */
  function SourceText(code: Option<uint8>): string {
    OrElse(LookupCode(SourceMap, code), "Unknown")
  }

  /** `reasonMap[event[2]] || 'Unknown'`. */
  function ReasonText(code: Option<uint8>): string {
    OrElse(LookupCode(ReasonMap, code), "Unknown")
  }

  /** `event[i]` as a JavaScript value: the byte as a number, or `undefined` past the end. */
  function ByteValue(code: Option<uint8>): JsValue {
    if code.Some? then Num(code.value) else Undefined
  }

  /** The `attr.eventReport` listener's translation of a report into trigger tokens. */
  function DecodeEventReport(event: seq<uint8>): LockEvent {
    LockEvent(ByteValue(ByteAt(event, 0)), ReasonText(ByteAt(event, 2)), SourceText(ByteAt(event, 3)))
  }

  // The tables as the object literals the listener writes

  /** `sourceMap`: its number-literal keys are the property names "2", "4" and "10". */
  const SourceLiteral: map<string, string> := map[
    "2" := "Keypad",
    "4" := "RF",
    "10" := "Remote"
  ]

  /** `reasonMap`, keyed by the property names of its number literals. */
  const ReasonLiteral: map<string, string> := map[
    "0" := "Unknown",
    "1" := "Lock",
    "2" := "Unlock",
    "3" := "Lock failure invalid PIN or ID",
    "4" := "Lock failure invalid schedule",
    "5" := "Unlock failure invalid PIN or ID",
    "6" := "Unlock failure invalid schedule",
    "7" := "One touch lock",
    "8" := "Key lock",
    "9" := "Key unlock",
    "10" := "Auto lock",
    "11" := "Schedule lock",
    "12" := "Schedule unlock",
    "13" := "Manual lock (Key or Thumbturn)",
    "14" := "Manual unlock (Key or Thumbturn)",
    "15" := "Non-Access user operational event"
  ]

  /**
   * An object literal whose keys are number literals, indexed with a byte or with `undefined`,
   * finds what the map from those numbers finds.
   */
  lemma NumberTableAgrees(m: map<nat, string>, literal: map<string, string>, code: Option<uint8>)
    requires forall k :: k in m ==> NumberKey(k) in literal && literal[NumberKey(k)] == m[k]
    requires forall key :: key in literal ==> exists k :: k in m && key == NumberKey(k)
    ensures LookupCode(m, code) == Lookup(literal, ByteValue(code))
  {
    var key := PropertyKey(ByteValue(code));
    if key in literal {
      var k :| k in m && key == NumberKey(k);
      if code.None? {
        UndefinedIsNoNumberKey(k);
        assert false;
      }
      NumberIndexesNumberKey(code.value, k);
    } else if code.Some? && code.value in m {
      NumberIndexesNumberKey(code.value, code.value);
    }
  }

  /** `sourceMap[event[3]]` finds what the number-indexed SourceMap finds. */
  lemma SourceTableIsObjectLiteral(code: Option<uint8>)
    ensures LookupCode(SourceMap, code) == Lookup(SourceLiteral, ByteValue(code))
  {
    SmallNumberKeys();
    forall key | key in SourceLiteral ensures exists k :: k in SourceMap && key == NumberKey(k) {
      if key == "2" { assert 0x02 in SourceMap; }
      else if key == "4" { assert 0x04 in SourceMap; }
      else { assert 0x0A in SourceMap; }
    }
    NumberTableAgrees(SourceMap, SourceLiteral, code);
  }

  /** `reasonMap[event[2]]` finds what the number-indexed ReasonMap finds. */
  lemma ReasonTableIsObjectLiteral(code: Option<uint8>)
    ensures LookupCode(ReasonMap, code) == Lookup(ReasonLiteral, ByteValue(code))
  {
    ReasonLiteralHasMapEntries();
    ReasonLiteralKeysAreNumbers();
    NumberTableAgrees(ReasonMap, ReasonLiteral, code);
  }

  /** Every code of ReasonMap names a property of `reasonMap` holding the same text. */
  lemma ReasonLiteralHasMapEntries()
    ensures forall k :: k in ReasonMap ==> NumberKey(k) in ReasonLiteral && ReasonLiteral[NumberKey(k)] == ReasonMap[k]
  {
    SmallNumberKeys();
  }

  /** Every property of `reasonMap` is the name of a code of ReasonMap. */
  lemma ReasonLiteralKeysAreNumbers()
    ensures forall key :: key in ReasonLiteral ==> exists k :: k in ReasonMap && key == NumberKey(k)
  {
    SmallNumberKeys();
    forall key | key in ReasonLiteral ensures exists k :: k in ReasonMap && key == NumberKey(k) {
      var k :| 0 <= k < 16 && key == NumberKey(k);
      assert k in ReasonMap;
    }
  }

  /** The property names of the number literals 0 to 15. */
  lemma SmallNumberKeys()
    ensures NumberKey(0) == "0" && NumberKey(1) == "1" && NumberKey(2) == "2" && NumberKey(3) == "3" && NumberKey(4) == "4" && NumberKey(5) == "5" && NumberKey(6) == "6" && NumberKey(7) == "7" && NumberKey(8) == "8" && NumberKey(9) == "9" && NumberKey(10) == "10" && NumberKey(11) == "11" && NumberKey(12) == "12" && NumberKey(13) == "13" && NumberKey(14) == "14" && NumberKey(15) == "15"
  {
  }

  /** The source table knows exactly 0x02, 0x04 and 0x0A; every other byte, and a missing one, is 'Unknown'. */
  lemma SourceOfByte(code: Option<uint8>)
    ensures SourceText(code) ==
      if code == Some(0x02) then "Keypad"
      else if code == Some(0x04) then "RF"
      else if code == Some(0x0A) then "Remote"
      else "Unknown"
  {
  }

  /** Reason codes 0x00 to 0x0F give the sixteen listed texts; every other byte, and a missing one, is 'Unknown'. */
  lemma ReasonOfByte(code: Option<uint8>)
    ensures code.Some? && code.value < |ReasonTexts| ==> ReasonText(code) == ReasonTexts[code.value]
    ensures code.None? || code.value >= |ReasonTexts| ==> ReasonText(code) == "Unknown"
  {
  }

  /**
   * The decoded event is positional: user id from byte 0, reason from byte 2 and source from byte 3,
   * each falling back as the tables say; a byte past the end of a short buffer falls back on its own
   * (`undefined` for the user id, 'Unknown' for a text) instead of failing.
   */
  lemma DecodeIsPositional(event: seq<uint8>)
    ensures DecodeEventReport(event).userId == if |event| > 0 then Num(event[0]) else Undefined
    ensures DecodeEventReport(event).reason ==
      if |event| > 2 && event[2] < |ReasonTexts| then ReasonTexts[event[2]] else "Unknown"
    ensures DecodeEventReport(event).source ==
      if |event| <= 3 then "Unknown"
      else if event[3] == 0x02 then "Keypad"
      else if event[3] == 0x04 then "RF"
      else if event[3] == 0x0A then "Remote"
      else "Unknown"
  {
    ReasonOfByte(ByteAt(event, 2));
    SourceOfByte(ByteAt(event, 3));
  }

  /** Byte 1 is reserved: changing it never changes the decoded event. */
  lemma DecodeIgnoresReservedByte(event: seq<uint8>, x: uint8)
    requires |event| >= 2
    ensures DecodeEventReport(event[1 := x]) == DecodeEventReport(event)
  {
  }

  /**
   * A scheduled relock from the keypad for user 7, an undocumented source byte, a three-byte
   * report that keeps its user id and reason, and an empty report.
   */
  lemma DecodeExamples()
    ensures DecodeEventReport([0x07, 0x00, 0x0B, 0x02]) == LockEvent(Num(7), "Schedule lock", "Keypad")
    ensures DecodeEventReport([0x07, 0x00, 0x0B, 0xFF]) == LockEvent(Num(7), "Schedule lock", "Unknown")
    ensures DecodeEventReport([0x05, 0x00, 0x01]) == LockEvent(Num(5), "Lock", "Unknown")
    ensures DecodeEventReport([]) == LockEvent(Undefined, "Unknown", "Unknown")
  {
    DecodeIsPositional([0x07, 0x00, 0x0B, 0x02]);
    DecodeIsPositional([0x07, 0x00, 0x0B, 0xFF]);
    DecodeIsPositional([0x05, 0x00, 0x01]);
    DecodeIsPositional([]);
  }
}
