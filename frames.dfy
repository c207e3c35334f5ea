/**
 * The lines of an LJR file and the frame state machine that decides when
 * they are written, as pure functions: what each kind of line holds, and
 * which lines a notification writes given whether a frame is open.
 */
module Frames {
  import opened Wrappers
  import opened Json
  import opened Properties

  /** One detection: channel index, raw distance and amplitude, flag. */
  datatype Echo = Echo(channel: nat, distance: int, amplitude: int, flag: nat)

  datatype EchoSnapshot = EchoSnapshot(echoes: seq<Echo>, count: nat, distanceScale: nat, amplitudeScale: nat)

  /** The readable side (B_GET) of the echo double buffer: its echoes, the
      echo count, and the scale factors. The count never exceeds the echoes
      the buffer holds, since the recorder indexes the buffer with it. */
  type EchoBuffer = b: EchoSnapshot | b.count <= |b.echoes| witness EchoSnapshot([], 0, 1, 1)

  /** One echo as a 4-element array [channel, distance/distScale,
      amplitude/ampScale, flag]. */
  function EchoTokens(b: EchoBuffer, e: Echo): seq<Token> {
    Array([UInt(e.channel), Num(Ratio(e.distance, b.distanceScale)),
           Num(Ratio(e.amplitude, b.amplitudeScale)), UInt(e.flag)])
  }

  /** EchoTokens with the buffer's scales fixed. */
  function EchoArray(b: EchoBuffer): Echo -> seq<Token> {
    e => EchoTokens(b, e)
  }

  /** The arrays for the first `n` echoes of the buffer, in buffer order. */
  function EchoRows(b: EchoBuffer, n: nat): seq<Token>
    requires n <= |b.echoes|
  {
    Join(b.echoes[..n], EchoArray(b))
  }

  /** One more echo appends its array. */
  lemma EchoRowsPush(b: EchoBuffer, i: nat)
    requires i < |b.echoes|
    ensures EchoRows(b, i + 1) == EchoRows(b, i) + EchoTokens(b, b.echoes[i])
  {
    assert b.echoes[..i + 1][..i] == b.echoes[..i];
  }

  /** What one data notification adds to the open frame. */
  datatype Payload = States(registry: seq<Property>) | Echoes(buffer: EchoBuffer)
  {
    function Name(): string {
      if States? then "states" else "echoes"
    }

    /** The elements of the payload's array. */
    function ArrayItems(): seq<Token> {
      match this
      case States(registry) => StateEntries(Persisted(registry))
      case Echoes(b) => EchoRows(b, b.count)
    }
  }

  /** StatesCallback and EchoesCallback: a "states" member listing the
      persisted properties that have values, or an "echoes" member with one
      array per echo. */
  function PayloadTokens(pl: Payload): seq<Token> {
    Member(pl.Name(), Array(pl.ArrayItems()))
  }

  function PayloadsTokens(pls: seq<Payload>): seq<Token> {
    Join(pls, PayloadTokens)
  }

  /** StartFrame: {"frame":{"ts":ts */
  function FrameHead(ts: nat): seq<Token> {
    [StartObj, Key("frame"), StartObj, Key("ts"), UInt(ts)]
  }

  /** The buffered text of a frame that is still open. */
  function FrameText(ts: nat, pls: seq<Payload>): seq<Token> {
    FrameHead(ts) + PayloadsTokens(pls)
  }

  /** A payload written into an open frame extends its text. */
  lemma FrameTextSnoc(ts: nat, pls: seq<Payload>, pl: Payload)
    ensures FrameText(ts, pls + [pl]) == FrameText(ts, pls) + PayloadTokens(pl)
  {
    JoinSnoc(pls, pl, PayloadTokens);
    Assoc(FrameHead(ts), PayloadsTokens(pls), PayloadTokens(pl));
  }

  /** The line EndFrame writes: {"frame":{"ts":ts,<payloads>}} */
  function FrameLine(ts: nat, pls: seq<Payload>): seq<Token> {
    Object(Member("frame", Object(Member("ts", [UInt(ts)]) + PayloadsTokens(pls))))
  }

  /** PropertyCallback: {"prop":[{"id":..,"val":..}]} */
  function PropLine(p: Property): seq<Token> {
    Object(Member("prop", Array(PropertyTokens(p))))
  }

  /** AddFileHeader: {"header":{"prot_version":..,"devicetype":..,"protocol":..,"timestamp":..}} */
  function HeaderLine(protVersion: nat, deviceType: nat, connectionType: int, now: nat): seq<Token> {
    Object(Member("header", Object(
      Member("prot_version", [UInt(protVersion)]) + Member("devicetype", [UInt(deviceType)])
      + Member("protocol", [UInt(ToUint16(connectionType))]) + Member("timestamp", [UInt(now)]))))
  }

  /** AddAllProperties: {"prop":[<one entry per persisted property with values>]} */
  function SnapshotLine(registry: seq<Property>): seq<Token> {
    Object(Member("prop", Array(SnapshotEntries(Persisted(registry)))))
  }

  // The tokens of each line, one after the other, as the recorder writes them

  lemma PayloadFlat(pl: Payload)
    ensures PayloadTokens(pl) == [Key(pl.Name()), StartArr] + pl.ArrayItems() + [EndArr]
  {
    MemberArrayFlat(pl.Name(), pl.ArrayItems());
  }

  /** A payload, token by token as a writer appends it after `t`. */
  lemma PayloadWritten(t: seq<Token>, pl: Payload)
    ensures t + [Key(pl.Name())] + [StartArr] + pl.ArrayItems() + [EndArr] == t + PayloadTokens(pl)
  {
    MemberArrayWritten(t, pl.Name(), pl.ArrayItems());
  }

  /** One echo, token by token as a writer appends it after `t`. */
  lemma EchoWritten(t: seq<Token>, b: EchoBuffer, e: Echo)
    ensures t + [StartArr] + [UInt(e.channel)] + [Num(Ratio(e.distance, b.distanceScale))]
              + [Num(Ratio(e.amplitude, b.amplitudeScale))] + [UInt(e.flag)] + [EndArr]
         == t + EchoTokens(b, e)
  {
  }

  lemma FrameLineFlat(ts: nat, pls: seq<Payload>)
    ensures FrameLine(ts, pls) == FrameText(ts, pls) + [EndObj] + [EndObj]
  {
    var m := Member("ts", [UInt(ts)]) + PayloadsTokens(pls);
    NestedObjectFlat("frame", m);
    Assoc([StartObj, Key("frame"), StartObj], Member("ts", [UInt(ts)]), PayloadsTokens(pls));
    assert [StartObj, Key("frame"), StartObj] + Member("ts", [UInt(ts)]) == FrameHead(ts);
  }

  lemma PropLineFlat(p: Property)
    ensures PropLine(p) == [StartObj, Key("prop"), StartArr] + PropertyTokens(p) + [EndArr] + [EndObj]
  {
    ObjectArrayFlat("prop", PropertyTokens(p));
  }

  lemma SnapshotLineFlat(registry: seq<Property>)
    ensures SnapshotLine(registry)
         == [StartObj, Key("prop"), StartArr] + SnapshotEntries(Persisted(registry)) + [EndArr] + [EndObj]
  {
    ObjectArrayFlat("prop", SnapshotEntries(Persisted(registry)));
  }

  lemma HeaderLineFlat(t: seq<Token>, protVersion: nat, deviceType: nat, connectionType: int, now: nat)
    ensures t + [StartObj] + [Key("header")] + [StartObj]
              + [Key("prot_version")] + [UInt(protVersion)]
              + [Key("devicetype")] + [UInt(deviceType)]
              + [Key("protocol")] + [UInt(ToUint16(connectionType))]
              + [Key("timestamp")] + [UInt(now)]
              + [EndObj] + [EndObj]
         == t + HeaderLine(protVersion, deviceType, connectionType, now)
  {
  }

  // Every line is one JSON text

  /** The main object of a line, after its one key: one key and one value
      counted in it, the second about to start. */
  const Main: seq<Level> := [Level(false, 2)]

  lemma MainAdvance()
    ensures Advance([Level(false, 0)], 1) == [Level(false, 1)]
    ensures Advance([Level(false, 0)], 2) == Main
    ensures Advance([Level(false, 1)], 1) == Main
  {
  }

  /** An object with one member, whose value takes the line's main
      object from after the key to its second value, is a document. */
  lemma OneMemberDocument(name: string, value: seq<Token>)
    requires Goes(Position([Level(false, 1)], true), value, Position(Main, true))
    ensures Document(Object(Member(name, value)))
  {
    MainAdvance();
    MemberRun([Level(false, 0)], name, value);
    ObjectDocument(Member(name, value), 2);
  }

  /** {"name":{members}} is a document when the members leave the inner
      object in a member slot. */
  lemma NestedObjectDocument(name: string, members: seq<Token>, pairs: nat)
    requires Goes(Position(Main + [Level(false, 0)], true), members, Position(Main + [Level(false, 2 * pairs)], true))
    ensures Document(Object(Member(name, Object(members))))
  {
    MainAdvance();
    ObjectRun(Position([Level(false, 1)], true), members, 2 * pairs);
    OneMemberDocument(name, Object(members));
  }

  /** {"name":[elements]} is a document when the elements leave the array
      in an element slot. */
  lemma ArrayLineDocument(name: string, elements: seq<Token>, count: nat)
    requires Goes(Position(Main + [Level(true, 0)], true), elements,
                  Position(Advance(Main + [Level(true, 0)], count), true))
    ensures Document(Object(Member(name, Array(elements))))
  {
    PushedRun(Main, true, 0, elements, count);
    MainAdvance();
    ArrayRun(Position([Level(false, 1)], true), elements, count);
    OneMemberDocument(name, Array(elements));
  }

  /** One more member with a scalar value, inside an object nested in `outer`. */
  lemma ScalarMemberSnoc(outer: seq<Level>, m: seq<Token>, c: nat, name: string, t: Token)
    requires c % 2 == 0 && t.IsScalar()
    requires Goes(Position(outer + [Level(false, 0)], true), m, Position(outer + [Level(false, c)], true))
    ensures Goes(Position(outer + [Level(false, 0)], true), m + Member(name, [t]),
                 Position(outer + [Level(false, c + 2)], true))
  {
    ScalarMemberRun(outer + [Level(false, c)], name, t);
    AdvancePushed(outer, Level(false, c), 2);
    Chain(Position(outer + [Level(false, 0)], true), m, Position(outer + [Level(false, c)], true),
          Member(name, [t]), Position(outer + [Level(false, c + 2)], true));
  }

  lemma HeaderMembersRun(protVersion: nat, deviceType: nat, connectionType: int, now: nat)
    ensures Goes(Position(Main + [Level(false, 0)], true),
                 Member("prot_version", [UInt(protVersion)]) + Member("devicetype", [UInt(deviceType)])
                 + Member("protocol", [UInt(ToUint16(connectionType))]) + Member("timestamp", [UInt(now)]),
                 Position(Main + [Level(false, 8)], true))
  {
    var m1 := Member("prot_version", [UInt(protVersion)]);
    ScalarMemberSnoc(Main, [], 0, "prot_version", UInt(protVersion));
    assert [] + m1 == m1;
    ScalarMemberSnoc(Main, m1, 2, "devicetype", UInt(deviceType));
    var m2 := m1 + Member("devicetype", [UInt(deviceType)]);
    ScalarMemberSnoc(Main, m2, 4, "protocol", UInt(ToUint16(connectionType)));
    var m3 := m2 + Member("protocol", [UInt(ToUint16(connectionType))]);
    ScalarMemberSnoc(Main, m3, 6, "timestamp", UInt(now));
  }

  /** The header line is one JSON text. */
  lemma HeaderLineIsDocument(protVersion: nat, deviceType: nat, connectionType: int, now: nat)
    ensures Document(HeaderLine(protVersion, deviceType, connectionType, now))
  {
    HeaderMembersRun(protVersion, deviceType, connectionType, now);
    NestedObjectDocument("header",
      Member("prot_version", [UInt(protVersion)]) + Member("devicetype", [UInt(deviceType)])
      + Member("protocol", [UInt(ToUint16(connectionType))]) + Member("timestamp", [UInt(now)]), 4);
  }

  /** The snapshot line is one JSON text. */
  lemma SnapshotLineIsDocument(registry: seq<Property>)
    ensures Document(SnapshotLine(registry))
  {
    var ps := Persisted(registry);
    var entries, n := SnapshotEntries(ps), |NonEmpty(ps)|;
    SnapshotEntriesRun(Main + [Level(true, 0)], ps);
    ArrayLineDocument("prop", entries, n);
  }

  /** A property line is one JSON text. */
  lemma PropLineIsDocument(p: Property)
    ensures Document(PropLine(p))
  {
    PropertyTokensRun(Position(Main + [Level(true, 0)], true), p);
    ArrayLineDocument("prop", PropertyTokens(p), 1);
  }

  /** The echo arrays are one element each. */
  lemma EchoRowsRun(levels: seq<Level>, b: EchoBuffer, n: nat)
    requires ElementSlot(levels) && n <= |b.echoes|
    ensures Goes(Position(levels, true), EchoRows(b, n), Position(Advance(levels, n), true))
  {
    forall levels': seq<Level>, e: Echo | ElementSlot(levels')
      ensures Goes(Position(levels', true), EchoArray(b)(e), Position(Advance(levels', 1), true))
    {
      EchoTokensRun(Position(levels', true), b, e);
    }
    ElementsJoinRun(levels, b.echoes[..n], EchoArray(b));
  }

  /** One echo array is one complete value. */
  lemma EchoTokensRun(p: Position, b: EchoBuffer, e: Echo)
    requires ValueAllowed(p)
    ensures Goes(p, EchoTokens(b, e), Position(Advance(p.levels, 1), true))
  {
    ScalarArrayRun(p, [UInt(e.channel), Num(Ratio(e.distance, b.distanceScale)),
                       Num(Ratio(e.amplitude, b.amplitudeScale)), UInt(e.flag)]);
  }

  /** The array of a payload is one complete value. */
  lemma PayloadArrayRun(p: Position, pl: Payload)
    requires ValueAllowed(p)
    ensures Goes(p, Array(pl.ArrayItems()), Position(Advance(p.levels, 1), true))
  {
    var outer := Advance(p.levels, 1);
    var n := if pl.States? then |NonEmpty(Persisted(pl.registry))| else pl.buffer.count;
    if pl.States? {
      StateEntriesRun(outer + [Level(true, 0)], Persisted(pl.registry));
    } else {
      EchoRowsRun(outer + [Level(true, 0)], pl.buffer, pl.buffer.count);
    }
    AdvancePushed(outer, Level(true, 0), n);
    ArrayRun(p, pl.ArrayItems(), n);
  }

  /** A payload is one member of the frame object. */
  lemma PayloadRun(levels: seq<Level>, pl: Payload)
    requires MemberSlot(levels)
    ensures Goes(Position(levels, true), PayloadTokens(pl), Position(Advance(levels, 2), true))
  {
    AdvanceAdds(levels, 1, 1);
    PayloadArrayRun(Position(Advance(levels, 1), true), pl);
    MemberRun(levels, pl.Name(), Array(pl.ArrayItems()));
  }

  /** The payloads of a frame are one member each. */
  lemma PayloadsRun(levels: seq<Level>, pls: seq<Payload>)
    requires MemberSlot(levels)
    ensures Goes(Position(levels, true), PayloadsTokens(pls), Position(Advance(levels, 2 * |pls|), true))
  {
    forall levels': seq<Level>, pl: Payload | MemberSlot(levels')
      ensures Goes(Position(levels', true), PayloadTokens(pl), Position(Advance(levels', 2), true))
    {
      PayloadRun(levels', pl);
    }
    MembersRun(levels, pls, PayloadTokens);
  }

  lemma FrameMembersRun(ts: nat, pls: seq<Payload>)
    ensures Goes(Position(Main + [Level(false, 0)], true), Member("ts", [UInt(ts)]) + PayloadsTokens(pls),
                 Position(Main + [Level(false, 2 * (1 + |pls|))], true))
  {
    var head, rest := Member("ts", [UInt(ts)]), PayloadsTokens(pls);
    ScalarMemberRun(Main + [Level(false, 0)], "ts", UInt(ts));
    PushedRun(Main, false, 0, head, 2);
    PayloadsRun(Main + [Level(false, 2)], pls);
    PushedRun(Main, false, 2, rest, 2 * |pls|);
    assert 2 + 2 * |pls| == 2 * (1 + |pls|);
    Chain(Position(Main + [Level(false, 0)], true), head, Position(Main + [Level(false, 2)], true), rest,
          Position(Main + [Level(false, 2 * (1 + |pls|))], true));
  }

  /** A frame line is one JSON text, whatever payloads the frame collected. */
  lemma FrameLineIsDocument(ts: nat, pls: seq<Payload>)
    ensures Document(FrameLine(ts, pls))
  {
    FrameMembersRun(ts, pls);
    NestedObjectDocument("frame", Member("ts", [UInt(ts)]) + PayloadsTokens(pls), 1 + |pls|);
  }

  /** An open frame is not yet a complete text: closing it is what StopRecording does. */
  lemma FrameTextIncomplete(ts: nat, pls: seq<Payload>)
    ensures |FrameText(ts, pls)| != 0 && !Document(FrameText(ts, pls))
  {
    var t := FrameText(ts, pls);
    FrameLineIsDocument(ts, pls);
    FrameLineFlat(ts, pls);
    ScanSnoc(t, EndObj);
    ScanSnoc(t + [EndObj], EndObj);
    assert Step(Finished, EndObj) == None;
  }

  // Reading echoes back

  datatype EchoRow = EchoRow(channel: nat, distance: Number, amplitude: Number, flag: nat)

  /** Splits a sequence of 4-element echo arrays into rows, from the last. */
  function ReadEchoRows(toks: seq<Token>): Option<seq<EchoRow>>
    decreases |toks|
  {
    if toks == [] then Some([])
    else if |toks| >= 6 then
      var n := |toks|;
      var row := toks[n - 6..];
      if row[0] == StartArr && row[1].UInt? && row[2].Num? && row[3].Num? && row[4].UInt? && row[5] == EndArr
      then match ReadEchoRows(toks[..n - 6])
        case None => None
        case Some(rows) => Some(rows + [EchoRow(row[1].n, row[2].d, row[3].d, row[4].n)])
      else None
    else None
  }

  function RowOf(b: EchoBuffer, e: Echo): EchoRow {
    EchoRow(e.channel, Ratio(e.distance, b.distanceScale), Ratio(e.amplitude, b.amplitudeScale), e.flag)
  }

  /** Reading one more 4-element array appends one row. */
  lemma ReadEchoRowsSnoc(prefix: seq<Token>, c: nat, d: Number, a: Number, f: nat)
    ensures ReadEchoRows(prefix + [StartArr, UInt(c), Num(d), Num(a), UInt(f), EndArr])
         == if ReadEchoRows(prefix).Some? then Some(ReadEchoRows(prefix).value + [EchoRow(c, d, a, f)]) else None
  {
    var toks := prefix + [StartArr, UInt(c), Num(d), Num(a), UInt(f), EndArr];
    assert toks[..|toks| - 6] == prefix;
  }

  /** The rows the first `n` echoes of the buffer should read back as. */
  function RowsOf(b: EchoBuffer, n: nat): (r: seq<EchoRow>)
    requires n <= |b.echoes|
    ensures |r| == n && forall i | 0 <= i < n :: r[i] == RowOf(b, b.echoes[i])
  {
    seq(n, i requires 0 <= i < n => RowOf(b, b.echoes[i]))
  }

  /** The arrays for the first `n` echoes read back as exactly those echoes,
      in order, each with its distance and amplitude over their scales. */
  lemma {:induction false} EchoRowsRoundTrip(b: EchoBuffer, n: nat)
    requires n <= |b.echoes|
    ensures |EchoRows(b, n)| == 6 * n
    ensures ReadEchoRows(EchoRows(b, n)) == Some(RowsOf(b, n))
  {
    if n == 0 {
      assert b.echoes[..0] == [];
    } else {
      var e := b.echoes[n - 1];
      EchoRowsRoundTrip(b, n - 1);
      EchoRowsPush(b, n - 1);
      assert EchoTokens(b, e) == [StartArr, UInt(e.channel), Num(Ratio(e.distance, b.distanceScale)),
                                  Num(Ratio(e.amplitude, b.amplitudeScale)), UInt(e.flag), EndArr];
      ReadEchoRowsSnoc(EchoRows(b, n - 1), e.channel, Ratio(e.distance, b.distanceScale),
                       Ratio(e.amplitude, b.amplitudeScale), e.flag);
      assert RowsOf(b, n) == RowsOf(b, n - 1) + [RowOf(b, e)];
    }
  }

  /** The "echoes" member lists exactly the buffer's first `count` echoes. */
  lemma EchoesPayloadRoundTrip(b: EchoBuffer)
    ensures var toks := PayloadTokens(Echoes(b));
            toks[..2] == [Key("echoes"), StartArr] && toks[|toks| - 1] == EndArr
            && ReadEchoRows(toks[2..|toks| - 1]) == Some(RowsOf(b, b.count))
  {
    EchoRowsRoundTrip(b, b.count);
    var toks := PayloadTokens(Echoes(b));
    PayloadFlat(Echoes(b));
    assert toks[2..|toks| - 1] == EchoRows(b, b.count);
  }

  // The frame state machine

  /** Notifications reaching LdLjrRecorder::Callback. `Unrelated` is any
      other signal or sender, which the recorder ignores. */
  datatype Event =
    | StatesReady(ts: nat, registry: seq<Property>)
    | EchoesReady(ts: nat, buffer: EchoBuffer)
    | PropertyChanged(property: Property)
    | Unrelated
  {
    predicate IsData() { StatesReady? || EchoesReady? }

    /** Timestamp 0 is the "no frame open" sentinel; data never carries it. */
    predicate WellFormed() { IsData() ==> ts != 0 }

    function Payload(): Payload
      requires IsData()
    {
      if StatesReady? then States(registry) else Echoes(buffer)
    }
  }

  /** No frame open (mLastTimestamp == 0), or a frame open at `ts` holding
      the payloads appended to it so far. */
  datatype Phase = NoFrame | FrameAt(ts: nat, payloads: seq<Payload>)
  {
    predicate WellFormed() { FrameAt? ==> ts != 0 }
  }

  datatype Transition = Transition(after: Phase, written: seq<seq<Token>>)

  /** The line EndFrame writes, when a frame is open. */
  function Closing(ph: Phase): seq<seq<Token>> {
    if ph.FrameAt? then [FrameLine(ph.ts, ph.payloads)] else []
  }

  /** One notification while the file is open. */
  function Next(ph: Phase, e: Event): (t: Transition)
    requires e.WellFormed()
    ensures ph.WellFormed() ==> t.after.WellFormed()
  {
    match e
    case Unrelated => Transition(ph, [])
    case PropertyChanged(p) => Transition(NoFrame, Closing(ph) + [PropLine(p)])
    case _ =>
      if ph.FrameAt? && ph.ts == e.ts then Transition(FrameAt(ph.ts, ph.payloads + [e.Payload()]), [])
      else Transition(FrameAt(e.ts, [e.Payload()]), Closing(ph))
  }

  /** Data stamped `ts` arrives: it goes into the open frame when that frame
      has the same timestamp, otherwise into a new frame at `ts`, after the
      open frame (if any) is written out. */
  function Enter(ph: Phase, ts: nat): (t: Transition)
    ensures t.after.FrameAt? && t.after.ts == ts
    ensures t.written == [] || t.written == Closing(ph)
  {
    if ph.FrameAt? && ph.ts == ts then Transition(ph, []) else Transition(FrameAt(ts, []), Closing(ph))
  }

  /** New data is entering its frame, then appending its payload to it. */
  lemma NextData(ph: Phase, e: Event)
    requires e.IsData() && e.WellFormed()
    ensures Next(ph, e) == Transition(FrameAt(e.ts, Enter(ph, e.ts).after.payloads + [e.Payload()]),
                                      Enter(ph, e.ts).written)
  {
    assert [] + [e.Payload()] == [e.Payload()];
  }

  /** A sequence of notifications, and every line they write, in order. */
  function Replay(ph: Phase, es: seq<Event>): Transition
    requires forall i | 0 <= i < |es| :: es[i].WellFormed()
    decreases |es|
  {
    if es == [] then Transition(ph, [])
    else
      var before := Replay(ph, es[..|es| - 1]);
      var step := Next(before.after, es[|es| - 1]);
      Transition(step.after, before.written + step.written)
  }

  /** The payloads of data notifications, in order. */
  function PayloadsOf(es: seq<Event>): (r: seq<Payload>)
    requires forall i | 0 <= i < |es| :: es[i].IsData()
    ensures |r| == |es|
    decreases |es|
  {
    if es == [] then []
    else
      assert es[|es| - 1].IsData();
      PayloadsOf(es[..|es| - 1]) + [es[|es| - 1].Payload()]
  }

  /** Data notifications that all carry timestamp `ts` share one frame: the
      frame at `ts` stays open, collects their payloads in order, and no line
      is written. */
  lemma {:induction false} SameTimestampCoalesces(ts: nat, pls: seq<Payload>, es: seq<Event>)
    requires ts != 0
    requires forall i | 0 <= i < |es| :: es[i].IsData() && es[i].ts == ts
    ensures Replay(FrameAt(ts, pls), es) == Transition(FrameAt(ts, pls + PayloadsOf(es)), [])
    decreases |es|
  {
    if es != [] {
      var n := |es|;
      var init := es[..n - 1];
      SameTimestampCoalesces(ts, pls, init);
      assert es[n - 1].IsData() && es[n - 1].ts == ts;
      assert Replay(FrameAt(ts, pls), es)
          == Transition(FrameAt(ts, (pls + PayloadsOf(init)) + [es[n - 1].Payload()]), []);
      assert PayloadsOf(es) == PayloadsOf(init) + [es[n - 1].Payload()];
      assert (pls + PayloadsOf(init)) + [es[n - 1].Payload()] == pls + PayloadsOf(es);
    } else {
      assert pls + PayloadsOf(es) == pls;
    }
  }

  /** The number of times the timestamp changes along a run of data notifications. */
  function Changes(es: seq<Event>): nat
    requires forall i | 0 <= i < |es| :: es[i].IsData()
    decreases |es|
  {
    if |es| < 2 then 0
    else
      assert es[|es| - 1].IsData() && es[|es| - 2].IsData();
      Changes(es[..|es| - 1]) + (if es[|es| - 1].ts != es[|es| - 2].ts then 1 else 0)
  }

  /** Starting with no frame open, data notifications write one frame line
      per change of timestamp, and leave the frame of the last timestamp
      open. */
  lemma {:induction false} OneLinePerTimestampChange(es: seq<Event>)
    requires es != []
    requires forall i | 0 <= i < |es| :: es[i].IsData() && es[i].WellFormed()
    ensures Replay(NoFrame, es).after.FrameAt?
    ensures Replay(NoFrame, es).after.ts == es[|es| - 1].ts
    ensures |Replay(NoFrame, es).written| == Changes(es)
    ensures forall j | 0 <= j < |Replay(NoFrame, es).written| ::
              exists ts, pls :: Replay(NoFrame, es).written[j] == FrameLine(ts, pls)
    decreases |es|
  {
    var n := |es|;
    var init := es[..n - 1];
    if n > 1 {
      OneLinePerTimestampChange(init);
      assert init[|init| - 1] == es[n - 2];
      var before := Replay(NoFrame, init);
      assert Replay(NoFrame, es).written == before.written + Next(before.after, es[n - 1]).written;
    } else {
      assert init == [];
    }
  }

  /** A property change writes the open frame (if any) and then exactly one
      property line, and the next data notification opens a fresh frame
      without writing anything, whatever its timestamp. */
  lemma PropertyChangeIsolates(ph: Phase, p: Property, e: Event)
    requires e.IsData() && e.WellFormed()
    ensures Replay(ph, [PropertyChanged(p), e])
         == Transition(FrameAt(e.ts, [e.Payload()]), Closing(ph) + [PropLine(p)])
  {
    var es := [PropertyChanged(p), e];
    assert es[..1] == [PropertyChanged(p)];
    assert [PropertyChanged(p)][..0] == [];
    assert Replay(ph, es[..1]) == Transition(NoFrame, Closing(ph) + [PropLine(p)]);
  }
}
