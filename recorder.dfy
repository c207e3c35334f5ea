/**
 * LdLjrRecorder: records a sensor to an LJR file, one JSON text per line.
 *
 * The file is the sequence `lines`; the rapidjson writer and its buffer are
 * the `writer` object. A frame is kept open in the buffer while data with
 * the same timestamp keeps arriving, and is flushed as one line when the
 * timestamp changes, when a property changes, or when recording stops.
 */
module Recorder {
  import opened Wrappers
  import opened Json
  import opened Properties
  import opened Paths
  import opened Frames

  /** What StartRecording reads from the sensor: the device-name property (if
      the sensor has one), the connection's device type, the
      connection-type property, and the sensor's property registry. */
  datatype Sensor = Sensor(deviceName: Option<string>, deviceType: nat, connectionType: int,
                           registry: seq<Property>)

  /** What StartRecording gets from the system: the files that exist, whether
      the new file can be created (and errno when it cannot), the clock in
      seconds, and the local time formatted by strftime. */
  datatype Host = Host(files: set<string>, canCreate: bool, errno: int, now: nat, stamp: string)

  ghost predicate AllDocuments(lines: seq<seq<Token>>) {
    forall i | 0 <= i < |lines| :: Document(lines[i])
  }

  class LjrRecorder {
    const writer: JsonWriter
    /** LJR_PROT_VERSION */
    const protVersion: nat
    /** mFile.is_open() */
    var isOpen: bool
    /** The file mFile was last opened on. */
    var path: string
    /** The lines written to that file, in order. */
    var lines: seq<seq<Token>>
    /** mLastTimestamp; 0 when no frame is open. */
    var lastTimestamp: nat
    /** The payloads written into the frame that is open in the buffer. */
    ghost var frame: seq<Payload>
    /** The B_GET side of the echo buffer is locked by the recorder. */
    ghost var echoLocked: bool

    ghost function CurrentPhase(): Phase
      reads this
    {
      if lastTimestamp == 0 then NoFrame else FrameAt(lastTimestamp, frame)
    }

    /** The file holds complete JSON texts only and the echo lock is released. */
    ghost predicate Sound()
      reads this
    {
      AllDocuments(lines) && !echoLocked
    }

    /** Between notifications the buffer is empty when no frame is open, and
        otherwise holds the open frame (or, once the file is closed, that
        frame closed). */
    ghost predicate Valid()
      reads this, writer
    {
      && Sound()
      && (lastTimestamp == 0 ==> frame == [] && writer.Idle())
      && (lastTimestamp != 0 && isOpen ==> writer.text == FrameText(lastTimestamp, frame))
      && (lastTimestamp != 0 && !isOpen ==> writer.text == FrameLine(lastTimestamp, frame))
    }

    /** After StopRecording has flushed a frame, the closed frame is still in
        the buffer and mLastTimestamp still holds its timestamp. */
    predicate Stale()
      reads this
    {
      !isOpen && lastTimestamp != 0
    }

    constructor (protVersion: nat)
      ensures Valid() && !isOpen && lines == [] && CurrentPhase() == NoFrame
      ensures this.protVersion == protVersion
    {
      this.protVersion := protVersion;
      writer := new JsonWriter();
      isOpen, path, lines, lastTimestamp := false, "", [], 0;
      frame, echoLocked := [], false;
    }

    /** Checks the path, opens the file and writes the header and the
        property snapshot. The result is the path of the record, or the
        exception raised. */
    method StartRecording(aPath: string, sensor: Sensor, host: Host) returns (r: Result<string>)
      requires Valid() && !Stale()
      modifies this, writer
      ensures Valid()
      ensures r == (if !host.canCreate && StartTarget(aPath, host.files, old(isOpen), sensor.deviceName, host.stamp).Ok?
                    then Err(RuntimeError(host.errno))
                    else StartTarget(aPath, host.files, old(isOpen), sensor.deviceName, host.stamp))
      ensures r.Err? ==> unchanged(this) && unchanged(writer)
      ensures r.Ok? ==> isOpen && path == r.value && CurrentPhase() == NoFrame
                        && lines == [HeaderLine(protVersion, sensor.deviceType, sensor.connectionType, host.now),
                                     SnapshotLine(sensor.registry)]
    {
      if Exists(host.files, aPath) {
        return Err(InvalidArgument);
      }
      if isOpen {
        return Err(LogicError);
      }
      var target := if aPath == "" then DefaultName(sensor.deviceName, host.stamp) else aPath;
      target := WithSuffix(target);
      if Exists(host.files, target) {
        return Err(InvalidArgument);
      }
      if !host.canCreate {
        return Err(RuntimeError(host.errno));
      }
      isOpen, path, lines := true, target, [];
      AddFileHeader(sensor, host.now);
      AddAllProperties(sensor.registry);
      r := Ok(target);
    }

    /** Closes the open frame, if any, writes it, and closes the file. */
    method StopRecording()
      requires Valid()
      modifies this, writer
      ensures Valid() && !isOpen && path == old(path)
      ensures lines == old(lines) + (if old(isOpen) then Closing(old(CurrentPhase())) else [])
      ensures CurrentPhase() == old(CurrentPhase())
    {
      if lastTimestamp != 0 {
        if isOpen {
          FrameTextIncomplete(lastTimestamp, frame);
        } else {
          FrameLineIsDocument(lastTimestamp, frame);
        }
      }
      if !writer.IsComplete() && |writer.text| != 0 {
        writer.EndObject();
        writer.EndObject();
        FrameLineFlat(lastTimestamp, frame);
        FrameLineIsDocument(lastTimestamp, frame);
        lines := lines + [writer.text];
      }
      if isOpen {
        isOpen := false;
      }
    }

    /** Writes the header line. */
    method AddFileHeader(sensor: Sensor, now: nat)
      requires Sound() && writer.Idle()
      modifies this`lines, writer
      ensures Sound() && writer.Idle()
      ensures lines == old(lines) + [HeaderLine(protVersion, sensor.deviceType, sensor.connectionType, now)]
    {
      ghost var t0 := writer.text;
      writer.StartObject();
      writer.Key("header");
      writer.StartObject();
      writer.Key("prot_version");
      writer.Value(UInt(protVersion));
      writer.Key("devicetype");
      writer.Value(UInt(sensor.deviceType));
      writer.Key("protocol");
      writer.Value(UInt(ToUint16(sensor.connectionType)));
      writer.Key("timestamp");
      writer.Value(UInt(now));
      writer.EndObject();
      writer.EndObject();
      HeaderLineFlat(t0, protVersion, sensor.deviceType, sensor.connectionType, now);
      assert t0 + HeaderLine(protVersion, sensor.deviceType, sensor.connectionType, now)
          == HeaderLine(protVersion, sensor.deviceType, sensor.connectionType, now);
      HeaderLineIsDocument(protVersion, sensor.deviceType, sensor.connectionType, now);
      Flush();
    }

    /** Writes the snapshot line: one entry per persisted property that has
        values, with its type's metadata. */
    method AddAllProperties(registry: seq<Property>)
      requires Sound() && writer.Idle()
      modifies this`lines, writer
      ensures Sound() && writer.Idle()
      ensures lines == old(lines) + [SnapshotLine(registry)]
    {
      writer.StartObject();
      writer.Key("prop");
      writer.StartArray();
      ghost var open := [StartObj, Key("prop"), StartArr];
      assert writer.text == open;
      var saved := Persisted(registry);
      for i := 0 to |saved|
        modifies writer
        invariant writer.text == open + Entries(saved[..i], SnapshotEntry)
      {
        EntriesPush(saved, i, SnapshotEntry);
        if saved[i].kind.Count() == 0 {
          continue;
        }
        AddSnapshotEntry(saved[i]);
        Assoc(open, Entries(saved[..i], SnapshotEntry), SnapshotEntry(saved[i]));
      }
      assert saved[..|saved|] == saved;
      writer.EndArray();
      writer.EndObject();
      SnapshotLineFlat(registry);
      SnapshotLineIsDocument(registry);
      Flush();
    }

    /** One entry of the snapshot: id, metadata, values. */
    method AddSnapshotEntry(p: Property)
      modifies writer
      ensures writer.text == old(writer.text) + SnapshotEntry(p)
    {
      ghost var t0 := writer.text;
      writer.StartObject();
      writer.Key("id");
      writer.Value(UInt(p.id));
      ghost var head := [StartObj, Key("id"), UInt(p.id)];
      assert writer.text == t0 + head;
      AddMetadata(p.kind);
      Assoc(t0, head, MetadataTokens(p.kind));
      AddPropertyValues(p.kind);
      Assoc(t0, head + MetadataTokens(p.kind), ValueTokens(p.kind));
      writer.EndObject();
      Assoc(t0, head + MetadataTokens(p.kind) + ValueTokens(p.kind), [EndObj]);
      SnapshotEntryFlat(p);
    }

    /** The type-specific members of a snapshot entry: the limits of a float,
        the signedness and limits of an integer, the table of an enum. */
    method AddMetadata(k: Kind)
      modifies writer
      ensures writer.text == old(writer.text) + MetadataTokens(k)
    {
      ghost var t0 := writer.text;
      if k.Float? {
        writer.Key("limits");
        writer.StartArray();
        writer.Value(Num(Real(k.fmin)));
        writer.Value(Num(Real(k.fmax)));
        writer.EndArray();
        LimitsWritten(t0, Num(Real(k.fmin)), Num(Real(k.fmax)));
      } else if k.Integer? {
        writer.Key("signed");
        writer.Value(Bool(k.signed));
        writer.Key("limits");
        writer.StartArray();
        writer.Value(Int(k.imin));
        writer.Value(Int(k.imax));
        writer.EndArray();
        SignedLimitsWritten(t0, k.signed, Int(k.imin), Int(k.imax));
      } else if k.Enum? {
        writer.Key("enum");
        writer.StartObject();
        ghost var pre := writer.text;
        var table := k.table;
        for i := 0 to |table|
          invariant writer.text == pre + EnumTableTokens(table[..i])
        {
          assert table[..i + 1] == table[..i] + [table[i]];
          JoinSnoc(table[..i], table[i], EntryTokens);
          writer.Key(table[i].text);
          writer.Value(UInt(table[i].value));
          Assoc(pre + EnumTableTokens(table[..i]), [Key(table[i].text)], [UInt(table[i].value)]);
          Assoc(pre, EnumTableTokens(table[..i]), EntryTokens(table[i]));
        }
        assert table[..|table|] == table;
        writer.EndObject();
        MemberObjectWritten(t0, "enum", EnumTableTokens(table));
      }
    }

    /** The "val" member of a property: nothing without values, the value
        itself for one, an array of the values for more. */
    method AddPropertyValues(k: Kind)
      modifies writer
      ensures writer.text == old(writer.text) + ValueTokens(k)
    {
      ghost var t0 := writer.text;
      var n := k.Count();
      if n == 0 {
        return;
      }
      writer.Key("val");
      if n > 1 {
        writer.StartArray();
      }
      ghost var pre := writer.text;
      for i := 0 to n
        invariant writer.text == pre + Scalars(k)[..i]
      {
        assert Scalars(k)[..i + 1] == Scalars(k)[..i] + [Scalar(k, i)];
        writer.Value(Scalar(k, i));
        Assoc(pre, Scalars(k)[..i], [Scalar(k, i)]);
      }
      assert Scalars(k)[..n] == Scalars(k);
      if n > 1 {
        writer.EndArray();
      }
      ValueWritten(t0, k);
    }

    /** A property as {"id":..,"val":..}. */
    method AddProperty(p: Property)
      modifies writer
      ensures writer.text == old(writer.text) + PropertyTokens(p)
    {
      ghost var t0 := writer.text;
      writer.StartObject();
      writer.Key("id");
      writer.Value(UInt(p.id));
      ghost var head := [StartObj, Key("id"), UInt(p.id)];
      assert writer.text == t0 + head;
      AddPropertyValues(p.kind);
      Assoc(t0, head, ValueTokens(p.kind));
      writer.EndObject();
      Assoc(t0, head + ValueTokens(p.kind), [EndObj]);
      PropertyTokensFlat(p);
    }

    /** A notification: new states, new echoes, a changed property, or
        anything else. Nothing is written while no file is open. */
    method Callback(e: Event)
      requires Valid() && e.WellFormed()
      modifies this, writer
      ensures Valid() && isOpen == old(isOpen) && path == old(path)
      ensures !old(isOpen) ==> lines == old(lines) && CurrentPhase() == old(CurrentPhase())
      ensures old(isOpen) ==> lines == old(lines) + Next(old(CurrentPhase()), e).written
                              && CurrentPhase() == Next(old(CurrentPhase()), e).after
    {
      if !isOpen {
        return;
      }
      match e
      case StatesReady(_, _) => DataCallback(e);
      case EchoesReady(_, _) => DataCallback(e);
      case PropertyChanged(p) =>
        if lastTimestamp != 0 {
          EndFrame();
        }
        PropertyCallback(p);
        lastTimestamp := 0;
      case Unrelated =>
    }

    /** New states or new echoes while the file is open: the frame is
        entered at their timestamp, the payload written into it, and the
        timestamp remembered. */
    method DataCallback(e: Event)
      requires Valid() && isOpen && e.IsData() && e.WellFormed()
      modifies this`lines, this`lastTimestamp, this`frame, this`echoLocked, writer
      ensures Valid()
      ensures lines == old(lines) + Next(old(CurrentPhase()), e).written
      ensures CurrentPhase() == Next(old(CurrentPhase()), e).after
    {
      ghost var entered := Enter(CurrentPhase(), e.ts);
      NextData(CurrentPhase(), e);
      EnterFrame(e.ts);
      ghost var before := frame;
      assert before == entered.after.payloads;
      WritePayload(e);
      FrameTextSnoc(e.ts, before, e.Payload());
      lastTimestamp := e.ts;
      assert CurrentPhase() == FrameAt(e.ts, before + [e.Payload()]);
    }

    /** StatesCallback for new states, EchoesCallback for new echoes. */
    method WritePayload(e: Event)
      requires e.IsData() && !echoLocked
      modifies this`frame, this`echoLocked, writer
      ensures !echoLocked && frame == old(frame) + [e.Payload()]
      ensures writer.text == old(writer.text) + PayloadTokens(e.Payload())
    {
      if e.StatesReady? {
        StatesCallback(e.registry);
      } else {
        EchoesCallback(e.buffer);
      }
    }

    /** Data stamped `ts` arrives: the open frame continues when it has the
        same timestamp; otherwise it is written out (if there is one) and a
        frame is started at `ts`. */
    method EnterFrame(ts: nat)
      requires Valid() && isOpen && ts != 0
      modifies this`lines, this`frame, writer
      ensures Sound() && writer.text == FrameText(ts, frame)
      ensures lines == old(lines) + Enter(old(CurrentPhase()), ts).written
      ensures FrameAt(ts, frame) == Enter(old(CurrentPhase()), ts).after
    {
      if ts != lastTimestamp {
        if lastTimestamp != 0 {
          EndFrame();
        }
        StartFrame(ts);
      }
    }

    /** Opens the main object and the frame object, and writes the timestamp. */
    method StartFrame(ts: nat)
      requires writer.Idle()
      modifies this`frame, writer
      ensures frame == [] && writer.text == FrameText(ts, [])
    {
      writer.StartObject();
      writer.Key("frame");
      writer.StartObject();
      writer.Key("ts");
      writer.Value(UInt(ts));
      frame := [];
      assert writer.text == FrameHead(ts) + [];
    }

    /** Closes the frame and the main object and writes them as one line. */
    method EndFrame()
      requires Sound() && writer.text == FrameText(lastTimestamp, frame)
      modifies this`lines, this`frame, writer
      ensures Sound() && writer.Idle() && frame == []
      ensures lines == old(lines) + [FrameLine(lastTimestamp, old(frame))]
    {
      writer.EndObject();
      writer.EndObject();
      FrameLineFlat(lastTimestamp, frame);
      FrameLineIsDocument(lastTimestamp, frame);
      Flush();
      frame := [];
    }

    /** The "states" member: every persisted property of the states that has values. */
    method StatesCallback(registry: seq<Property>)
      modifies this`frame, writer
      ensures frame == old(frame) + [States(registry)]
      ensures writer.text == old(writer.text) + PayloadTokens(States(registry))
    {
      ghost var t0 := writer.text;
      writer.Key("states");
      writer.StartArray();
      ghost var pre := writer.text;
      var props := Persisted(registry);
      for i := 0 to |props|
        modifies writer
        invariant writer.text == pre + Entries(props[..i], PropertyTokens)
      {
        EntriesPush(props, i, PropertyTokens);
        if props[i].kind.Count() > 0 {
          AddProperty(props[i]);
          Assoc(pre, Entries(props[..i], PropertyTokens), PropertyTokens(props[i]));
        }
      }
      assert props[..|props|] == props;
      writer.EndArray();
      PayloadWritten(t0, States(registry));
      frame := frame + [States(registry)];
    }

    /** The "echoes" member: one array per echo of the readable buffer,
        written while that buffer is locked. */
    method EchoesCallback(b: EchoBuffer)
      requires !echoLocked
      modifies this`frame, this`echoLocked, writer
      ensures !echoLocked && frame == old(frame) + [Echoes(b)]
      ensures writer.text == old(writer.text) + PayloadTokens(Echoes(b))
    {
      ghost var t0 := writer.text;
      writer.Key("echoes");
      writer.StartArray();
      ghost var pre := writer.text;
      echoLocked := true;
      var echoes := b.echoes;
      var ampScale := b.amplitudeScale;
      var distScale := b.distanceScale;
      for i := 0 to b.count
        modifies writer
        invariant echoLocked
        invariant writer.text == pre + EchoRows(b, i)
      {
        writer.StartArray();
        writer.Value(UInt(echoes[i].channel));
        writer.Value(Num(Ratio(echoes[i].distance, distScale)));
        writer.Value(Num(Ratio(echoes[i].amplitude, ampScale)));
        writer.Value(UInt(echoes[i].flag));
        writer.EndArray();
        EchoWritten(pre + EchoRows(b, i), b, echoes[i]);
        EchoRowsPush(b, i);
        Assoc(pre, EchoRows(b, i), EchoTokens(b, echoes[i]));
      }
      echoLocked := false;
      writer.EndArray();
      PayloadWritten(t0, Echoes(b));
      frame := frame + [Echoes(b)];
    }

    /** A changed property on a line of its own. */
    method PropertyCallback(p: Property)
      requires Sound() && writer.Idle()
      modifies this`lines, writer
      ensures Sound() && writer.Idle()
      ensures lines == old(lines) + [PropLine(p)]
    {
      writer.StartObject();
      writer.Key("prop");
      writer.StartArray();
      ghost var open := [StartObj, Key("prop"), StartArr];
      assert writer.text == open;
      AddProperty(p);
      writer.EndArray();
      writer.EndObject();
      PropLineFlat(p);
      PropLineIsDocument(p);
      Flush();
    }

    /** Writes the buffered JSON text as the next line of the file, then
        clears the buffer and resets the writer. */
    method Flush()
      requires Sound() && Document(writer.text)
      modifies this`lines, writer
      ensures Sound() && writer.Idle()
      ensures lines == old(lines) + [old(writer.text)]
    {
      lines := lines + [writer.text];
      writer.Restart();
    }
  }
}
