/**
 * Sensor properties as the recorder sees them, and the tokens the recorder
 * writes for one property: its values (AddPropertyValues), the object it
 * writes for a state or a property change (AddProperty), and the richer
 * object of the property snapshot (one iteration of AddAllProperties).
 */
module Properties {
  import opened Wrappers
  import opened Json

  datatype EnumEntry = EnumEntry(text: string, value: nat)

  /** The seven property types with their values, in index order, and the
      metadata each type carries. Count() is the number of values. */
  datatype Kind =
    | BitField(bits: seq<nat>)
    | Boolean(flags: seq<bool>)
    | Enum(choices: seq<nat>, table: seq<EnumEntry>)
    | Float(reals: seq<real>, fmin: real, fmax: real)
    | Integer(ints: seq<int>, signed: bool, imin: int, imax: int)
    | Text(texts: seq<string>)
    | Buffer(buffers: seq<string>)
  {
    function Count(): nat {
      match this
      case BitField(v) => |v|
      case Boolean(v) => |v|
      case Enum(v, _) => |v|
      case Float(v, _, _) => |v|
      case Integer(v, _, _, _) => |v|
      case Text(v) => |v|
      case Buffer(v) => |v|
    }
  }

  /** `persisted` is the F_SAVE feature the registry filters on. */
  datatype Property = Property(id: nat, persisted: bool, kind: Kind)

  const TwoTo16: int := 0x1_0000
  const TwoTo31: int := 0x8000_0000
  const TwoTo32: int := 0x1_0000_0000

  /** The C++ conversion to uint16_t: the value modulo 2^16. */
  function ToUint16(v: int): (r: nat)
    ensures r < TwoTo16 && (v - r) % TwoTo16 == 0
    ensures 0 <= v < TwoTo16 ==> r == v
  {
    v % TwoTo16
  }

  /** The C++ conversion to uint32_t: the value modulo 2^32. */
  function ToUint32(v: int): (r: nat)
    ensures r < TwoTo32 && (v - r) % TwoTo32 == 0
    ensures 0 <= v < TwoTo32 ==> r == v
  {
    v % TwoTo32
  }

  /** The C++ conversion to int32_t: two's-complement wrap-around. */
  function ToInt32(v: int): (r: int)
    ensures -TwoTo31 <= r < TwoTo31 && (v - r) % TwoTo32 == 0
    ensures -TwoTo31 <= v < TwoTo31 ==> r == v
  {
    var u := v % TwoTo32;
    if u < TwoTo31 then u else u - TwoTo32
  }

  /** The token AddPropertyValues writes for value `i`: Bitfield and Enum as
      Uint64, Bool as a boolean, Float as a double, Integer as Int64 of its
      int32_t value when signed and as Uint64 of its uint32_t value otherwise,
      Text and Buffer as their string value. */
  function Scalar(k: Kind, i: nat): (t: Token)
    requires i < k.Count()
    ensures t.IsScalar()
    ensures k.Integer? ==> (t.Int? <==> k.signed)
  {
    match k
    case BitField(v) => UInt(v[i])
    case Boolean(v) => Bool(v[i])
    case Enum(v, _) => UInt(v[i])
    case Float(v, _, _) => Num(Real(v[i]))
    case Integer(v, signed, _, _) => if signed then Int(ToInt32(v[i])) else UInt(ToUint32(v[i]))
    case Text(v) => Str(v[i])
    case Buffer(v) => Str(v[i])
  }

  function Scalars(k: Kind): (r: seq<Token>)
  {
    seq(k.Count(), i requires 0 <= i < k.Count() => Scalar(k, i))
  }

  /** The "val" member: absent without values, a scalar for one value, an
      array of the values in index order for more. */
  function ValueTokens(k: Kind): seq<Token> {
    if k.Count() == 0 then []
    else if k.Count() == 1 then Member("val", Scalars(k))
    else Member("val", Array(Scalars(k)))
  }

  /** One entry of an enum's table: "text": value. */
  function EntryTokens(e: EnumEntry): seq<Token> {
    Member(e.text, [UInt(e.value)])
  }

  /** The enum's text-to-value table as the members of an object. */
  function EnumTableTokens(table: seq<EnumEntry>): seq<Token> {
    Join(table, EntryTokens)
  }

  /** The type-specific members of a snapshot entry. */
  function MetadataTokens(k: Kind): seq<Token> {
    match k
    case Float(_, mn, mx) =>
      Member("limits", Array([Num(Real(mn)), Num(Real(mx))]))
    case Integer(_, signed, mn, mx) =>
      Member("signed", [Bool(signed)]) + Member("limits", Array([Int(mn), Int(mx)]))
    case Enum(_, table) =>
      Member("enum", Object(EnumTableTokens(table)))
    case _ => []
  }

  /** The "val" member, token by token as a writer appends it after `t`. */
  lemma ValueWritten(t: seq<Token>, k: Kind)
    ensures k.Count() == 1 ==> t + [Key("val")] + Scalars(k) == t + ValueTokens(k)
    ensures k.Count() > 1 ==> t + [Key("val")] + [StartArr] + Scalars(k) + [EndArr] == t + ValueTokens(k)
  {
    Assoc(t, [Key("val")], Scalars(k));
    Assoc(t + [Key("val")] + [StartArr], Scalars(k), [EndArr]);
    Assoc(t + [Key("val")], [StartArr], Scalars(k) + [EndArr]);
    Assoc(t, [Key("val")], [StartArr] + (Scalars(k) + [EndArr]));
    Assoc([StartArr], Scalars(k), [EndArr]);
  }

  /** The "limits" member, token by token as a writer appends it after `t`. */
  lemma LimitsWritten(t: seq<Token>, mn: Token, mx: Token)
    ensures t + [Key("limits")] + [StartArr] + [mn] + [mx] + [EndArr] == t + Member("limits", Array([mn, mx]))
  {
    assert [mn] + [mx] == [mn, mx];
    Assoc(t + [Key("limits")] + [StartArr], [mn], [mx]);
    MemberArrayWritten(t, "limits", [mn, mx]);
  }

  /** The "signed" and "limits" members, as a writer appends them after `t`. */
  lemma SignedLimitsWritten(t: seq<Token>, signed: bool, mn: Token, mx: Token)
    ensures t + [Key("signed")] + [Bool(signed)] + [Key("limits")] + [StartArr] + [mn] + [mx] + [EndArr]
         == t + (Member("signed", [Bool(signed)]) + Member("limits", Array([mn, mx])))
  {
    var u := t + [Key("signed")] + [Bool(signed)];
    LimitsWritten(u, mn, mx);
    Assoc(t, [Key("signed")], [Bool(signed)]);
    Assoc(t, Member("signed", [Bool(signed)]), Member("limits", Array([mn, mx])));
  }

  /** AddProperty: {"id":..,"val":..}. */
  function PropertyTokens(p: Property): seq<Token> {
    Object(Member("id", [UInt(p.id)]) + ValueTokens(p.kind))
  }

  /** One snapshot entry: {"id":..,<metadata>,"val":..}. */
  function SnapshotEntry(p: Property): seq<Token> {
    Object(Member("id", [UInt(p.id)]) + MetadataTokens(p.kind) + ValueTokens(p.kind))
  }

  lemma PropertyTokensFlat(p: Property)
    ensures PropertyTokens(p) == [StartObj, Key("id"), UInt(p.id)] + ValueTokens(p.kind) + [EndObj]
  {
  }

  lemma SnapshotEntryFlat(p: Property)
    ensures SnapshotEntry(p)
         == [StartObj, Key("id"), UInt(p.id)] + MetadataTokens(p.kind) + ValueTokens(p.kind) + [EndObj]
  {
  }

  /** One fragment `f(p)` per property `p` of `ps`, in order; properties
      without values are skipped. */
  function Entries(ps: seq<Property>, f: Property -> seq<Token>): seq<Token>
    decreases |ps|
  {
    if ps == [] then []
    else
      var last := ps[|ps| - 1];
      Entries(ps[..|ps| - 1], f) + (if last.kind.Count() > 0 then f(last) else [])
  }

  lemma EntriesPush(ps: seq<Property>, i: nat, f: Property -> seq<Token>)
    requires i < |ps|
    ensures Entries(ps[..i + 1], f) == Entries(ps[..i], f) + (if ps[i].kind.Count() > 0 then f(ps[i]) else [])
  {
    assert ps[..i + 1][..i] == ps[..i];
  }

  /** The entries of the property snapshot. */
  function SnapshotEntries(ps: seq<Property>): seq<Token> {
    Entries(ps, SnapshotEntry)
  }

  /** The elements of a "states" array. */
  function StateEntries(ps: seq<Property>): seq<Token> {
    Entries(ps, PropertyTokens)
  }

  /** FindPropertiesByFeature(F_SAVE): the persisted properties, in registry order. */
  function Persisted(ps: seq<Property>): (r: seq<Property>)
    ensures |r| <= |ps|
    decreases |ps|
  {
    if ps == [] then []
    else
      var last := ps[|ps| - 1];
      Persisted(ps[..|ps| - 1]) + (if last.persisted then [last] else [])
  }

  /** Exactly the persisted properties are kept. */
  lemma {:induction false} PersistedMembers(ps: seq<Property>)
    ensures forall p :: p in Persisted(ps) <==> p in ps && p.persisted
    decreases |ps|
  {
    if ps != [] {
      PersistedMembers(ps[..|ps| - 1]);
      assert ps == ps[..|ps| - 1] + [ps[|ps| - 1]];
    }
  }

  /** The properties that have at least one value, in order. */
  function NonEmpty(ps: seq<Property>): (r: seq<Property>)
    ensures |r| <= |ps|
    decreases |ps|
  {
    if ps == [] then []
    else
      var last := ps[|ps| - 1];
      NonEmpty(ps[..|ps| - 1]) + (if last.kind.Count() > 0 then [last] else [])
  }

  /** Exactly the properties with values are kept. */
  lemma {:induction false} NonEmptyMembers(ps: seq<Property>)
    ensures forall p :: p in NonEmpty(ps) <==> p in ps && p.kind.Count() > 0
    decreases |ps|
  {
    if ps != [] {
      NonEmptyMembers(ps[..|ps| - 1]);
      assert ps == ps[..|ps| - 1] + [ps[|ps| - 1]];
    }
  }

  /** A property without values contributes nothing: the snapshot and a
      "states" array hold exactly the properties with values. */
  lemma {:induction false} EntriesSkipEmpty(ps: seq<Property>, f: Property -> seq<Token>)
    ensures Entries(ps, f) == Entries(NonEmpty(ps), f)
    decreases |ps|
  {
    if ps != [] {
      var init, last := ps[..|ps| - 1], ps[|ps| - 1];
      EntriesSkipEmpty(init, f);
      var ne := NonEmpty(init);
      if last.kind.Count() > 0 {
        assert NonEmpty(ps) == ne + [last];
        assert (ne + [last])[..|ne|] == ne;
        assert Entries(ne + [last], f) == Entries(ne, f) + f(last);
      } else {
        assert NonEmpty(ps) == ne;
      }
    }
  }

  // Every fragment keeps the JSON well formed

  /** Keys and values the metadata adds to a snapshot entry. */
  function MetadataMembers(k: Kind): (r: nat)
    ensures r % 2 == 0
  {
    if k.Integer? then 4 else if k.Float? || k.Enum? then 2 else 0
  }

  /** Keys and values the "val" member adds: none without values. */
  function ValueMembers(k: Kind): (r: nat)
    ensures r % 2 == 0
  {
    if k.Count() == 0 then 0 else 2
  }

  lemma ScalarsAreScalar(k: Kind)
    ensures forall i | 0 <= i < |Scalars(k)| :: Scalars(k)[i].IsScalar()
  {
    forall i | 0 <= i < |Scalars(k)|
      ensures Scalars(k)[i].IsScalar()
    {
      assert Scalars(k)[i] == Scalar(k, i);
    }
  }

  /** The "val" member is accepted wherever a key may come, and adds a key
      and a value to the object (nothing without values). */
  lemma ValueTokensRun(levels: seq<Level>, k: Kind)
    requires MemberSlot(levels)
    ensures Goes(Position(levels, true), ValueTokens(k), Position(Advance(levels, ValueMembers(k)), true))
  {
    AdvanceAdds(levels, 0, 0);
    AdvanceAdds(levels, 1, 1);
    var after := Position(Advance(levels, 1), true);
    if k.Count() == 1 {
      var t := Scalar(k, 0);
      assert Scalars(k) == [t];
      ScalarRun(after, t);
      MemberRun(levels, "val", [t]);
    } else if k.Count() > 1 {
      ScalarsAreScalar(k);
      ScalarArrayRun(after, Scalars(k));
      MemberRun(levels, "val", Array(Scalars(k)));
    }
  }

  /** The enum table adds one key and one value per entry. */
  lemma EnumTableRun(levels: seq<Level>, table: seq<EnumEntry>)
    requires MemberSlot(levels)
    ensures Goes(Position(levels, true), EnumTableTokens(table), Position(Advance(levels, 2 * |table|), true))
  {
    forall levels': seq<Level>, e: EnumEntry | MemberSlot(levels')
      ensures Goes(Position(levels', true), EntryTokens(e), Position(Advance(levels', 2), true))
    {
      ScalarMemberRun(levels', e.text, UInt(e.value));
    }
    MembersRun(levels, table, EntryTokens);
  }

  /** "limits" of a Float or an Integer: a two-element array. */
  lemma LimitsRun(levels: seq<Level>, mn: Token, mx: Token)
    requires MemberSlot(levels) && mn.IsScalar() && mx.IsScalar()
    ensures Goes(Position(levels, true), Member("limits", Array([mn, mx])), Position(Advance(levels, 2), true))
  {
    AdvanceAdds(levels, 1, 1);
    ScalarArrayRun(Position(Advance(levels, 1), true), [mn, mx]);
    MemberRun(levels, "limits", Array([mn, mx]));
  }

  /** "signed" then "limits" of an Integer. */
  lemma IntegerMetadataRun(levels: seq<Level>, signed: bool, mn: int, mx: int)
    requires MemberSlot(levels)
    ensures Goes(Position(levels, true), Member("signed", [Bool(signed)]) + Member("limits", Array([Int(mn), Int(mx)])),
                 Position(Advance(levels, 4), true))
  {
    ScalarMemberRun(levels, "signed", Bool(signed));
    var mid := Advance(levels, 2);
    LimitsRun(mid, Int(mn), Int(mx));
    AdvanceAdds(levels, 2, 2);
    Chain(Position(levels, true), Member("signed", [Bool(signed)]), Position(mid, true),
          Member("limits", Array([Int(mn), Int(mx)])), Position(Advance(levels, 4), true));
  }

  /** The enum table as an object is one complete value. */
  lemma EnumObjectRun(p: Position, table: seq<EnumEntry>)
    requires ValueAllowed(p)
    ensures Goes(p, Object(EnumTableTokens(table)), Position(Advance(p.levels, 1), true))
  {
    var inner := Advance(p.levels, 1);
    EnumTableRun(inner + [Level(false, 0)], table);
    AdvancePushed(inner, Level(false, 0), 2 * |table|);
    ObjectRun(p, EnumTableTokens(table), 2 * |table|);
  }

  /** "enum" of an Enum: an object holding the table. */
  lemma EnumMetadataRun(levels: seq<Level>, table: seq<EnumEntry>)
    requires MemberSlot(levels)
    ensures Goes(Position(levels, true), Member("enum", Object(EnumTableTokens(table))), Position(Advance(levels, 2), true))
  {
    AdvanceAdds(levels, 1, 1);
    EnumObjectRun(Position(Advance(levels, 1), true), table);
    MemberRun(levels, "enum", Object(EnumTableTokens(table)));
  }

  /** The metadata is accepted wherever a key may come. */
  lemma MetadataRun(levels: seq<Level>, k: Kind)
    requires MemberSlot(levels)
    ensures Goes(Position(levels, true), MetadataTokens(k), Position(Advance(levels, MetadataMembers(k)), true))
  {
    if k.Float? {
      LimitsRun(levels, Num(Real(k.fmin)), Num(Real(k.fmax)));
    } else if k.Integer? {
      IntegerMetadataRun(levels, k.signed, k.imin, k.imax);
    } else if k.Enum? {
      EnumMetadataRun(levels, k.table);
    } else {
      assert MetadataTokens(k) == [];
      AdvanceAdds(levels, 0, 0);
    }
  }

  lemma PropertyMembersRun(inner: seq<Level>, prop: Property)
    ensures Goes(Position(inner + [Level(false, 0)], true), Member("id", [UInt(prop.id)]) + ValueTokens(prop.kind),
                 Position(inner + [Level(false, 2 + ValueMembers(prop.kind))], true))
  {
    var start := inner + [Level(false, 0)];
    ScalarMemberRun(start, "id", UInt(prop.id));
    AdvancePushed(inner, Level(false, 0), 2);
    var mid := inner + [Level(false, 2)];
    ValueTokensRun(mid, prop.kind);
    AdvancePushed(inner, Level(false, 2), ValueMembers(prop.kind));
    Chain(Position(start, true), Member("id", [UInt(prop.id)]), Position(mid, true),
          ValueTokens(prop.kind), Position(inner + [Level(false, 2 + ValueMembers(prop.kind))], true));
  }

  /** A property object (AddProperty) is one complete value. */
  lemma PropertyTokensRun(p: Position, prop: Property)
    requires ValueAllowed(p)
    ensures Goes(p, PropertyTokens(prop), Position(Advance(p.levels, 1), true))
  {
    PropertyMembersRun(Advance(p.levels, 1), prop);
    ObjectRun(p, Member("id", [UInt(prop.id)]) + ValueTokens(prop.kind), 2 + ValueMembers(prop.kind));
  }

  /** The members of a snapshot entry: the id, the metadata, the values. */
  function EntryMembers(prop: Property): (r: nat)
    ensures r % 2 == 0
  {
    2 + MetadataMembers(prop.kind) + ValueMembers(prop.kind)
  }

  /** The "id" member opens an object's members. */
  lemma IdInObject(inner: seq<Level>, id: nat)
    ensures Goes(Position(inner + [Level(false, 0)], true), Member("id", [UInt(id)]),
                 Position(inner + [Level(false, 2)], true))
  {
    ScalarMemberRun(inner + [Level(false, 0)], "id", UInt(id));
    PushedRun(inner, false, 0, Member("id", [UInt(id)]), 2);
  }

  lemma MetadataInObject(inner: seq<Level>, c: nat, k: Kind)
    requires c % 2 == 0
    ensures Goes(Position(inner + [Level(false, c)], true), MetadataTokens(k),
                 Position(inner + [Level(false, c + MetadataMembers(k))], true))
  {
    MetadataRun(inner + [Level(false, c)], k);
    PushedRun(inner, false, c, MetadataTokens(k), MetadataMembers(k));
  }

  lemma ValuesInObject(inner: seq<Level>, c: nat, k: Kind)
    requires c % 2 == 0
    ensures Goes(Position(inner + [Level(false, c)], true), ValueTokens(k),
                 Position(inner + [Level(false, c + ValueMembers(k))], true))
  {
    ValueTokensRun(inner + [Level(false, c)], k);
    PushedRun(inner, false, c, ValueTokens(k), ValueMembers(k));
  }

  lemma EntryMembersRun(inner: seq<Level>, prop: Property)
    ensures Goes(Position(inner + [Level(false, 0)], true),
                 Member("id", [UInt(prop.id)]) + MetadataTokens(prop.kind) + ValueTokens(prop.kind),
                 Position(inner + [Level(false, EntryMembers(prop))], true))
  {
    var nm, nv := MetadataMembers(prop.kind), ValueMembers(prop.kind);
    IdInObject(inner, prop.id);
    MetadataInObject(inner, 2, prop.kind);
    ValuesInObject(inner, 2 + nm, prop.kind);
    Chain3(Position(inner + [Level(false, 0)], true), Member("id", [UInt(prop.id)]),
           Position(inner + [Level(false, 2)], true), MetadataTokens(prop.kind),
           Position(inner + [Level(false, 2 + nm)], true), ValueTokens(prop.kind),
           Position(inner + [Level(false, 2 + nm + nv)], true));
  }

  /** A snapshot entry is one complete value. */
  lemma SnapshotEntryRun(p: Position, prop: Property)
    requires ValueAllowed(p)
    ensures Goes(p, SnapshotEntry(prop), Position(Advance(p.levels, 1), true))
  {
    EntryMembersRun(Advance(p.levels, 1), prop);
    ObjectRun(p, Member("id", [UInt(prop.id)]) + MetadataTokens(prop.kind) + ValueTokens(prop.kind),
              EntryMembers(prop));
  }

  /** `f` writes one complete value wherever a value may come. */
  ghost predicate WritesValue(f: Property -> seq<Token>) {
    forall p: Position, prop: Property {:trigger Goes(p, f(prop), Position(Advance(p.levels, 1), true))}
      | ValueAllowed(p) :: Goes(p, f(prop), Position(Advance(p.levels, 1), true))
  }

  /** Entries in an array are one element each. */
  lemma {:induction false} EntriesRun(levels: seq<Level>, ps: seq<Property>, f: Property -> seq<Token>)
    requires ElementSlot(levels) && WritesValue(f)
    ensures Goes(Position(levels, true), Entries(ps, f), Position(Advance(levels, |NonEmpty(ps)|), true))
    decreases |ps|
  {
    if ps == [] {
      AdvanceAdds(levels, 0, 0);
    } else {
      EntriesRun(levels, ps[..|ps| - 1], f);
      EntriesSnoc(levels, ps, f);
    }
  }

  /** One more property adds its entry, if it has values. */
  lemma EntriesSnoc(levels: seq<Level>, ps: seq<Property>, f: Property -> seq<Token>)
    requires ElementSlot(levels) && WritesValue(f) && ps != []
    requires Goes(Position(levels, true), Entries(ps[..|ps| - 1], f),
                  Position(Advance(levels, |NonEmpty(ps[..|ps| - 1])|), true))
    ensures Goes(Position(levels, true), Entries(ps, f), Position(Advance(levels, |NonEmpty(ps)|), true))
  {
    var init, last := ps[..|ps| - 1], ps[|ps| - 1];
    var mid := Advance(levels, |NonEmpty(init)|);
    if last.kind.Count() > 0 {
      AdvanceAdds(levels, |NonEmpty(init)|, 1);
      var after := Position(Advance(levels, |NonEmpty(ps)|), true);
      assert after == Position(Advance(mid, 1), true);
      Chain(Position(levels, true), Entries(init, f), Position(mid, true), f(last), after);
    } else {
      assert Entries(ps, f) == Entries(init, f);
      assert NonEmpty(ps) == NonEmpty(init);
    }
  }

  lemma SnapshotEntriesRun(levels: seq<Level>, ps: seq<Property>)
    requires ElementSlot(levels)
    ensures Goes(Position(levels, true), SnapshotEntries(ps), Position(Advance(levels, |NonEmpty(ps)|), true))
  {
    forall p: Position, prop: Property | ValueAllowed(p)
      ensures Goes(p, SnapshotEntry(prop), Position(Advance(p.levels, 1), true))
    {
      SnapshotEntryRun(p, prop);
    }
    EntriesRun(levels, ps, SnapshotEntry);
  }

  lemma StateEntriesRun(levels: seq<Level>, ps: seq<Property>)
    requires ElementSlot(levels)
    ensures Goes(Position(levels, true), StateEntries(ps), Position(Advance(levels, |NonEmpty(ps)|), true))
  {
    forall p: Position, prop: Property | ValueAllowed(p)
      ensures Goes(p, PropertyTokens(prop), Position(Advance(p.levels, 1), true))
    {
      PropertyTokensRun(p, prop);
    }
    EntriesRun(levels, ps, PropertyTokens);
  }

  // Reading values back

  /** The value tokens inside a "val" member: none when the member is
      absent, the scalar, or the array's elements. */
  function Elements(toks: seq<Token>): Option<seq<Token>> {
    if toks == [] then Some([])
    else if |toks| == 2 && toks[0] == Key("val") then Some(toks[1..])
    else if |toks| >= 5 && toks[0] == Key("val") && toks[1] == StartArr && toks[|toks| - 1] == EndArr
    then Some(toks[2..|toks| - 1])
    else None
  }

  function NatOf(t: Token): nat { if t.UInt? then t.n else 0 }
  function IntOf(t: Token): int { if t.Int? then t.i else if t.UInt? then t.n else 0 }
  function BoolOf(t: Token): bool { t.Bool? && t.b }
  function RealOf(t: Token): real { if t.Num? && t.d.Real? then t.d.r else 0.0 }
  function StrOf(t: Token): string { if t.Str? then t.s else "" }

  predicate AllUInt(xs: seq<Token>) { forall i | 0 <= i < |xs| :: xs[i].UInt? }

  /** Reads a "val" member back, given the property's type: `meta` supplies
      the type tag, the signed flag, the limits and the enum table, and the
      tokens supply the count and the values. */
  function Decode(meta: Kind, toks: seq<Token>): Option<Kind> {
    match Elements(toks)
    case None => None
    case Some(xs) => DecodeValues(meta, xs)
  }

  /** The values of a "val" member read back as the type `meta` names. */
  function DecodeValues(meta: Kind, xs: seq<Token>): Option<Kind> {
      var n := |xs|;
      match meta
      case BitField(_) =>
        if AllUInt(xs) then Some(BitField(seq(n, i requires 0 <= i < n => NatOf(xs[i])))) else None
      case Boolean(_) =>
        if forall i | 0 <= i < n :: xs[i].Bool? then Some(Boolean(seq(n, i requires 0 <= i < n => BoolOf(xs[i])))) else None
      case Enum(_, table) =>
        if AllUInt(xs) then Some(Enum(seq(n, i requires 0 <= i < n => NatOf(xs[i])), table)) else None
      case Float(_, mn, mx) =>
        if forall i | 0 <= i < n :: xs[i].Num? && xs[i].d.Real? then Some(Float(seq(n, i requires 0 <= i < n => RealOf(xs[i])), mn, mx)) else None
      case Integer(_, signed, mn, mx) =>
        if (signed && forall i | 0 <= i < n :: xs[i].Int?) || (!signed && AllUInt(xs))
        then Some(Integer(seq(n, i requires 0 <= i < n => IntOf(xs[i])), signed, mn, mx))
        else None
      case Text(_) =>
        if forall i | 0 <= i < n :: xs[i].Str? then Some(Text(seq(n, i requires 0 <= i < n => StrOf(xs[i])))) else None
      case Buffer(_) =>
        if forall i | 0 <= i < n :: xs[i].Str? then Some(Buffer(seq(n, i requires 0 <= i < n => StrOf(xs[i])))) else None
  }

  /** Integer values that the int32_t / uint32_t conversion keeps unchanged. */
  predicate IntegersFit(k: Kind) {
    k.Integer? ==>
      forall i | 0 <= i < |k.ints| ::
        if k.signed then -TwoTo31 <= k.ints[i] < TwoTo31 else 0 <= k.ints[i] < TwoTo32
  }

  lemma ElementsOfValueTokens(k: Kind)
    ensures Elements(ValueTokens(k)) == Some(Scalars(k))
  {
    var v, xs := ValueTokens(k), Scalars(k);
    if k.Count() == 0 {
      assert xs == [];
    } else if k.Count() == 1 {
      assert v == [Key("val")] + xs;
      assert v[1..] == xs;
    } else {
      MemberArrayFlat("val", xs);
      assert v[2..|v| - 1] == xs;
    }
  }

  /** Round trip: every value and the number of values come back from the
      "val" member, for every type and every count. */
  lemma RoundTrip(k: Kind)
    requires IntegersFit(k)
    ensures Decode(k, ValueTokens(k)) == Some(k)
  {
    ElementsOfValueTokens(k);
    ValuesRoundTrip(k);
  }

  lemma ValuesRoundTrip(k: Kind)
    requires IntegersFit(k)
    ensures DecodeValues(k, Scalars(k)) == Some(k)
  {
    var xs := Scalars(k);
    var n := |xs|;
    match k
    case BitField(v) =>
      assert seq(n, i requires 0 <= i < n => NatOf(xs[i])) == v;
    case Boolean(v) =>
      assert seq(n, i requires 0 <= i < n => BoolOf(xs[i])) == v;
    case Enum(v, _) =>
      assert seq(n, i requires 0 <= i < n => NatOf(xs[i])) == v;
    case Float(v, _, _) =>
      assert seq(n, i requires 0 <= i < n => RealOf(xs[i])) == v;
    case Integer(v, signed, _, _) =>
      IntegersRoundTrip(k);
    case Text(v) =>
      assert seq(n, i requires 0 <= i < n => StrOf(xs[i])) == v;
    case Buffer(v) =>
      assert seq(n, i requires 0 <= i < n => StrOf(xs[i])) == v;
  }

  /** The Integer case of RoundTrip: the conversions keep fitting values. */
  lemma IntegersRoundTrip(k: Kind)
    requires k.Integer? && IntegersFit(k)
    ensures var xs := Scalars(k); seq(|xs|, i requires 0 <= i < |xs| => IntOf(xs[i])) == k.ints
  {
    var xs := Scalars(k);
    forall i | 0 <= i < |xs|
      ensures IntOf(xs[i]) == k.ints[i]
    {
      assert xs[i] == Scalar(k, i);
    }
  }

  /** A signed value outside int32_t does not come back: the recorder writes
      the wrapped value (2^31 is read back as -2^31). */
  lemma SignedOverflowWraps()
    ensures Decode(Integer([TwoTo31 as int], true, 0, 0), ValueTokens(Integer([TwoTo31 as int], true, 0, 0)))
         == Some(Integer([-TwoTo31], true, 0, 0))
  {
    var k := Integer([TwoTo31 as int], true, 0, 0);
    ElementsOfValueTokens(k);
    var xs := Scalars(k);
    assert xs == [Int(-TwoTo31)];
    assert seq(1, i requires 0 <= i < 1 => IntOf(xs[i])) == [-TwoTo31];
  }
}
