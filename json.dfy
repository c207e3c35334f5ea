/**
 * The JSON text of one LJR line, abstracted to tokens, and the streaming
 * writer that produces it (rapidjson::Writer bound to its StringBuffer).
 *
 * A line is well formed when the scope automaton `Scan` accepts it and
 * ends with the root value written and every scope closed (`Document`).
 * The automaton is the one rapidjson keeps in its level stack: one level per
 * open object or array, with the number of values written in it, and a flag
 * saying the single root value has been started.
 */
module Json {
  import opened Wrappers

  /** A JSON number written with Writer::Double: either a real value, or a raw
      integer divided by a scale factor at serialisation time. */
  datatype Number = Real(r: real) | Ratio(raw: int, scale: int)

  datatype Token =
    | StartObj | EndObj | StartArr | EndArr
    | Key(name: string)
    | UInt(n: nat)      // Writer::Uint and Writer::Uint64
    | Int(i: int)       // Writer::Int64
    | Bool(b: bool)
    | Str(s: string)
    | Num(d: Number)    // Writer::Double
  {
    predicate IsScalar() { UInt? || Int? || Bool? || Str? || Num? }
  }

  /** One open scope: an array, or an object whose keys and values are both
      counted (an even count means a key comes next). */
  datatype Level = Level(inArray: bool, valueCount: nat)

  datatype Position = Position(levels: seq<Level>, hasRoot: bool)

  const Fresh := Position([], false)
  const Finished := Position([], true)

  function Top(levels: seq<Level>): Level
    requires levels != []
  {
    levels[|levels| - 1]
  }

  /** Counts `n` more values in the innermost open scope. */
  function Advance(levels: seq<Level>, n: nat): (r: seq<Level>)
    ensures |r| == |levels|
    ensures levels != [] ==> r[..|r| - 1] == levels[..|levels| - 1]
    ensures levels != [] ==> Top(r) == Level(Top(levels).inArray, Top(levels).valueCount + n)
  {
    if levels == [] then []
    else levels[..|levels| - 1] + [Level(Top(levels).inArray, Top(levels).valueCount + n)]
  }

  lemma Assoc<T>(a: seq<T>, b: seq<T>, c: seq<T>)
    ensures a + b + c == a + (b + c)
  {
  }

  lemma AdvanceAdds(levels: seq<Level>, a: nat, b: nat)
    ensures Advance(Advance(levels, a), b) == Advance(levels, a + b)
    ensures Advance(levels, 0) == levels
  {
  }

  lemma AdvancePushed(levels: seq<Level>, top: Level, n: nat)
    ensures Advance(levels + [top], n) == levels + [Level(top.inArray, top.valueCount + n)]
  {
    assert (levels + [top])[..|levels|] == levels;
  }

  /** A value may start here: as the root, as an array element, or after a key. */
  predicate ValueAllowed(p: Position) {
    if p.levels == [] then !p.hasRoot
    else Top(p.levels).inArray || Top(p.levels).valueCount % 2 == 1
  }

  /** Inside an object, where a key or the closing brace comes next. */
  predicate MemberSlot(levels: seq<Level>) {
    levels != [] && !Top(levels).inArray && Top(levels).valueCount % 2 == 0
  }

  /** Inside an array, where an element or the closing bracket comes next. */
  predicate ElementSlot(levels: seq<Level>) {
    levels != [] && Top(levels).inArray
  }

  /** One token of the automaton; None where rapidjson's assertions fail. */
  function Step(p: Position, t: Token): (r: Option<Position>)
    ensures r.Some? ==> r.value.hasRoot
    ensures r.Some? && (t.StartObj? || t.StartArr?) ==> |r.value.levels| == |p.levels| + 1
    ensures r.Some? && (t.EndObj? || t.EndArr?) ==> |r.value.levels| + 1 == |p.levels|
    ensures r.Some? && (t.Key? || t.IsScalar()) ==> |r.value.levels| == |p.levels|
  {
    match t
    case Key(_) =>
      if MemberSlot(p.levels) && p.hasRoot then Some(Position(Advance(p.levels, 1), true)) else None
    case EndObj =>
      if MemberSlot(p.levels) && p.hasRoot then Some(Position(p.levels[..|p.levels| - 1], true)) else None
    case EndArr =>
      if ElementSlot(p.levels) && p.hasRoot then Some(Position(p.levels[..|p.levels| - 1], true)) else None
    case StartObj =>
      if ValueAllowed(p) then Some(Position(Advance(p.levels, 1) + [Level(false, 0)], true)) else None
    case StartArr =>
      if ValueAllowed(p) then Some(Position(Advance(p.levels, 1) + [Level(true, 0)], true)) else None
    case _ =>
      if ValueAllowed(p) then Some(Position(Advance(p.levels, 1), true)) else None
  }

  /** Runs the automaton over `s` from position `p`. */
  function Run(p: Position, s: seq<Token>): Option<Position>
    decreases |s|
  {
    if s == [] then Some(p)
    else match Run(p, s[..|s| - 1])
      case None => None
      case Some(q) => Step(q, s[|s| - 1])
  }

  /** Runs the automaton over a whole token sequence. */
  function Scan(s: seq<Token>): Option<Position> {
    Run(Fresh, s)
  }

  /** A complete JSON text: one root value, every scope closed. */
  predicate Document(s: seq<Token>) {
    Scan(s) == Some(Finished)
  }

  /** `s` takes the automaton from `p` to `q` without an assertion failing. */
  predicate Goes(p: Position, s: seq<Token>, q: Position) {
    Run(p, s) == Some(q)
  }

  lemma RunSnoc(p: Position, s: seq<Token>, t: Token)
    ensures Run(p, s + [t]) == if Run(p, s).None? then None else Step(Run(p, s).value, t)
  {
    assert (s + [t])[..|s|] == s;
  }

  lemma ScanSnoc(s: seq<Token>, t: Token)
    ensures Scan(s + [t]) == if Scan(s).None? then None else Step(Scan(s).value, t)
  {
    RunSnoc(Fresh, s, t);
  }

  /** Running over two pieces is running over the first, then the second. */
  lemma {:induction false} RunAppend(p: Position, a: seq<Token>, b: seq<Token>)
    ensures Run(p, a + b) == if Run(p, a).None? then None else Run(Run(p, a).value, b)
    decreases |b|
  {
    if b == [] {
      assert a + b == a;
    } else {
      var b', t := b[..|b| - 1], b[|b| - 1];
      assert a + b == (a + b') + [t];
      RunSnoc(p, a + b', t);
      RunAppend(p, a, b');
      if Run(p, a).Some? {
        RunSnoc(Run(p, a).value, b', t);
        assert b' + [t] == b;
      }
    }
  }

  /** Paths compose. */
  lemma Chain(p: Position, a: seq<Token>, q: Position, b: seq<Token>, r: Position)
    requires Goes(p, a, q) && Goes(q, b, r)
    ensures Goes(p, a + b, r)
  {
    RunAppend(p, a, b);
  }

  lemma StepScalar(p: Position, t: Token)
    requires t.IsScalar() && ValueAllowed(p)
    ensures Step(p, t) == Some(Position(Advance(p.levels, 1), true))
  {
  }

  /** A run of scalars inside an array counts one element per scalar. */
  lemma {:induction false} ElementsRun(levels: seq<Level>, xs: seq<Token>)
    requires ElementSlot(levels)
    requires forall i | 0 <= i < |xs| :: xs[i].IsScalar()
    ensures Goes(Position(levels, true), xs, Position(Advance(levels, |xs|), true))
    decreases |xs|
  {
    if xs == [] {
      AdvanceAdds(levels, 0, 0);
    } else {
      var xs', t := xs[..|xs| - 1], xs[|xs| - 1];
      ElementsRun(levels, xs');
      StepScalar(Position(Advance(levels, |xs'|), true), t);
      AdvanceAdds(levels, |xs'|, 1);
    }
  }

  lemma GoesSnoc(p: Position, a: seq<Token>, q: Position, t: Token, r: Position)
    requires Goes(p, a, q) && Step(q, t) == Some(r)
    ensures Goes(p, a + [t], r)
  {
    RunSnoc(p, a, t);
  }

  lemma GoesOne(p: Position, t: Token, r: Position)
    requires Step(p, t) == Some(r)
    ensures Goes(p, [t], r)
  {
    GoesSnoc(p, [], p, t, r);
    assert [] + [t] == [t];
  }

  // Building texts

  /** {members} */
  function Object(members: seq<Token>): seq<Token> {
    [StartObj] + members + [EndObj]
  }

  /** [elements] */
  function Array(elements: seq<Token>): seq<Token> {
    [StartArr] + elements + [EndArr]
  }

  /** "name": value */
  function Member(name: string, value: seq<Token>): seq<Token> {
    [Key(name)] + value
  }

  // The builders token by token, in the order a writer appends them

  lemma MemberArrayFlat(name: string, e: seq<Token>)
    ensures Member(name, Array(e)) == [Key(name), StartArr] + e + [EndArr]
  {
    Assoc([Key(name)], [StartArr] + e, [EndArr]);
    Assoc([Key(name)], [StartArr], e);
  }

  lemma MemberArrayWritten(t: seq<Token>, name: string, e: seq<Token>)
    ensures t + [Key(name)] + [StartArr] + e + [EndArr] == t + Member(name, Array(e))
  {
    MemberArrayFlat(name, e);
    Assoc(t, [Key(name)], [StartArr]);
    Assoc(t, [Key(name), StartArr], e);
    Assoc(t, [Key(name), StartArr] + e, [EndArr]);
  }

  lemma MemberObjectWritten(t: seq<Token>, name: string, m: seq<Token>)
    ensures t + [Key(name)] + [StartObj] + m + [EndObj] == t + Member(name, Object(m))
  {
    Assoc(t, [Key(name)], [StartObj]);
    Assoc(t, [Key(name), StartObj], m);
    Assoc(t, [Key(name), StartObj] + m, [EndObj]);
    Assoc([Key(name)], [StartObj] + m, [EndObj]);
    Assoc([Key(name)], [StartObj], m);
  }

  lemma ObjectArrayFlat(name: string, e: seq<Token>)
    ensures Object(Member(name, Array(e))) == [StartObj, Key(name), StartArr] + e + [EndArr] + [EndObj]
  {
    MemberArrayFlat(name, e);
    Assoc([StartObj], [Key(name), StartArr], e);
  }

  lemma NestedObjectFlat(name: string, m: seq<Token>)
    ensures Object(Member(name, Object(m))) == [StartObj, Key(name), StartObj] + m + [EndObj] + [EndObj]
  {
    Assoc([Key(name)], [StartObj] + m, [EndObj]);
    Assoc([Key(name)], [StartObj], m);
    Assoc([StartObj], [Key(name), StartObj], m);
  }

  /** A single scalar where a value may start. */
  lemma ScalarRun(p: Position, t: Token)
    requires ValueAllowed(p) && t.IsScalar()
    ensures Goes(p, [t], Position(Advance(p.levels, 1), true))
  {
    StepScalar(p, t);
    GoesOne(p, t, Position(Advance(p.levels, 1), true));
  }

  /** A member of an object: its key, then a value the automaton accepts
      after the key. The object counts one key and one value. */
  lemma MemberRun(levels: seq<Level>, name: string, value: seq<Token>)
    requires MemberSlot(levels)
    requires Goes(Position(Advance(levels, 1), true), value, Position(Advance(levels, 2), true))
    ensures Goes(Position(levels, true), Member(name, value), Position(Advance(levels, 2), true))
  {
    GoesOne(Position(levels, true), Key(name), Position(Advance(levels, 1), true));
    Chain(Position(levels, true), [Key(name)], Position(Advance(levels, 1), true), value, Position(Advance(levels, 2), true));
  }

  /** A member whose value is one scalar. */
  lemma ScalarMemberRun(levels: seq<Level>, name: string, t: Token)
    requires MemberSlot(levels) && t.IsScalar()
    ensures Goes(Position(levels, true), Member(name, [t]), Position(Advance(levels, 2), true))
  {
    ScalarRun(Position(Advance(levels, 1), true), t);
    AdvanceAdds(levels, 1, 1);
    MemberRun(levels, name, [t]);
  }

  /** An object whose members leave the automaton in a member slot. */
  lemma ObjectRun(p: Position, members: seq<Token>, count: nat)
    requires ValueAllowed(p) && count % 2 == 0
    requires Goes(Position(Advance(p.levels, 1) + [Level(false, 0)], true), members,
                  Position(Advance(p.levels, 1) + [Level(false, count)], true))
    ensures Goes(p, Object(members), Position(Advance(p.levels, 1), true))
  {
    var outer := Advance(p.levels, 1);
    var q := Position(outer + [Level(false, 0)], true);
    var r := Position(outer + [Level(false, count)], true);
    GoesOne(p, StartObj, q);
    Chain(p, [StartObj], q, members, r);
    assert (outer + [Level(false, count)])[..|outer|] == outer;
    GoesSnoc(p, [StartObj] + members, r, EndObj, Position(outer, true));
  }

  /** An array whose elements leave the automaton in an element slot. */
  lemma ArrayRun(p: Position, elements: seq<Token>, count: nat)
    requires ValueAllowed(p)
    requires Goes(Position(Advance(p.levels, 1) + [Level(true, 0)], true), elements,
                  Position(Advance(p.levels, 1) + [Level(true, count)], true))
    ensures Goes(p, Array(elements), Position(Advance(p.levels, 1), true))
  {
    var outer := Advance(p.levels, 1);
    var q := Position(outer + [Level(true, 0)], true);
    var r := Position(outer + [Level(true, count)], true);
    GoesOne(p, StartArr, q);
    Chain(p, [StartArr], q, elements, r);
    assert (outer + [Level(true, count)])[..|outer|] == outer;
    GoesSnoc(p, [StartArr] + elements, r, EndArr, Position(outer, true));
  }

  /** An array of scalars. */
  lemma ScalarArrayRun(p: Position, xs: seq<Token>)
    requires ValueAllowed(p)
    requires forall i | 0 <= i < |xs| :: xs[i].IsScalar()
    ensures Goes(p, Array(xs), Position(Advance(p.levels, 1), true))
  {
    var outer := Advance(p.levels, 1);
    ElementsRun(outer + [Level(true, 0)], xs);
    AdvancePushed(outer, Level(true, 0), |xs|);
    ArrayRun(p, xs, |xs|);
  }

  /** The fragments `f(x)` of the `xs`, one after the other. */
  function Join<T>(xs: seq<T>, f: T -> seq<Token>): seq<Token>
    decreases |xs|
  {
    if xs == [] then [] else Join(xs[..|xs| - 1], f) + f(xs[|xs| - 1])
  }

  lemma JoinSnoc<T>(xs: seq<T>, x: T, f: T -> seq<Token>)
    ensures Join(xs + [x], f) == Join(xs, f) + f(x)
  {
    assert (xs + [x])[..|xs|] == xs;
  }

  /** `f` writes one member (a key and its value) wherever a key may come. */
  ghost predicate WritesMember<T(!new)>(f: T -> seq<Token>) {
    forall levels: seq<Level>, x: T
      {:trigger Goes(Position(levels, true), f(x), Position(Advance(levels, 2), true))}
      | MemberSlot(levels) :: Goes(Position(levels, true), f(x), Position(Advance(levels, 2), true))
  }

  /** Members written one after the other stay in the same object. */
  lemma {:induction false} MembersRun<T(!new)>(levels: seq<Level>, xs: seq<T>, f: T -> seq<Token>)
    requires MemberSlot(levels) && WritesMember(f)
    ensures Goes(Position(levels, true), Join(xs, f), Position(Advance(levels, 2 * |xs|), true))
    decreases |xs|
  {
    if xs == [] {
      AdvanceAdds(levels, 0, 0);
    } else {
      MembersRun(levels, xs[..|xs| - 1], f);
      MembersSnoc(levels, xs, f);
    }
  }

  /** After `m` members an object is still in a member slot, and one more
      member is two more values. */
  lemma MembersAdvance(levels: seq<Level>, m: nat, n: nat)
    requires MemberSlot(levels) && n == m + 1
    ensures MemberSlot(Advance(levels, 2 * m))
    ensures Advance(Advance(levels, 2 * m), 2) == Advance(levels, 2 * n)
  {
    AdvanceAdds(levels, 2 * m, 2);
  }

  /** After `m` elements an array is still in an element slot. */
  lemma ElementsAdvance(levels: seq<Level>, m: nat, n: nat)
    requires ElementSlot(levels) && n == m + 1
    ensures ElementSlot(Advance(levels, m))
    ensures Advance(Advance(levels, m), 1) == Advance(levels, n)
  {
    AdvanceAdds(levels, m, 1);
  }

  lemma MembersSnoc<T(!new)>(levels: seq<Level>, xs: seq<T>, f: T -> seq<Token>)
    requires MemberSlot(levels) && WritesMember(f) && xs != []
    requires Goes(Position(levels, true), Join(xs[..|xs| - 1], f), Position(Advance(levels, 2 * (|xs| - 1)), true))
    ensures Goes(Position(levels, true), Join(xs, f), Position(Advance(levels, 2 * |xs|), true))
  {
    var init, last := xs[..|xs| - 1], xs[|xs| - 1];
    var mid := Advance(levels, 2 * |init|);
    var after := Advance(levels, 2 * |xs|);
    MembersAdvance(levels, |init|, |xs|);
    Chain(Position(levels, true), Join(init, f), Position(mid, true), f(last), Position(after, true));
  }

  /** `f` writes one complete element wherever an array expects one. */
  ghost predicate WritesElement<T(!new)>(f: T -> seq<Token>) {
    forall levels: seq<Level>, x: T
      {:trigger Goes(Position(levels, true), f(x), Position(Advance(levels, 1), true))}
      | ElementSlot(levels) :: Goes(Position(levels, true), f(x), Position(Advance(levels, 1), true))
  }

  /** Elements written one after the other stay in the same array. */
  lemma {:induction false} ElementsJoinRun<T(!new)>(levels: seq<Level>, xs: seq<T>, f: T -> seq<Token>)
    requires ElementSlot(levels) && WritesElement(f)
    ensures Goes(Position(levels, true), Join(xs, f), Position(Advance(levels, |xs|), true))
    decreases |xs|
  {
    if xs == [] {
      AdvanceAdds(levels, 0, 0);
    } else {
      ElementsJoinRun(levels, xs[..|xs| - 1], f);
      ElementsSnoc(levels, xs, f);
    }
  }

  lemma ElementsSnoc<T(!new)>(levels: seq<Level>, xs: seq<T>, f: T -> seq<Token>)
    requires ElementSlot(levels) && WritesElement(f) && xs != []
    requires Goes(Position(levels, true), Join(xs[..|xs| - 1], f), Position(Advance(levels, |xs| - 1), true))
    ensures Goes(Position(levels, true), Join(xs, f), Position(Advance(levels, |xs|), true))
  {
    var init, last := xs[..|xs| - 1], xs[|xs| - 1];
    var mid := Advance(levels, |init|);
    var after := Advance(levels, |xs|);
    ElementsAdvance(levels, |init|, |xs|);
    Chain(Position(levels, true), Join(init, f), Position(mid, true), f(last), Position(after, true));
  }

  /** Three paths compose. */
  lemma Chain3(p0: Position, a: seq<Token>, p1: Position, b: seq<Token>, p2: Position, c: seq<Token>, p3: Position)
    requires Goes(p0, a, p1) && Goes(p1, b, p2) && Goes(p2, c, p3)
    ensures Goes(p0, a + b + c, p3)
  {
    Chain(p0, a, p1, b, p2);
    Chain(p0, a + b, p2, c, p3);
  }

  /** `n` values counted in the innermost scope, which `inner` encloses. */
  lemma PushedRun(inner: seq<Level>, inArray: bool, c: nat, s: seq<Token>, n: nat)
    requires Goes(Position(inner + [Level(inArray, c)], true), s, Position(Advance(inner + [Level(inArray, c)], n), true))
    ensures Goes(Position(inner + [Level(inArray, c)], true), s, Position(inner + [Level(inArray, c + n)], true))
  {
    AdvancePushed(inner, Level(inArray, c), n);
  }

  /** A whole text that is one object: a document. */
  lemma ObjectDocument(members: seq<Token>, count: nat)
    requires count % 2 == 0
    requires Goes(Position([Level(false, 0)], true), members, Position([Level(false, count)], true))
    ensures Document(Object(members))
  {
    assert Advance([], 1) + [Level(false, 0)] == [Level(false, 0)];
    assert Advance([], 1) + [Level(false, count)] == [Level(false, count)];
    ObjectRun(Fresh, members, count);
  }

  /** Nothing can follow a complete document on the same line: a line holds
      exactly one JSON text. */
  lemma {:induction false} DocumentIsFinal(a: seq<Token>, b: seq<Token>)
    requires Document(a) && b != []
    ensures Scan(a + b) == None
  {
    var b', t := b[..|b| - 1], b[|b| - 1];
    assert a + b == (a + b') + [t];
    ScanSnoc(a + b', t);
    if b' == [] {
      assert a + b' == a;
    } else {
      DocumentIsFinal(a, b');
    }
  }

  function Opens(s: seq<Token>): nat
    decreases |s|
  {
    if s == [] then 0
    else Opens(s[..|s| - 1]) + (if s[|s| - 1].StartObj? || s[|s| - 1].StartArr? then 1 else 0)
  }

  function Closes(s: seq<Token>): nat
    decreases |s|
  {
    if s == [] then 0
    else Closes(s[..|s| - 1]) + (if s[|s| - 1].EndObj? || s[|s| - 1].EndArr? then 1 else 0)
  }

  /** The open levels are the brackets opened and not yet closed. */
  lemma {:induction false} ScanDepth(s: seq<Token>)
    requires Scan(s).Some?
    ensures Opens(s) == Closes(s) + |Scan(s).value.levels|
  {
    if s != [] {
      var s', t := s[..|s| - 1], s[|s| - 1];
      assert s == s' + [t];
      ScanSnoc(s', t);
      ScanDepth(s');
    }
  }

  /** Every bracket of a document is matched, and a document is never empty. */
  lemma DocumentBalanced(s: seq<Token>)
    requires Document(s)
    ensures s != [] && Opens(s) == Closes(s)
  {
    ScanDepth(s);
  }

  /**
   * rapidjson::Writer over its StringBuffer. `text` is what the buffer
   * holds. The writer's level stack and root flag change token by token as
   * Step changes a Position, and the buffer is only ever cleared together
   * with a writer reset, so they are the scan of `text`: At() below.
   * Each writing method appends its token. The assertions rapidjson checks
   * before writing are not preconditions here; instead every line the
   * recorder writes is proved a Document, which no failing assertion allows.
   */
  class JsonWriter {
    var text: seq<Token>

    /** The level stack and root flag, or None once an assertion failed. */
    function At(): Option<Position>
      reads this
    {
      Scan(text)
    }

    /** Writer::IsComplete: the root value is written and closed. */
    predicate IsComplete()
      reads this
    {
      At() == Some(Finished)
    }

    /** Freshly reset and cleared: nothing buffered, no root yet. */
    predicate Idle()
      reads this
    {
      text == []
    }

    constructor ()
      ensures Idle() && At() == Some(Fresh)
    {
      text := [];
    }

    method StartObject()
      modifies this
      ensures text == old(text) + [StartObj]
    {
      text := text + [StartObj];
    }

    method StartArray()
      modifies this
      ensures text == old(text) + [StartArr]
    {
      text := text + [StartArr];
    }

    method EndObject()
      modifies this
      ensures text == old(text) + [EndObj]
    {
      text := text + [EndObj];
    }

    method EndArray()
      modifies this
      ensures text == old(text) + [EndArr]
    {
      text := text + [EndArr];
    }

    method Key(name: string)
      modifies this
      ensures text == old(text) + [Token.Key(name)]
    {
      text := text + [Token.Key(name)];
    }

    /** Writer::Uint, Uint64, Int64, Bool, Double and String. */
    method Value(t: Token)
      requires t.IsScalar()
      modifies this
      ensures text == old(text) + [t]
    {
      text := text + [t];
    }

    /** StringBuffer::Clear followed by Writer::Reset: the buffer is emptied
        and the writer forgets its level stack and its root. */
    method Restart()
      modifies this
      ensures Idle() && At() == Some(Fresh)
    {
      text := [];
    }
  }
}
