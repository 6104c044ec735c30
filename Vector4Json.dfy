/** `Vector4JsonConverter`: how a palette colour is read from and written to the
    configuration file. The reader is a sequence of JSON tokens and the index of
    the current one; a number token carries the `float` that `GetSingle`
    returns. The converter reads either the array form `[x, y, z, w]` or an
    object whose keys name the components, and always writes the array form. */
module Vector4Json {
  import opened Colors
  import opened Text
  import opened Wrappers

  datatype Token =
    | StartArray | EndArray | StartObject | EndObject
    | PropertyName(name: string) | StringValue(text: string) | Number(value: Single)
    | TrueValue | FalseValue | NullValue

  /** What made reading fail: the leading token is neither `[` nor `{`
      (`JsonException`), a token read with the wrong accessor
      (`InvalidOperationException`), or a member name that read as null
      (`NullReferenceException` at the switch). */
  datatype ReadError = InvalidVector | WrongTokenType | NullName

  /** The converter's result: the colour and the index of the last token it
      consumed, or the error it stops with. */
  datatype ReadResult = Done(value: Vector4, last: nat) | Failed(error: ReadError)

  /** `reader.Read()`: the next token, or the same position once the input is
      used up (where `Read` returns false and the current token stays). */
  function Next(tokens: seq<Token>, pos: nat): (r: nat)
    requires pos < |tokens|
    ensures r < |tokens|
    ensures r == pos + 1 || (r == pos && pos + 1 == |tokens|)
  {
    if pos + 1 < |tokens| then pos + 1 else pos
  }

  /** `GetSingle`: the number of a number token; any other token fails. */
  function GetSingle(t: Token): (r: Option<Single>)
    ensures r.Some? <==> t.Number?
  {
    if t.Number? then Some(t.value) else None
  }

  /** `GetString`: the text of a name or string token, null for a null token;
      any other token fails. */
  datatype StringRead = Text(s: string) | NullString | NotAString

  function GetString(t: Token): StringRead
  {
    match t
    case PropertyName(n) => Text(n)
    case StringValue(s) => Text(s)
    case NullValue => NullString
    case _ => NotAString
  }

  /** The component a member name sets, by its lower-cased form. */
  datatype Axis = AxisX | AxisY | AxisZ | AxisW | Ignored

  function AxisOf(name: string): (a: Axis)
    ensures a == AxisX <==> ToLower(name) in ["x", "r", "red"]
    ensures a == AxisY <==> ToLower(name) in ["y", "g", "green"]
    ensures a == AxisZ <==> ToLower(name) in ["z", "b", "blue"]
    ensures a == AxisW <==> ToLower(name) in ["w", "a", "alpha"]
  {
    var n := ToLower(name);
    if n == "x" || n == "r" || n == "red" then AxisX
    else if n == "y" || n == "g" || n == "green" then AxisY
    else if n == "z" || n == "b" || n == "blue" then AxisZ
    else if n == "w" || n == "a" || n == "alpha" then AxisW
    else Ignored
  }

  /** The component `a` of `v`; an ignored name reads no component. */
  function Component(v: Vector4, a: Axis): Option<Single>
  {
    match a
    case AxisX => Some(v.x)
    case AxisY => Some(v.y)
    case AxisZ => Some(v.z)
    case AxisW => Some(v.w)
    case Ignored => None
  }

  /** `v` with the component that `name` names set to `c`. */
  function Assign(v: Vector4, name: string, c: Single): (r: Vector4)
    ensures AxisOf(name) != Ignored ==> Component(r, AxisOf(name)) == Some(c)
    ensures forall a :: a != AxisOf(name) ==> Component(r, a) == Component(v, a)
  {
    match AxisOf(name)
    case AxisX => v.(x := c)
    case AxisY => v.(y := c)
    case AxisZ => v.(z := c)
    case AxisW => v.(w := c)
    case Ignored => v
  }

  /** The four locals start at zero. */
  const Zero := Vector4(Single(0), Single(0), Single(0), Single(0))

  /** The array form: four `Read`/`GetSingle` steps and one more `Read` that
      is meant to land on `]`. The converter does not check that token; the
      serializer around it rejects a converter that does not stop on the
      closing `]`. This models the converter's own result only. */
  function ReadArray(tokens: seq<Token>, start: nat): ReadResult
    requires start < |tokens|
  {
    var p1 := Next(tokens, start);
    var p2 := Next(tokens, p1);
    var p3 := Next(tokens, p2);
    var p4 := Next(tokens, p3);
    var x, y, z, w := GetSingle(tokens[p1]), GetSingle(tokens[p2]), GetSingle(tokens[p3]), GetSingle(tokens[p4]);
    if x.None? || y.None? || z.None? || w.None? then Failed(WrongTokenType)
    else Done(Vector4(x.value, y.value, z.value, w.value), Next(tokens, p4))
  }

  /** The object form's loop from the member before `cur + 1`, with `acc` the
      components read so far: it stops at `}` or at the end of the input, and
      otherwise reads a name, then a number, then sets the named component. */
  function ReadMembers(tokens: seq<Token>, cur: nat, acc: Vector4): ReadResult
    requires cur < |tokens|
    decreases |tokens| - cur
  {
    if cur + 1 == |tokens| then Done(acc, cur)
    else if tokens[cur + 1] == EndObject then Done(acc, cur + 1)
    else
      var name := GetString(tokens[cur + 1]);
      var valuePos := Next(tokens, cur + 1);
      var v := GetSingle(tokens[valuePos]);
      if name.NotAString? || v.None? then Failed(WrongTokenType)
      else if name.NullString? then Failed(NullName)
      else ReadMembers(tokens, valuePos, Assign(acc, name.s, v.value))
  }

  /** `Read`, with the reader on the token at `start`. */
  function Read(tokens: seq<Token>, start: nat): (r: ReadResult)
    requires start < |tokens|
    ensures !tokens[start].StartArray? && !tokens[start].StartObject? ==> r == Failed(InvalidVector)
    ensures r.Done? ==> start <= r.last < |tokens|
  {
    ReadLast(tokens, start);
    match tokens[start]
    case StartArray => ReadArray(tokens, start)
    case StartObject => ReadMembers(tokens, start, Zero)
    case _ => Failed(InvalidVector)
  }

  /** The converter never reports a position before the one it started at or
      past the end. */
  lemma {:induction false} ReadLast(tokens: seq<Token>, start: nat)
    requires start < |tokens|
    ensures ReadArray(tokens, start).Done? ==> start <= ReadArray(tokens, start).last < |tokens|
    ensures forall acc :: ReadMembers(tokens, start, acc).Done? ==>
              start <= ReadMembers(tokens, start, acc).last < |tokens|
    decreases |tokens| - start
  {
    if start + 1 < |tokens| && tokens[start + 1] != EndObject {
      ReadLast(tokens, Next(tokens, start + 1));
    }
  }

  /** `Read` as the converter runs it: the array form straight-line, the object
      form in a loop over the members that assigns the four locals. */
  method ReadVector4(tokens: seq<Token>, start: nat) returns (r: ReadResult)
    requires start < |tokens|
    ensures r == Read(tokens, start)
  {
    if tokens[start] == StartArray {
      var p1 := Next(tokens, start);
      var x := GetSingle(tokens[p1]);
      var p2 := Next(tokens, p1);
      var y := GetSingle(tokens[p2]);
      var p3 := Next(tokens, p2);
      var z := GetSingle(tokens[p3]);
      var p4 := Next(tokens, p3);
      var w := GetSingle(tokens[p4]);
      if x.None? || y.None? || z.None? || w.None? {
        return Failed(WrongTokenType);
      }
      return Done(Vector4(x.value, y.value, z.value, w.value), Next(tokens, p4));
    }
    if tokens[start] == StartObject {
      var x, y, z, w := Single(0), Single(0), Single(0), Single(0);
      var cur := start;
      while cur + 1 < |tokens| && tokens[cur + 1] != EndObject
        invariant start <= cur < |tokens|
        invariant ReadMembers(tokens, start, Zero) == ReadMembers(tokens, cur, Vector4(x, y, z, w))
        decreases |tokens| - cur
      {
        cur := cur + 1;
        var name := GetString(tokens[cur]);
        cur := Next(tokens, cur);
        var v := GetSingle(tokens[cur]);
        if name.NotAString? || v.None? {
          return Failed(WrongTokenType);
        }
        if name.NullString? {
          return Failed(NullName);
        }
        var axis := AxisOf(name.s);
        if axis == AxisX {
          x := v.value;
        } else if axis == AxisY {
          y := v.value;
        } else if axis == AxisZ {
          z := v.value;
        } else if axis == AxisW {
          w := v.value;
        }
      }
      if cur + 1 < |tokens| {
        cur := cur + 1;
      }
      return Done(Vector4(x, y, z, w), cur);
    }
    return Failed(InvalidVector);
  }

  /** `Write`: `[x, y, z, w]`. `WriteNumberValue` refuses a NaN or an infinity,
      so a colour with one gives no output. */
  function Write(v: Vector4): (r: Option<seq<Token>>)
    ensures r.Some? <==> IsFinite(v.x) && IsFinite(v.y) && IsFinite(v.z) && IsFinite(v.w)
    ensures r.Some? ==> |r.value| == 6 && r.value[0] == StartArray && r.value[5] == EndArray
  {
    if IsFinite(v.x) && IsFinite(v.y) && IsFinite(v.z) && IsFinite(v.w) then
      Some([StartArray, Number(v.x), Number(v.y), Number(v.z), Number(v.w), EndArray])
    else None
  }

  /** Reading what `Write` wrote, wherever it sits in the input, gives back the
      same colour and ends on the closing `]`. */
  lemma {:induction false} RoundTrip(v: Vector4, before: seq<Token>, after: seq<Token>)
    requires Write(v).Some?
    ensures Read(before + Write(v).value + after, |before|) == Done(v, |before| + 5)
  {
    var t := before + Write(v).value + after;
    assert t[|before|..|before| + 6] == Write(v).value;
  }

  /** The members of an object: a name token and a number token each. */
  function MemberTokens(members: seq<(string, Single)>): (r: seq<Token>)
    ensures |r| == 2 * |members|
    ensures forall i :: 0 <= i < |members| ==>
              r[2 * i] == PropertyName(members[i].0) && r[2 * i + 1] == Number(members[i].1)
  {
    if members == [] then []
    else [PropertyName(members[0].0), Number(members[0].1)] + MemberTokens(members[1..])
  }

  /** The members applied in order. */
  function Apply(acc: Vector4, members: seq<(string, Single)>): Vector4
    decreases |members|
  {
    if members == [] then acc else Apply(Assign(acc, members[0].0, members[0].1), members[1..])
  }

  /** The value of the last member naming component `a`, if any. */
  function LastFor(members: seq<(string, Single)>, a: Axis): (r: Option<Single>)
    ensures r.Some? <==> exists i :: 0 <= i < |members| && AxisOf(members[i].0) == a
  {
    if members == [] then None
    else
      var rest := LastFor(members[1..], a);
      assert forall i :: 0 <= i < |members[1..]| ==> members[1..][i] == members[i + 1];
      if rest.Some? then rest
      else if AxisOf(members[0].0) == a then Some(members[0].1)
      else None
  }

  /** Each component of the result is the last value given for it, and the
      starting value when no member names it. */
  lemma {:induction false} ApplyComponents(acc: Vector4, members: seq<(string, Single)>, a: Axis)
    requires a != Ignored
    ensures Component(Apply(acc, members), a) ==
              if LastFor(members, a).Some? then LastFor(members, a) else Component(acc, a)
    decreases |members|
  {
    if members != [] {
      ApplyComponents(Assign(acc, members[0].0, members[0].1), members[1..], a);
    }
  }

  /** The loop over a well-formed member list ends on the `}` with the members
      applied in order. */
  lemma {:induction false} ReadMembersWellFormed(tokens: seq<Token>, cur: nat, members: seq<(string, Single)>,
                                                 acc: Vector4)
    requires cur + 2 * |members| + 1 < |tokens|
    requires tokens[cur + 1..cur + 2 * |members| + 2] == MemberTokens(members) + [EndObject]
    ensures ReadMembers(tokens, cur, acc) == Done(Apply(acc, members), cur + 2 * |members| + 1)
    decreases |members|
  {
    var body := MemberTokens(members) + [EndObject];
    assert tokens[cur + 1] == body[0];
    if members != [] {
      MemberTokensSplit(tokens, cur, members);
      ReadMembersWellFormed(tokens, cur + 2, members[1..], Assign(acc, members[0].0, members[0].1));
    }
  }

  /** A non-empty member list starts with its first name and number, and the
      rest of the list follows them. */
  lemma {:induction false} MemberTokensSplit(tokens: seq<Token>, cur: nat, members: seq<(string, Single)>)
    requires members != []
    requires cur + 2 * |members| + 1 < |tokens|
    requires tokens[cur + 1..cur + 2 * |members| + 2] == MemberTokens(members) + [EndObject]
    ensures tokens[cur + 1] == PropertyName(members[0].0) && tokens[cur + 2] == Number(members[0].1)
    ensures tokens[cur + 3..cur + 2 * |members[1..]| + 4] == MemberTokens(members[1..]) + [EndObject]
  {
    var body := MemberTokens(members) + [EndObject];
    assert tokens[cur + 1] == body[0];
    assert tokens[cur + 2] == body[1];
    var rest := MemberTokens(members[1..]) + [EndObject];
    forall i | 0 <= i < |rest| ensures tokens[cur + 3 + i] == rest[i] {
      assert tokens[cur + 3 + i] == body[i + 2];
    }
  }

  /** The object form: each component is the last value given under one of its
      names (any case), a component no member names is zero, unknown names are
      ignored, and reading ends on the closing `}`. */
  lemma {:induction false} ReadObject(members: seq<(string, Single)>, a: Axis)
    requires a != Ignored
    ensures var t := [StartObject] + MemberTokens(members) + [EndObject];
      Read(t, 0).Done? && Read(t, 0).last == |t| - 1 &&
      Component(Read(t, 0).value, a) == if LastFor(members, a).Some? then LastFor(members, a) else Some(Single(0))
  {
    var t := [StartObject] + MemberTokens(members) + [EndObject];
    assert t[1..2 * |members| + 2] == MemberTokens(members) + [EndObject];
    ReadMembersWellFormed(t, 0, members, Zero);
    ApplyComponents(Zero, members, a);
  }

  /** The aliases are matched whatever their case: a name, its lower-cased
      and its upper-cased forms set the same component. */
  lemma {:induction false} AxisOfIgnoresCase(name: string)
    ensures AxisOf(ToLower(name)) == AxisOf(name)
    ensures AxisOf(ToUpper(name)) == AxisOf(name)
  {
    ToLowerIdempotent(name);
    LowerOfUpper(name);
  }
}
