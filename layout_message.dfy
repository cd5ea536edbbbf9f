/** The layout message: the position and degree of an origin vertex, flooded
    across the graph with a hop budget (ttl). The ttl belongs to the message
    superclass (MessageWritable), and so does the zombie test, which is not
    modelled here (see Rounds); the payload vertex,
    the two coordinates and the degree belong to the layout message and are
    the only fields its own codec writes. */
module LayoutMessages {
  import opened JavaInts
  import opened BigEndian

  /** The `float[]{x, y}` a message carries. */
  datatype Coords = Coords(x: Float32, y: Float32)

  datatype LayoutMessage = LayoutMessage(
    payload: int64,     // the origin vertex
    ttl: int32,
    coords: Coords,
    deg: int32)         // the origin's degree, -1 unless set

  /** The value the `deg` field starts with. */
  const DEFAULT_DEG: int32 := -1

  /** The message constructor with a ttl: deg keeps its default. */
  function NewMessage(payload: int64, ttl: int32, coords: Coords): (m: LayoutMessage)
    ensures m.payload == payload && m.ttl == ttl && m.coords == coords
    ensures m.deg == DEFAULT_DEG
  {
    LayoutMessage(payload, ttl, coords, DEFAULT_DEG)
  }

  /** The constructor without a ttl, which is documented as giving ttl 0. */
  function NewMessageNoTtl(payload: int64, coords: Coords): (m: LayoutMessage)
    ensures m.payload == payload && m.ttl == 0 && m.coords == coords
    ensures m.deg == DEFAULT_DEG
  {
    NewMessage(payload, 0, coords)
  }

  function SetDeg(m: LayoutMessage, deg: int32): (r: LayoutMessage)
    ensures r.deg == deg
    ensures r.payload == m.payload && r.ttl == m.ttl && r.coords == m.coords
  {
    m.(deg := deg)
  }

  /** The constructor with a ttl and a degree: the three-argument one, then setDeg. */
  function NewMessageWithDeg(payload: int64, ttl: int32, coords: Coords, deg: int32): (m: LayoutMessage)
    ensures m.payload == payload && m.ttl == ttl && m.coords == coords
    ensures m.deg == deg
  {
    SetDeg(NewMessage(payload, ttl, coords), deg)
  }

  /** The successor of a message one hop further: a fresh message with the
      same origin, coordinates and degree, and the ttl one lower (Java `int`
      arithmetic; no check that the ttl is positive). */
  function Propagate(m: LayoutMessage): (r: LayoutMessage)
    ensures r.payload == m.payload && r.coords == m.coords && r.deg == m.deg
    ensures m.ttl > INT_MIN ==> r.ttl == m.ttl - 1
    ensures m.ttl == INT_MIN ==> r.ttl == INT_MAX
  {
    NewMessageWithDeg(m.payload, Dec32(m.ttl), Coords(m.coords.x, m.coords.y), m.deg)
  }

  /** The successor that ends the flood: ttl 0, origin, coordinates and degree kept. */
  function PropagateAndDie(m: LayoutMessage): (r: LayoutMessage)
    ensures r.payload == m.payload && r.coords == m.coords && r.deg == m.deg
    ensures r.ttl == 0
  {
    NewMessageWithDeg(m.payload, 0, Coords(m.coords.x, m.coords.y), m.deg)
  }

  /** n hops of propagation. */
  function PropagateTimes(m: LayoutMessage, n: nat): LayoutMessage
  {
    if n == 0 then m else Propagate(PropagateTimes(m, n - 1))
  }

  /** n hops lower the ttl by exactly n, as long as no hop passes below
      Integer.MIN_VALUE, and keep origin, coordinates and degree. */
  lemma {:induction false} PropagateTimesLowersTtl(m: LayoutMessage, n: nat)
    requires m.ttl - n >= INT_MIN
    ensures PropagateTimes(m, n).ttl == m.ttl - n
    ensures PropagateTimes(m, n).payload == m.payload
    ensures PropagateTimes(m, n).coords == m.coords
    ensures PropagateTimes(m, n).deg == m.deg
  {
    if n > 0 {
      PropagateTimesLowersTtl(m, n - 1);
    }
  }

  /** Without a zombie test the ttl alone never ends a flood: after
      ttl - Integer.MIN_VALUE + 1 hops it wraps round to Integer.MAX_VALUE. */
  lemma PropagateTimesWraps(m: LayoutMessage)
    ensures PropagateTimes(m, m.ttl - INT_MIN + 1).ttl == INT_MAX
  {
    var n: nat := m.ttl - INT_MIN;
    PropagateTimesLowersTtl(m, n);
    assert PropagateTimes(m, n + 1) == Propagate(PropagateTimes(m, n));
  }

  /** Dying twice is dying once, whatever the ttl was. */
  lemma PropagateAndDieIdempotent(m: LayoutMessage)
    ensures PropagateAndDie(PropagateAndDie(m)) == PropagateAndDie(m)
  {
  }

  /** The number of bytes the layout message's own fields take on the wire. */
  const WIRE_SIZE: nat := 20

  /** specificWrite: long payload, float x, float y, int deg, in that order. */
  function SpecificWrite(m: LayoutMessage): (bytes: seq<byte>)
    ensures |bytes| == WIRE_SIZE
    ensures bytes[..8] == WriteLong(m.payload)
    ensures bytes[8..12] == WriteFloat(m.coords.x)
    ensures bytes[12..16] == WriteFloat(m.coords.y)
    ensures bytes[16..] == WriteInt(m.deg)
  {
    WriteLong(m.payload) + WriteFloat(m.coords.x) + WriteFloat(m.coords.y) + WriteInt(m.deg)
  }

  datatype ReadError = EndOfInput

  datatype ReadResult = Read(msg: LayoutMessage, rest: seq<byte>) | Failed(error: ReadError)

  /** specificRead into the message `into`: overwrites payload, coordinates
      and degree with the next 20 bytes and leaves the ttl, which the
      superclass reads, alone. Fewer than 20 bytes is an end-of-input
      failure. */
  function SpecificRead(into: LayoutMessage, input: seq<byte>): (r: ReadResult)
    ensures |input| < WIRE_SIZE <==> r.Failed?
    ensures r.Read? ==> r.rest == input[WIRE_SIZE..]
    ensures r.Read? ==> r.msg.ttl == into.ttl
  {
    if |input| < WIRE_SIZE then Failed(EndOfInput)
    else
      var payload := ReadLong(input);
      var x := ReadFloat(input[8..]);
      var y := ReadFloat(input[12..]);
      var deg := ReadInt(input[16..]);
      Read(into.(payload := payload, coords := Coords(x, y), deg := deg), input[WIRE_SIZE..])
  }

  /** Reading what specificWrite wrote restores the origin and the degree
      exactly, each coordinate as Float.floatToIntBits of it, and consumes
      exactly the 20 bytes written. */
  lemma {:induction false} ReadAfterWrite(m: LayoutMessage, into: LayoutMessage, rest: seq<byte>)
    ensures SpecificRead(into, SpecificWrite(m) + rest)
            == Read(into.(payload := m.payload,
                          coords := Coords(FloatToIntBits(m.coords.x), FloatToIntBits(m.coords.y)),
                          deg := m.deg),
                    rest)
  {
    var b := SpecificWrite(m);
    ReadField(b, rest, 0, 8);
    ReadWriteLong(m.payload, b[8..] + rest);
    ReadField(b, rest, 8, 12);
    ReadWriteFloat(m.coords.x, b[12..] + rest);
    ReadField(b, rest, 12, 16);
    ReadWriteFloat(m.coords.y, b[16..] + rest);
    ReadField(b, rest, 16, 20);
    ReadWriteInt(m.deg, b[20..] + rest);
    assert b[20..] == [];
    SuffixOfAppend(b, rest, 20);
  }

  /** The bytes from position i on of b + rest start with b's field b[i..j]. */
  lemma ReadField(b: seq<byte>, rest: seq<byte>, i: nat, j: nat)
    requires i <= j <= |b|
    ensures (b + rest)[i..] == b[i..j] + (b[j..] + rest)
  {
    SuffixOfAppend(b, rest, i);
    assert b[i..] == b[i..j] + b[j..];
  }

  lemma SuffixOfAppend(a: seq<byte>, b: seq<byte>, k: nat)
    requires k <= |a|
    ensures (a + b)[k..] == a[k..] + b
  {
  }

  /** For a message whose coordinates are not NaN, a write followed by a
      read into a message with the same ttl gives back the
      message itself. */
  lemma RoundTrip(m: LayoutMessage, into: LayoutMessage, rest: seq<byte>)
    requires !IsNaN(m.coords.x) && !IsNaN(m.coords.y)
    requires into.ttl == m.ttl
    ensures SpecificRead(into, SpecificWrite(m) + rest) == Read(m, rest)
  {
    ReadAfterWrite(m, into, rest);
  }
}
