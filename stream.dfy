/**
 * The frame codec. A QDataStream is modelled as a sequence of typed fields,
 * one per `<<` or `>>`; the byte encodings of the library types are not part
 * of this model, except that a qint64 always takes 8 bytes.
 */
module Stream {

  /** One value written to or read from a stream. `K` is the group key (a
      float on the wire), `C` a coordinate, `S` a status value (QVariant). */
  datatype Field<K(==), C, S> =
    | I64(i64: int)                      // qint64
    | Int(i32: int)                      // int
    | Volt(volt: real)                   // VOLT
    | Str(str: string)                   // QString
    | AxisMap(axis: map<K, seq<C>>)      // QHash<float, QList<Coordinate> >
    | OrderMap(order: map<K, seq<int>>)  // QHash<float, QList<int> >
    | StatusMap(status: map<string, S>)  // QHash<QString, QVariant>
    | Raw(bytes: nat)                    // the end of an old field a shorter write stopped inside

  /** What a socket handler does besides changing its object's fields. */
  datatype Effect<Sig, K(==), C, S> =
    | Emit(signal: Sig)                  // a Qt signal
    | Write(frame: seq<Field<K, C, S>>)  // socket->write(buffer)
    | Close                              // socket->close()

  /** Bytes one field takes: 8 for a qint64, its count for a remnant, `width`
      for the library-encoded rest. */
  function FieldSize<K(==), C, S>(f: Field<K, C, S>, width: Field<K, C, S> -> nat): nat
  {
    if f.I64? then 8 else if f.Raw? then f.bytes else width(f)
  }

  /** Bytes a buffer takes, the value of QByteArray::size(). */
  function Size<K(==), C, S>(buf: seq<Field<K, C, S>>, width: Field<K, C, S> -> nat): nat
  {
    if buf == [] then 0 else FieldSize(buf[0], width) + Size(buf[1..], width)
  }

  lemma {:induction false} SizeAppend<K, C, S>(
    a: seq<Field<K, C, S>>, b: seq<Field<K, C, S>>, width: Field<K, C, S> -> nat)
    ensures Size(a + b, width) == Size(a, width) + Size(b, width)
  {
    if a == [] {
      assert a + b == b;
    } else {
      assert (a + b)[0] == a[0];
      assert (a + b)[1..] == a[1..] + b;
      SizeAppend(a[1..], b, width);
    }
  }

  predicate AllI64<K(==), C, S>(buf: seq<Field<K, C, S>>)
  {
    forall i :: 0 <= i < |buf| ==> buf[i].I64?
  }

  /** A run of qint64 fields takes 8 bytes each, whatever their values. */
  lemma {:induction false} AllI64Size<K, C, S>(buf: seq<Field<K, C, S>>, width: Field<K, C, S> -> nat)
    requires AllI64(buf)
    ensures Size(buf, width) == 8 * |buf|
  {
    if buf != [] {
      AllI64Size(buf[1..], width);
    }
  }

  /**
   * What a write of `n` bytes from offset 0 leaves of `buf`: the fields it does
   * not reach, and the unwritten end of the field it stops inside.
   */
  function Leftover<K(==), C, S>(buf: seq<Field<K, C, S>>, n: nat, width: Field<K, C, S> -> nat): (r: seq<Field<K, C, S>>)
    ensures Size(r, width) == if n <= Size(buf, width) then Size(buf, width) - n else 0
  {
    if buf == [] then []
    else if n == 0 then buf
    else if FieldSize(buf[0], width) <= n then Leftover(buf[1..], n - FieldSize(buf[0], width), width)
    else
      var r := [Raw(FieldSize(buf[0], width) - n)] + buf[1..];
      assert r[0] == Raw(FieldSize(buf[0], width) - n) && r[1..] == buf[1..];
      r
  }

  /**
   * Writing `fields` from offset 0 of `buf`: a QDataStream opened WriteOnly on a
   * QByteArray, and a stream after `device()->seek(0)`. WriteOnly does not
   * truncate, so every byte beyond the written ones stays: the buffer's size is
   * the larger of the two.
   */
  function Overwrite<K(==), C, S>(buf: seq<Field<K, C, S>>, fields: seq<Field<K, C, S>>, width: Field<K, C, S> -> nat): (r: seq<Field<K, C, S>>)
    ensures |fields| <= |r| && r[..|fields|] == fields
    ensures Size(r, width) == if Size(fields, width) <= Size(buf, width) then Size(buf, width) else Size(fields, width)
  {
    var rest := Leftover(buf, Size(fields, width), width);
    SizeAppend(fields, rest, width);
    fields + rest
  }

  /** Writing into an empty buffer leaves exactly what was written. */
  lemma OverwriteEmpty<K, C, S>(fields: seq<Field<K, C, S>>, width: Field<K, C, S> -> nat)
    ensures Overwrite([], fields, width) == fields
  {
  }

  /** A write of qint64s stops between fields: what follows them is left whole. */
  lemma {:induction false} LeftoverAfterI64<K, C, S>(head: seq<Field<K, C, S>>, rest: seq<Field<K, C, S>>, width: Field<K, C, S> -> nat)
    requires AllI64(head)
    ensures Leftover(head + rest, Size(head, width), width) == rest
  {
    if head != [] {
      assert (head + rest)[0] == head[0];
      assert (head + rest)[1..] == head[1..] + rest;
      LeftoverAfterI64(head[1..], rest, width);
    } else {
      assert head + rest == rest;
    }
  }

  /** A second write of qint64s over the qint64 head of the first replaces just
      that head: the header backfill after `seek(0)`. */
  lemma OverwriteHead<K, C, S>(
    buf: seq<Field<K, C, S>>, head: seq<Field<K, C, S>>, head': seq<Field<K, C, S>>, rest: seq<Field<K, C, S>>,
    width: Field<K, C, S> -> nat)
    requires |head| == |head'| && AllI64(head) && AllI64(head')
    ensures Overwrite(Overwrite(buf, head + rest, width), head', width) == Overwrite(buf, head' + rest, width)
    ensures Size(Overwrite(buf, head' + rest, width), width) == Size(Overwrite(buf, head + rest, width), width)
  {
    var n := Size(head + rest, width);
    SameSizeHeads(head, head', rest, width);
    var left := Leftover(buf, n, width);
    var w := Overwrite(buf, head + rest, width);
    assert w == head + (rest + left);
    LeftoverAfterI64(head, rest + left, width);
    assert Leftover(w, Size(head', width), width) == rest + left;
    assert Overwrite(w, head', width) == head' + (rest + left);
  }

  lemma SameSizeHeads<K, C, S>(head: seq<Field<K, C, S>>, head': seq<Field<K, C, S>>, rest: seq<Field<K, C, S>>, width: Field<K, C, S> -> nat)
    requires |head| == |head'| && AllI64(head) && AllI64(head')
    ensures Size(head, width) == Size(head', width)
    ensures Size(head + rest, width) == Size(head' + rest, width)
  {
    AllI64Size(head, width);
    AllI64Size(head', width);
    SizeAppend(head, rest, width);
    SizeAppend(head', rest, width);
  }

  /**
   * The backfill: overwriting placeholder qint64s with qint64s in place - the
   * header of a PLAN or STATUS frame - leaves the size of the buffer as it was.
   */
  lemma BackfillKeepsSize<K, C, S>(
    buf: seq<Field<K, C, S>>, head: seq<Field<K, C, S>>, width: Field<K, C, S> -> nat)
    requires |head| <= |buf|
    requires AllI64(head) && AllI64(buf[..|head|])
    ensures Size(Overwrite(buf, head, width), width) == Size(buf, width)
  {
    var n := |head|;
    assert buf == buf[..n] + buf[n..];
    SizeAppend(buf[..n], buf[n..], width);
    AllI64Size(head, width);
    AllI64Size(buf[..n], width);
  }

  // Readers. A `>>` of the expected kind takes the first field; any other read
  // yields the type's zero value and leaves the stream exhausted, so that every
  // later read yields zero values too (QDataStream's ReadPastEnd status).

  function ReadI64<K(==), C, S>(s: seq<Field<K, C, S>>): (int, seq<Field<K, C, S>>)
  {
    if s != [] && s[0].I64? then (s[0].i64, s[1..]) else (0, [])
  }

  function ReadInt<K(==), C, S>(s: seq<Field<K, C, S>>): (int, seq<Field<K, C, S>>)
  {
    if s != [] && s[0].Int? then (s[0].i32, s[1..]) else (0, [])
  }

  function ReadVolt<K(==), C, S>(s: seq<Field<K, C, S>>): (real, seq<Field<K, C, S>>)
  {
    if s != [] && s[0].Volt? then (s[0].volt, s[1..]) else (0.0, [])
  }

  function ReadStr<K(==), C, S>(s: seq<Field<K, C, S>>): (string, seq<Field<K, C, S>>)
  {
    if s != [] && s[0].Str? then (s[0].str, s[1..]) else ("", [])
  }

  function ReadAxisMap<K(==), C, S>(s: seq<Field<K, C, S>>): (map<K, seq<C>>, seq<Field<K, C, S>>)
  {
    if s != [] && s[0].AxisMap? then (s[0].axis, s[1..]) else (map[], [])
  }

  function ReadOrderMap<K(==), C, S>(s: seq<Field<K, C, S>>): (map<K, seq<int>>, seq<Field<K, C, S>>)
  {
    if s != [] && s[0].OrderMap? then (s[0].order, s[1..]) else (map[], [])
  }

  function ReadStatusMap<K(==), C, S>(s: seq<Field<K, C, S>>): (map<string, S>, seq<Field<K, C, S>>)
  {
    if s != [] && s[0].StatusMap? then (s[0].status, s[1..]) else (map[], [])
  }
}
