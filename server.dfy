/**
 * The server side of the link (Server/server.h, Server/server.cpp): it owns
 * the plan, sends PLAN and COMMAND frames, checks the echoed receipt and
 * decodes the client's STATUS frames.
 */
module ServerSide {
  import opened Wrappers
  import opened Variable
  import opened Stream
  import opened PlanTransfer
  import opened Receipt

  /** Signals of the Server object. */
  datatype ServerSignal = SendingCompleted | Error(message: string) | ReceivingCompleted

  type ServerEffect<K(==), C, S> = Effect<ServerSignal, K, C, S>

  /** `enum Error`, indexing the message table. */
  datatype ErrorKind = NoError | ErrorSend | ErrorReadReceipt | ErrorReceive

  /** The table setErrorString fills. */
  const ErrorList: seq<string> :=
    ["Successfully done.", "Failed to send enough bytes.", "Failed to check the receipt.", "Failed to receive enough bytes."]

  function ErrorIndex(e: ErrorKind): nat
  {
    match e
    case NoError => 0
    case ErrorSend => 1
    case ErrorReadReceipt => 2
    case ErrorReceive => 3
  }

  /** `m_errorList[e]`. */
  function ErrorMessage(e: ErrorKind): string
  {
    ErrorList[ErrorIndex(e)]
  }

  /** The table setCmdString fills, one line per command. */
  const CmdList: seq<string> :=
    ["SEND COMMAND START", "SEND COMMAND STOP", "SEND COMMAND PAUSE", "SEND COMMAND RESUME"]

  /** `m_cmdList.at(iType - 1)`: in range for every command tag. */
  function CmdMessage(c: CmdType): string
  {
    CmdList[CmdValue(c) - 1]
  }

  /** Each error kind and each command has its own message. */
  lemma MessagesDistinct()
    ensures forall e1, e2 :: e1 != e2 ==> ErrorMessage(e1) != ErrorMessage(e2)
    ensures forall c1, c2 :: c1 != c2 ==> CmdMessage(c1) != CmdMessage(c2)
  {
  }

  /** The fields encodeCmd writes: the COMMAND tag and the command tag, no length. */
  function EncodeCmd<K(==), C, S>(c: CmdType): (r: seq<Field<K, C, S>>)
    ensures |r| == 2 && AllI64(r)
    ensures r[0].i64 == COMMAND && CmdOf(r[1].i64) == Some(c)
  {
    [I64(COMMAND), I64(CmdValue(c))]
  }

  /** The inner loop of encodeSpot: one group's spots split into three lists. */
  method SplitSpots<C>(list: seq<Spot3D<C>>) returns (xs: seq<C>, ys: seq<C>, zs: seq<C>)
    ensures xs == Project(list, X) && ys == Project(list, Y) && zs == Project(list, Z)
  {
    xs, ys, zs := [], [], [];
    var j := 0;
    while j < |list|
      invariant 0 <= j <= |list|
      invariant xs == Project(list[..j], X) && ys == Project(list[..j], Y) && zs == Project(list[..j], Z)
    {
      assert list[..j + 1] == list[..j] + [list[j]];
      ProjectAppend(list[..j], [list[j]], X);
      ProjectAppend(list[..j], [list[j]], Y);
      ProjectAppend(list[..j], [list[j]], Z);
      xs, ys, zs := xs + [list[j].x], ys + [list[j].y], zs + [list[j].z];
      j := j + 1;
    }
    assert list[..j] == list;
  }

  /** Loop invariant of encodeSpot: the groups in `done` are split into `cur`,
      every other entry of `hash` is untouched. */
  ghost predicate PartlySplit<K, C>(cur: map<K, seq<C>>, hash: map<K, seq<C>>, g: map<K, seq<Spot3D<C>>>, done: set<K>, a: Axis)
  {
    && done <= g.Keys
    && cur.Keys == hash.Keys + done
    && (forall k :: k in done ==> cur[k] == Project(g[k], a))
    && (forall k :: k in hash && k !in done ==> cur[k] == hash[k])
  }

  lemma PartlySplitNone<K, C>(hash: map<K, seq<C>>, g: map<K, seq<Spot3D<C>>>, a: Axis)
    ensures PartlySplit(hash, hash, g, {}, a)
  {
  }

  lemma PartlySplitStep<K, C>(cur: map<K, seq<C>>, hash: map<K, seq<C>>, g: map<K, seq<Spot3D<C>>>, done: set<K>, k: K, a: Axis)
    requires PartlySplit(cur, hash, g, done, a) && k in g
    ensures PartlySplit(cur[k := Project(g[k], a)], hash, g, done + {k}, a)
  {
  }

  lemma PartlySplitDone<K, C>(cur: map<K, seq<C>>, hash: map<K, seq<C>>, g: map<K, seq<Spot3D<C>>>, a: Axis)
    requires PartlySplit(cur, hash, g, g.Keys, a)
    ensures cur == SplitInto(hash, g, a)
  {
  }

  /** encodeSpot's loop invariant for the three axes at once. */
  ghost predicate Splitting<K, C>(
    hx: map<K, seq<C>>, hy: map<K, seq<C>>, hz: map<K, seq<C>>,
    ox: map<K, seq<C>>, oy: map<K, seq<C>>, oz: map<K, seq<C>>, g: map<K, seq<Spot3D<C>>>, done: set<K>)
  {
    PartlySplit(hx, ox, g, done, X) && PartlySplit(hy, oy, g, done, Y) && PartlySplit(hz, oz, g, done, Z)
  }

  lemma SplittingStep<K, C>(
    hx: map<K, seq<C>>, hy: map<K, seq<C>>, hz: map<K, seq<C>>,
    ox: map<K, seq<C>>, oy: map<K, seq<C>>, oz: map<K, seq<C>>, g: map<K, seq<Spot3D<C>>>, done: set<K>, k: K)
    requires Splitting(hx, hy, hz, ox, oy, oz, g, done) && k in g
    ensures Splitting(hx[k := Project(g[k], X)], hy[k := Project(g[k], Y)], hz[k := Project(g[k], Z)],
                      ox, oy, oz, g, done + {k})
  {
    PartlySplitStep(hx, ox, g, done, k, X);
    PartlySplitStep(hy, oy, g, done, k, Y);
    PartlySplitStep(hz, oz, g, done, k, Z);
  }

  class Server<K(==), C, S> {
    /** Byte width of a library-encoded field. */
    const width: Field<K, C, S> -> nat

    var baOut: seq<Field<K, C, S>>
    var totalBytes: int
    var writtenBytes: int
    var spot3D: map<K, seq<Spot3D<C>>>
    var hashX: map<K, seq<C>>
    var hashY: map<K, seq<C>>
    var hashZ: map<K, seq<C>>
    var spotOrder: map<K, seq<int>>
    var parameter: SonicationParameter
    var sendTimeNum: int
    var receipt: string
    var status: map<string, S>

    /** The three axis hashes agree in keys and list lengths. */
    ghost predicate Valid()
      reads this
    {
      Aligned(hashX, hashY, hashZ)
    }

    constructor (width: Field<K, C, S> -> nat)
      ensures Valid()
      ensures this.width == width
      ensures baOut == [] && totalBytes == 0 && sendTimeNum == 1 && receipt == ""
      ensures spot3D == map[] && hashX == map[] && hashY == map[] && hashZ == map[]
      ensures spotOrder == map[] && status == map[]
    {
      this.width := width;
      baOut := [];
      totalBytes := 0;
      writtenBytes := 0;
      spot3D, hashX, hashY, hashZ := map[], map[], map[], map[];
      spotOrder := map[];
      parameter := ZeroParameter;
      sendTimeNum := 1;
      receipt := "";
      status := map[];
    }

    method SetCoordinate(spots: map<K, seq<Spot3D<C>>>)
      modifies this`spot3D
      ensures spot3D == spots
    {
      spot3D := spots;
    }

    method SetSpotOrder(order: map<K, seq<int>>)
      modifies this`spotOrder
      ensures spotOrder == order
    {
      spotOrder := order;
    }

    method SetParameter(p: SonicationParameter)
      modifies this`parameter
      ensures parameter == p
    {
      parameter := p;
    }

    /**
     * encodeSpot: every group of `spot3D` is split into its X, Y and Z lists,
     * which replace that group's entries in the axis hashes; entries under other
     * keys are left as they were.
     */
    method EncodeSpot()
      modifies this`hashX, this`hashY, this`hashZ
      ensures hashX == SplitInto(old(hashX), spot3D, X)
      ensures hashY == SplitInto(old(hashY), spot3D, Y)
      ensures hashZ == SplitInto(old(hashZ), spot3D, Z)
      ensures old(Valid()) ==> Valid()
    {
      var todo := spot3D.Keys;
      ghost var done: set<K> := {};
      PartlySplitNone(hashX, spot3D, X);
      PartlySplitNone(hashY, spot3D, Y);
      PartlySplitNone(hashZ, spot3D, Z);
      while todo != {}
        invariant todo <= spot3D.Keys && done == spot3D.Keys - todo
        invariant Splitting(hashX, hashY, hashZ, old(hashX), old(hashY), old(hashZ), spot3D, done)
        decreases todo
      {
        var key :| key in todo;
        var xs, ys, zs := SplitSpots(spot3D[key]);
        SplittingStep(hashX, hashY, hashZ, old(hashX), old(hashY), old(hashZ), spot3D, done, key);
        hashX, hashY, hashZ := hashX[key := xs], hashY[key := ys], hashZ[key := zs];
        todo := todo - {key};
        done := done + {key};
      }
      assert done == spot3D.Keys;
      PartlySplitDone(hashX, old(hashX), spot3D, X);
      PartlySplitDone(hashY, old(hashY), spot3D, Y);
      PartlySplitDone(hashZ, old(hashZ), spot3D, Z);
      if old(Valid()) {
        SplitKeepsAligned(old(hashX), old(hashY), old(hashZ), spot3D);
      }
    }

    /**
     * encodePlan: a fresh receipt, the axis split, then the frame written from
     * offset 0 with two qint64 placeholders, and finally the PLAN tag and the
     * buffer's size written back over the placeholders.
     */
    method EncodePlan(date: string, time: string)
      modifies this`receipt, this`hashX, this`hashY, this`hashZ, this`baOut, this`totalBytes
      ensures receipt == GenReceipt(sendTimeNum, date, time)
      ensures hashX == SplitInto(old(hashX), spot3D, X)
      ensures hashY == SplitInto(old(hashY), spot3D, Y)
      ensures hashZ == SplitInto(old(hashZ), spot3D, Z)
      ensures baOut == Overwrite(old(baOut), [I64(PLAN), I64(totalBytes)] + PlanPayload(hashX, hashY, hashZ, spotOrder, parameter, receipt), width)
      ensures totalBytes == Size(baOut, width)
      ensures old(Valid()) ==> Valid()
    {
      receipt := GenReceipt(sendTimeNum, date, time);
      EncodeSpot();
      WriteFrame(PlanPayload(hashX, hashY, hashZ, spotOrder, parameter, receipt));
    }

    /** The writes of encodePlan after the split: placeholders and payload from
        offset 0, the size taken, then the PLAN tag and that size backfilled. */
    method WriteFrame(payload: seq<Field<K, C, S>>)
      modifies this`baOut, this`totalBytes
      ensures baOut == Overwrite(old(baOut), [I64(PLAN), I64(totalBytes)] + payload, width)
      ensures totalBytes == Size(baOut, width)
    {
      var written := Overwrite(baOut, [I64(0), I64(0)] + payload, width);
      totalBytes := Size(written, width);
      baOut := Overwrite(written, [I64(PLAN), I64(totalBytes)], width);
      OverwriteHead(old(baOut), [I64(0), I64(0)], [I64(PLAN), I64(totalBytes)], payload, width);
    }

    /** sendPlan, without the socket: encode, then write the buffer. */
    method SendPlan(date: string, time: string) returns (effects: seq<ServerEffect<K, C, S>>)
      modifies this`receipt, this`hashX, this`hashY, this`hashZ, this`baOut, this`totalBytes
      ensures receipt == GenReceipt(sendTimeNum, date, time)
      ensures hashX == SplitInto(old(hashX), spot3D, X)
      ensures hashY == SplitInto(old(hashY), spot3D, Y)
      ensures hashZ == SplitInto(old(hashZ), spot3D, Z)
      ensures baOut == Overwrite(old(baOut), [I64(PLAN), I64(totalBytes)] + PlanPayload(hashX, hashY, hashZ, spotOrder, parameter, receipt), width)
      ensures totalBytes == Size(baOut, width)
      ensures old(Valid()) ==> Valid()
      ensures effects == [Write(baOut)]
    {
      EncodePlan(date, time);
      effects := [Write(baOut)];
    }

    /** sendCommand: the command frame is written over the buffer, sent, and the
        buffer cleared; the socket is closed and sendingCompleted emitted. */
    method SendCommand(c: CmdType) returns (effects: seq<ServerEffect<K, C, S>>)
      modifies this`baOut
      ensures baOut == []
      ensures effects == [Write(Overwrite(old(baOut), EncodeCmd(c), width)), Close, Emit(SendingCompleted)]
    {
      baOut := Overwrite(baOut, EncodeCmd(c), width);
      effects := [Write(baOut)];
      baOut := [];
      effects := effects + [Close, Emit(SendingCompleted)];
    }

    /**
     * readReceipt: the echoed string is compared with the remembered receipt.
     * On a match the session counter goes up by one and the plan state is
     * cleared; otherwise nothing changes and the receipt error is raised.
     */
    method ReadReceipt(reply: seq<Field<K, C, S>>) returns (effects: seq<ServerEffect<K, C, S>>)
      modifies this`receipt, this`sendTimeNum, this`baOut, this`hashX, this`hashY, this`hashZ, this`spot3D, this`spotOrder
      ensures old(Valid()) ==> Valid()
      ensures parameter == old(parameter) && totalBytes == old(totalBytes)
      ensures ReadStr(reply).0 == old(receipt) ==>
                && sendTimeNum == old(sendTimeNum) + 1
                && receipt == "" && baOut == []
                && hashX == map[] && hashY == map[] && hashZ == map[]
                && spot3D == map[] && spotOrder == map[]
                && effects == [Close, Emit(SendingCompleted)]
      ensures ReadStr(reply).0 != old(receipt) ==>
                && sendTimeNum == old(sendTimeNum) && receipt == old(receipt) && baOut == old(baOut)
                && hashX == old(hashX) && hashY == old(hashY) && hashZ == old(hashZ)
                && spot3D == old(spot3D) && spotOrder == old(spotOrder)
                && effects == [Close, Emit(Error(ErrorMessage(ErrorReadReceipt)))]
    {
      var (echoed, _) := ReadStr(reply);
      effects := [Close];
      if receipt == echoed {
        receipt := "";
        sendTimeNum := sendTimeNum + 1;
        baOut := [];
        hashX, hashY, hashZ := map[], map[], map[];
        spot3D := map[];
        spotOrder := map[];
        effects := effects + [Emit(SendingCompleted)];
      } else {
        effects := effects + [Emit(Error(ErrorMessage(ErrorReadReceipt)))];
      }
    }

    /** writtenBytes: records the count and reports whether the whole frame went out. */
    method WrittenBytes(bytesWrite: int) returns (effects: seq<ServerEffect<K, C, S>>)
      modifies this`writtenBytes
      ensures writtenBytes == bytesWrite
      ensures |effects| == 1 && effects[0].Emit? && effects[0].signal.Error?
      ensures effects[0].signal.message == ErrorMessage(ErrorSend) <==> bytesWrite != totalBytes
      ensures effects[0].signal.message == ErrorMessage(NoError) <==> bytesWrite == totalBytes
    {
      writtenBytes := bytesWrite;
      if writtenBytes != totalBytes {
        effects := [Emit(Error(ErrorMessage(ErrorSend)))];
      } else {
        effects := [Emit(Error(ErrorMessage(NoError)))];
      }
    }

    /** receive: a STATUS frame is read as tag, length and status map, the tag
        unchecked; the socket is closed and receivingCompleted emitted. */
    method Receive(stream: seq<Field<K, C, S>>) returns (effects: seq<ServerEffect<K, C, S>>)
      modifies this`totalBytes, this`status
      ensures var (_, s1) := ReadI64(stream);
              var (n, s2) := ReadI64(s1);
              totalBytes == n && status == ReadStatusMap(s2).0
      ensures effects == [Close, Emit(ReceivingCompleted)]
    {
      var (_, s1) := ReadI64(stream);
      var (n, s2) := ReadI64(s1);
      var (st, _) := ReadStatusMap(s2);
      totalBytes := n;
      status := st;
      effects := [Close, Emit(ReceivingCompleted)];
    }
  }
}
