/**
 * The two sides together: what the client makes of the frames the server
 * writes, and what the server makes of the client's replies.
 */
module Protocol {
  import opened Variable
  import opened Stream
  import opened PlanTransfer
  import opened Receipt
  import opened ServerSide
  import opened ClientSide

  /**
   * A COMMAND frame, written over whatever the server's buffer held, is routed
   * to receiveCommand, which raises exactly the signal of that command and
   * closes the socket.
   */
  lemma CommandRoundTrip<K, C, S>(buf: seq<Field<K, C, S>>, c: CmdType, width: Field<K, C, S> -> nat)
    ensures var (header, rest) := ReadI64(Overwrite(buf, EncodeCmd<K, C, S>(c), width));
            && Dispatch(header) == ToCommand
            && Client<K, C, S>.ReceiveCommand(rest) == [Emit(Raises(c)), Close]
  {
    var f := Overwrite(buf, EncodeCmd<K, C, S>(c), width);
    assert f[0] == I64(COMMAND) && f[1] == I64(CmdValue(c));
    assert f[1..][0] == f[1];
  }

  /**
   * The PLAN frame encodePlan leaves in the buffer, whatever the buffer held
   * before, is routed to receivePlan, which reads back the length, the three
   * axis hashes, the spot order, the five parameters and the receipt.
   */
  lemma PlanFrameRead<K, C, S>(
    buf: seq<Field<K, C, S>>, totalBytes: int, hx: map<K, seq<C>>, hy: map<K, seq<C>>, hz: map<K, seq<C>>,
    spotOrder: map<K, seq<int>>, p: SonicationParameter, receipt: string, width: Field<K, C, S> -> nat)
    ensures var (header, rest) := ReadI64(Overwrite(buf, [I64(PLAN), I64(totalBytes)] + PlanPayload(hx, hy, hz, spotOrder, p, receipt), width));
            && Dispatch(header) == ToPlan
            && DecodePlan(rest) == PlanBody(totalBytes, hx, hy, hz, spotOrder, p, receipt)
  {
    var w := [I64(PLAN), I64(totalBytes)] + PlanPayload<K, C, S>(hx, hy, hz, spotOrder, p, receipt);
    var f := Overwrite(buf, w, width);
    var tail := f[|w|..];
    assert f == w + tail;
    assert f[0] == I64(PLAN);
    assert f[1..] == [I64(totalBytes)] + PlanPayload<K, C, S>(hx, hy, hz, spotOrder, p, receipt) + tail;
    DecodePlanPayload(totalBytes, hx, hy, hz, spotOrder, p, receipt, tail);
  }

  /**
   * A plan whose axis hashes the server kept aligned is rebuilt in full: the
   * client's index reads stay in range, it inserts no empty lists, it raises
   * receivingCompleted, and each rebuilt group is the zip of its three lists.
   */
  lemma AlignedPlanRebuilt<K, C, S>(b: PlanBody<K, C>)
    requires Aligned(b.hashX, b.hashY, b.hashZ)
    ensures Covers(b.hashX, b.hashY, b.hashZ)
    ensures AfterPlan<K, C, S>(b) == PlanState(b.totalBytes, Rebuild(map[], b.hashX, b.hashY, b.hashZ),
                                              b.hashX, b.hashY, b.hashZ, b.spotOrder, b.parameter, [Str(b.receipt)])
    ensures PlanEffects<K, C, S>(b) == [Write([Str(b.receipt)]), Close, Emit(ClientSignal.ReceivingCompleted)]
  {
    AlignedCovers(b.hashX, b.hashY, b.hashZ);
  }

  /**
   * receivePlan acknowledges a plan exactly when its axis hashes are aligned:
   * then its reply carries exactly the receipt it read; otherwise it writes
   * nothing at all, so the server is never told that the plan arrived.
   */
  lemma ReplyEchoesReceipt<K, C, S>(b: PlanBody<K, C>)
    ensures Write([Str(b.receipt)]) in PlanEffects<K, C, S>(b) <==> Aligned(b.hashX, b.hashY, b.hashZ)
    ensures Aligned(b.hashX, b.hashY, b.hashZ) ==> ReadStr(AfterPlan<K, C, S>(b).baOut).0 == b.receipt
    ensures !Aligned(b.hashX, b.hashY, b.hashZ) ==>
              AfterPlan<K, C, S>(b).baOut == [] && forall e :: e in PlanEffects<K, C, S>(b) ==> !e.Write?
  {
  }

  /** Were the server to read an empty reply, its receipt check would fail:
      no receipt is the empty string. */
  lemma EmptyReplyRejected<K, C, S>(n: int, date: string, time: string)
    ensures ReadStr<K, C, S>([]).0 != GenReceipt(n, date, time)
  {
  }

  /** The client's STATUS frame is read back by the server's receive. */
  lemma StatusRoundTrip<K, C, S>(totalBytes: int, status: map<string, S>)
    ensures var (tag, s1) := ReadI64<K, C, S>([I64(STATUS), I64(totalBytes), StatusMap(status)]);
            var (n, s2) := ReadI64(s1);
            tag == STATUS && n == totalBytes && ReadStatusMap(s2).0 == status
    ensures Dispatch(STATUS) == Drop
  {
  }

  /**
   * A whole plan session on a fresh server and a fresh client: the server
   * sends its plan, the client reads the frame and echoes the receipt, and the
   * server checks the echo. The client ends up with every non-empty group of
   * the server's spots, the server's spot order and parameters; the server's
   * receipt check passes and its counter moves on to the next session.
   */
  method PlanSession<K(==), C, S>(
    width: Field<K, C, S> -> nat, spots: map<K, seq<Spot3D<C>>>, order: map<K, seq<int>>,
    p: SonicationParameter, date: string, time: string)
    returns (rebuilt: map<K, seq<Spot3D<C>>>, clientOrder: map<K, seq<int>>, clientParameter: SonicationParameter,
             clientEffects: seq<ClientEffect<K, C, S>>, serverEffects: seq<ServerEffect<K, C, S>>, nextSession: int)
    ensures rebuilt == NonEmptyGroups(spots)
    ensures clientOrder == order && clientParameter == p
    ensures clientEffects == [Write([Str(GenReceipt(1, date, time))]), Close, Emit(ClientSignal.ReceivingCompleted)]
    ensures serverEffects == [Close, Emit(SendingCompleted)]
    ensures nextSession == 2
  {
    var server, frame := OpenSession(width, spots, order, p, date, time);
    ghost var receipt := server.receipt;
    SessionFrame(frame, server.totalBytes, spots, order, p, receipt, width);
    var client := new Client(width);
    clientEffects := client.ReadHeader(frame);
    assert client.PlanView() == PlanState(server.totalBytes, NonEmptyGroups(spots),
      SplitInto(map[], spots, X), SplitInto(map[], spots, Y), SplitInto(map[], spots, Z), order, p, [Str(receipt)]);
    rebuilt, clientOrder, clientParameter := client.spot3D, client.spotOrder, client.parameter;
    assert client.baOut == [Str(receipt)];
    serverEffects := server.ReadReceipt(client.baOut);
    nextSession := server.sendTimeNum;
  }

  /**
   * Any later session, not only the first: whatever the server's hashes and
   * buffer still hold from a plan whose receipt was never confirmed, the
   * hashes it keeps aligned make the client rebuild the split hashes, echo
   * exactly this session's receipt and raise receivingCompleted, and the
   * server's check of that echo passes and moves the counter on by one.
   */
  method AnySession<K(==), C, S>(server: Server<K, C, S>, client: Client<K, C, S>, date: string, time: string)
    returns (clientEffects: seq<ClientEffect<K, C, S>>, serverEffects: seq<ServerEffect<K, C, S>>)
    requires server.Valid() && server.width == client.width
    modifies server, client
    ensures var hx, hy, hz := SplitInto(old(server.hashX), old(server.spot3D), X),
                              SplitInto(old(server.hashY), old(server.spot3D), Y),
                              SplitInto(old(server.hashZ), old(server.spot3D), Z);
            Covers(hx, hy, hz) && client.spot3D == Rebuild(map[], hx, hy, hz)
    ensures client.spotOrder == old(server.spotOrder) && client.parameter == server.parameter
    ensures clientEffects == [Write([Str(GenReceipt(old(server.sendTimeNum), date, time))]), Close,
                              Emit(ClientSignal.ReceivingCompleted)]
    ensures serverEffects == [Close, Emit(SendingCompleted)]
    ensures server.sendTimeNum == old(server.sendTimeNum) + 1
  {
    clientEffects := DeliverPlan(server, client, date, time);
    serverEffects := server.ReadReceipt(client.baOut);
  }

  /** The first half of any session: the server sends its plan and the client
      reads it, rebuilds the server's split hashes and echoes the receipt. */
  method DeliverPlan<K(==), C, S>(server: Server<K, C, S>, client: Client<K, C, S>, date: string, time: string)
    returns (clientEffects: seq<ClientEffect<K, C, S>>)
    requires server.Valid() && server.width == client.width
    modifies server, client
    ensures server.sendTimeNum == old(server.sendTimeNum) && server.spot3D == old(server.spot3D)
    ensures server.spotOrder == old(server.spotOrder) && server.parameter == old(server.parameter)
    ensures server.receipt == GenReceipt(server.sendTimeNum, date, time)
    ensures server.hashX == SplitInto(old(server.hashX), server.spot3D, X)
    ensures server.hashY == SplitInto(old(server.hashY), server.spot3D, Y)
    ensures server.hashZ == SplitInto(old(server.hashZ), server.spot3D, Z)
    ensures Covers(server.hashX, server.hashY, server.hashZ)
    ensures client.spot3D == Rebuild(map[], server.hashX, server.hashY, server.hashZ)
    ensures client.spotOrder == server.spotOrder && client.parameter == server.parameter
    ensures client.baOut == [Str(server.receipt)]
    ensures clientEffects == [Write([Str(server.receipt)]), Close, Emit(ClientSignal.ReceivingCompleted)]
  {
    var sent := server.SendPlan(date, time);
    var b := PlanBody(server.totalBytes, server.hashX, server.hashY, server.hashZ,
                      server.spotOrder, server.parameter, server.receipt);
    PlanFrameRead(old(server.baOut), server.totalBytes, server.hashX, server.hashY, server.hashZ,
                  server.spotOrder, server.parameter, server.receipt, server.width);
    AlignedPlanRebuilt<K, C, S>(b);
    clientEffects := client.ReadHeader(server.baOut);
  }

  /** The server side of a session's start: a fresh server given the plan
      encodes it into its buffer and sends it. */
  method OpenSession<K(==), C, S>(
    width: Field<K, C, S> -> nat, spots: map<K, seq<Spot3D<C>>>, order: map<K, seq<int>>,
    p: SonicationParameter, date: string, time: string)
    returns (server: Server<K, C, S>, frame: seq<Field<K, C, S>>)
    ensures fresh(server)
    ensures server.sendTimeNum == 1 && server.receipt == GenReceipt(1, date, time)
    ensures frame == server.baOut
    ensures frame == Overwrite([], [I64(PLAN), I64(server.totalBytes)]
                + PlanPayload(SplitInto(map[], spots, X), SplitInto(map[], spots, Y), SplitInto(map[], spots, Z),
                              order, p, server.receipt), width)
  {
    server := new Server(width);
    server.SetCoordinate(spots);
    server.SetSpotOrder(order);
    server.SetParameter(p);
    assert server.baOut == [] && server.hashX == map[] && server.hashY == map[] && server.hashZ == map[];
    var sent := server.SendPlan(date, time);
    frame := server.baOut;
  }

  /** The first frame of a session, decoded: the header routes it to
      receivePlan and the client rebuilds the server's spots. */
  lemma SessionFrame<K, C, S>(
    frame: seq<Field<K, C, S>>, totalBytes: int, spots: map<K, seq<Spot3D<C>>>,
    order: map<K, seq<int>>, p: SonicationParameter, receipt: string, width: Field<K, C, S> -> nat)
    requires frame == Overwrite([], [I64(PLAN), I64(totalBytes)]
                + PlanPayload(SplitInto(map[], spots, X), SplitInto(map[], spots, Y), SplitInto(map[], spots, Z), order, p, receipt), width)
    ensures var (header, rest) := ReadI64(frame);
            && Dispatch(header) == ToPlan
            && AfterPlan<K, C, S>(DecodePlan(rest)) == PlanState(totalBytes, NonEmptyGroups(spots),
                 SplitInto(map[], spots, X), SplitInto(map[], spots, Y), SplitInto(map[], spots, Z), order, p, [Str(receipt)])
            && PlanEffects<K, C, S>(DecodePlan(rest)) == [Write([Str(receipt)]), Close, Emit(ClientSignal.ReceivingCompleted)]
  {
    var hx, hy, hz := SplitInto(map[], spots, X), SplitInto(map[], spots, Y), SplitInto(map[], spots, Z);
    PlanFrameRead<K, C, S>([], totalBytes, hx, hy, hz, order, p, receipt, width);
    SplitKeepsAligned(map[], map[], map[], spots);
    AlignedPlanRebuilt<K, C, S>(PlanBody(totalBytes, hx, hy, hz, order, p, receipt));
    SplitRebuildRoundTrip(spots);
  }

  /**
   * convertSpot indexes the Y and Z lists with `at(x)` for every index of the
   * X list, but nothing in receivePlan checks that they are long enough. This
   * plan has a group with one X coordinate and no Y or Z entry for it.
   */
  function ShortPlan(): PlanBody<int, int>
  {
    PlanBody(0, map[0 := [7]], map[], map[], map[], ZeroParameter, "r")
  }

  /** The frame carrying it decodes without trouble ... */
  lemma ShortPlanDecodes()
    ensures var b := ShortPlan();
            DecodePlan<int, int, int>([I64(0)] + PlanPayload(b.hashX, b.hashY, b.hashZ, b.spotOrder, b.parameter, b.receipt)) == b
  {
    var b := ShortPlan();
    DecodePlanPayload<int, int, int>(0, b.hashX, b.hashY, b.hashZ, b.spotOrder, b.parameter, b.receipt, []);
    assert [I64(0)] + PlanPayload<int, int, int>(b.hashX, b.hashY, b.hashZ, b.spotOrder, b.parameter, b.receipt) + []
        == [I64(0)] + PlanPayload<int, int, int>(b.hashX, b.hashY, b.hashZ, b.spotOrder, b.parameter, b.receipt);
  }

  /** ... yet the Y list convertSpot takes for key 0 (the empty list operator[]
      inserts) has no element 0, so `at(0)` is out of range. The model's
      receivePlan neither converts nor acknowledges such a plan. */
  lemma ShortPlanOutOfRange()
    ensures var b := ShortPlan();
            && 0 in b.hashX && |Lookup(b.hashY, 0)| == 0 && |b.hashX[0]| == 1
            && !Covers(b.hashX, b.hashY, b.hashZ) && !Aligned(b.hashX, b.hashY, b.hashZ)
            && PlanEffects<int, int, int>(b) == [Close]
            && AfterPlan<int, int, int>(b).spot3D == map[] && AfterPlan<int, int, int>(b).baOut == []
  {
    var b := ShortPlan();
    assert 0 in b.hashX && |b.hashX[0]| > |Lookup(b.hashY, 0)|;
  }

  /** A plan whose Y list for key 0 is longer than its X list. */
  function LongPlan(): PlanBody<int, int>
  {
    PlanBody(0, map[0 := [7]], map[0 := [1, 2]], map[0 := [3]], map[], ZeroParameter, "r")
  }

  /** convertSpot reads such a plan without going out of range, but the second
      Y coordinate is dropped without notice; the model's receivePlan neither
      converts nor acknowledges it. */
  lemma LongPlanTruncated()
    ensures var b := LongPlan();
            && Covers(b.hashX, b.hashY, b.hashZ) && !Aligned(b.hashX, b.hashY, b.hashZ)
            && Rebuild(map[], b.hashX, b.hashY, b.hashZ) == map[0 := [Spot3D(7, 1, 3)]]
            && Project(Rebuild(map[], b.hashX, b.hashY, b.hashZ)[0], Y) != b.hashY[0]
            && PlanEffects<int, int, int>(b) == [Close]
  {
    var b := LongPlan();
    assert Covers(b.hashX, b.hashY, b.hashZ);
    var r := Rebuild(map[], b.hashX, b.hashY, b.hashZ);
    RebuildSpec(b.hashX, b.hashY, b.hashZ);
    assert r.Keys == {0};
    assert |r[0]| == 1 && r[0][0] == Spot3D(7, 1, 3);
    assert r[0] == [Spot3D(7, 1, 3)];
    assert r == map[0 := [Spot3D(7, 1, 3)]];
    assert |Project(r[0], Y)| == 1;
  }
}
