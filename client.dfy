/**
 * The client side of the link (Client/client.h, Client/client.cpp): it
 * dispatches incoming frames on their header, raises one signal per command,
 * decodes a plan, echoes its receipt and rebuilds the grouped 3D spots, and
 * sends STATUS frames.
 */
module ClientSide {
  import opened Wrappers
  import opened Variable
  import opened Stream
  import opened PlanTransfer

  /** Signals of the Client object. */
  datatype ClientSignal = CommandStart | CommandStop | CommandPause | CommandResume | ReceivingCompleted

  type ClientEffect<K(==), C, S> = Effect<ClientSignal, K, C, S>

  /** Where readHeader's switch sends a frame. */
  datatype Route = ToCommand | ToPlan | Drop

  /** readHeader's switch: COMMAND and PLAN have a handler, every other value
      (STATUS included) falls to the empty default. */
  function Dispatch(header: int): (r: Route)
    ensures r == ToCommand <==> header == COMMAND
    ensures r == ToPlan <==> header == PLAN
    ensures r == Drop <==> header != COMMAND && header != PLAN
  {
    if header == COMMAND then ToCommand else if header == PLAN then ToPlan else Drop
  }

  /** The client signal each command raises. */
  function Raises(c: CmdType): ClientSignal
  {
    match c
    case Start => CommandStart
    case Stop => CommandStop
    case Pause => CommandPause
    case Resume => CommandResume
  }

  /** receiveCommand's switch: the signal a command tag raises, if any. */
  function CommandSignal(command: int): (sig: Option<ClientSignal>)
    ensures sig.Some? <==> CmdOf(command).Some?
    ensures sig.Some? ==> sig.value != ReceivingCompleted
    ensures command == CmdValue(Start) <==> sig == Some(CommandStart)
    ensures command == CmdValue(Stop) <==> sig == Some(CommandStop)
    ensures command == CmdValue(Pause) <==> sig == Some(CommandPause)
    ensures command == CmdValue(Resume) <==> sig == Some(CommandResume)
  {
    match CmdOf(command)
    case Some(c) => Some(Raises(c))
    case None => None
  }

  /** The client's plan state, as receivePlan leaves it. */
  datatype PlanState<K(==), C, S> = PlanState(
    totalBytes: int, spot3D: map<K, seq<Spot3D<C>>>,
    hashX: map<K, seq<C>>, hashY: map<K, seq<C>>, hashZ: map<K, seq<C>>,
    spotOrder: map<K, seq<int>>, parameter: SonicationParameter, baOut: seq<Field<K, C, S>>)

  /**
   * The state after receivePlan has read plan `b`: the decoded fields and, when
   * the three axis hashes are aligned, the rebuilt spots and the receipt in the
   * output buffer. A plan whose hashes are not aligned is neither rebuilt nor
   * echoed: its spots stay empty and nothing is written.
   */
  function AfterPlan<K(==), C, S>(b: PlanBody<K, C>): PlanState<K, C, S>
  {
    if Aligned(b.hashX, b.hashY, b.hashZ) then
      AlignedCovers(b.hashX, b.hashY, b.hashZ);
      PlanState(b.totalBytes, Rebuild(map[], b.hashX, b.hashY, b.hashZ),
                b.hashX, b.hashY, b.hashZ, b.spotOrder, b.parameter, [Str(b.receipt)])
    else
      PlanState(b.totalBytes, map[], b.hashX, b.hashY, b.hashZ, b.spotOrder, b.parameter, [])
  }

  /** What receivePlan does on the socket: for an aligned plan the receipt goes
      back, the socket is closed and receivingCompleted follows; any other plan
      gets no receipt, so its delivery is never acknowledged. */
  function PlanEffects<K(==), C, S>(b: PlanBody<K, C>): seq<ClientEffect<K, C, S>>
  {
    if Aligned(b.hashX, b.hashY, b.hashZ) then [Write([Str(b.receipt)]), Close, Emit(ReceivingCompleted)] else [Close]
  }

  /** `spots` appended to the group `k` of `m`; nothing is inserted when there
      is nothing to append. */
  function Appended<K(==), C>(m: map<K, seq<Spot3D<C>>>, k: K, spots: seq<Spot3D<C>>): map<K, seq<Spot3D<C>>>
  {
    if spots == [] then m else m[k := Lookup(m, k) + spots]
  }

  /** Appending one more spot, as one iteration of the inner loop does. */
  lemma AppendedSnoc<K, C>(m: map<K, seq<Spot3D<C>>>, k: K, spots: seq<Spot3D<C>>, p: Spot3D<C>)
    ensures Appended(m, k, spots + [p]) == Appended(m, k, spots)[k := Lookup(Appended(m, k, spots), k) + [p]]
  {
    if spots == [] {
      assert spots + [p] == [p];
    } else {
      assert Lookup(m, k) + (spots + [p]) == (Lookup(m, k) + spots) + [p];
    }
  }

  /** Loop invariant of convertSpot's outer loop over the X hash: the groups in
      `done` are appended to `cur`, everything else of `start` is untouched. */
  ghost predicate PartlyRebuilt<K, C>(
    cur: map<K, seq<Spot3D<C>>>, start: map<K, seq<Spot3D<C>>>,
    hx: map<K, seq<C>>, hy: map<K, seq<C>>, hz: map<K, seq<C>>, done: set<K>)
  {
    && Covers(hx, hy, hz)
    && done <= hx.Keys
    && (forall k :: k in start ==> k in cur)
    && (forall k :: k in cur ==> k in start || (k in done && |hx[k]| > 0))
    && (forall k :: k in done && |hx[k]| > 0 ==>
          k in cur && cur[k] == Lookup(start, k) + Zip(hx[k], Lookup(hy, k), Lookup(hz, k)))
    && (forall k :: k in start && (k !in done || |hx[k]| == 0) ==> cur[k] == start[k])
  }

  lemma PartlyRebuiltNone<K, C>(start: map<K, seq<Spot3D<C>>>, hx: map<K, seq<C>>, hy: map<K, seq<C>>, hz: map<K, seq<C>>)
    requires Covers(hx, hy, hz)
    ensures PartlyRebuilt(start, start, hx, hy, hz, {})
  {
  }

  lemma PartlyRebuiltStep<K, C>(
    cur: map<K, seq<Spot3D<C>>>, start: map<K, seq<Spot3D<C>>>,
    hx: map<K, seq<C>>, hy: map<K, seq<C>>, hz: map<K, seq<C>>, done: set<K>, k: K)
    requires PartlyRebuilt(cur, start, hx, hy, hz, done)
    requires k in hx && k !in done
    ensures PartlyRebuilt(Appended(cur, k, Zip(hx[k], Lookup(hy, k), Lookup(hz, k))), start, hx, hy, hz, done + {k})
  {
    ZipSpec(hx[k], Lookup(hy, k), Lookup(hz, k));
  }

  lemma PartlyRebuiltDone<K, C>(
    cur: map<K, seq<Spot3D<C>>>, start: map<K, seq<Spot3D<C>>>,
    hx: map<K, seq<C>>, hy: map<K, seq<C>>, hz: map<K, seq<C>>)
    requires PartlyRebuilt(cur, start, hx, hy, hz, hx.Keys)
    ensures cur == Rebuild(start, hx, hy, hz)
  {
  }

  /** Loop invariant for the entries `m_hashY[currentKey]` inserts. */
  ghost predicate PartlyFilled<K, C>(cur: map<K, seq<C>>, hash: map<K, seq<C>>, done: set<K>)
  {
    && cur.Keys == hash.Keys + done
    && (forall k :: k in hash ==> cur[k] == hash[k])
    && (forall k :: k in done && k !in hash ==> cur[k] == [])
  }

  lemma PartlyFilledStep<K, C>(cur: map<K, seq<C>>, hash: map<K, seq<C>>, done: set<K>, k: K)
    requires PartlyFilled(cur, hash, done) && k !in done
    ensures k in cur ==> cur[k] == Lookup(hash, k) && PartlyFilled(cur, hash, done + {k})
    ensures k !in cur ==> Lookup(hash, k) == [] && PartlyFilled(cur[k := []], hash, done + {k})
  {
  }

  lemma PartlyFilledDone<K, C>(cur: map<K, seq<C>>, hash: map<K, seq<C>>, keys: set<K>)
    requires PartlyFilled(cur, hash, keys)
    ensures cur == FillMissing(hash, keys)
  {
  }

  /** convertSpot's loop invariant as a whole: the spots and both filled hashes. */
  ghost predicate Converting<K, C>(
    cur: map<K, seq<Spot3D<C>>>, curY: map<K, seq<C>>, curZ: map<K, seq<C>>,
    start: map<K, seq<Spot3D<C>>>, hx: map<K, seq<C>>, hy: map<K, seq<C>>, hz: map<K, seq<C>>, done: set<K>)
  {
    PartlyRebuilt(cur, start, hx, hy, hz, done) && PartlyFilled(curY, hy, done) && PartlyFilled(curZ, hz, done)
  }

  lemma ConvertingNone<K, C>(start: map<K, seq<Spot3D<C>>>, hx: map<K, seq<C>>, hy: map<K, seq<C>>, hz: map<K, seq<C>>)
    requires Covers(hx, hy, hz)
    ensures Converting(start, hy, hz, start, hx, hy, hz, {})
  {
    PartlyRebuiltNone(start, hx, hy, hz);
  }

  lemma ConvertingDone<K, C>(
    cur: map<K, seq<Spot3D<C>>>, curY: map<K, seq<C>>, curZ: map<K, seq<C>>,
    start: map<K, seq<Spot3D<C>>>, hx: map<K, seq<C>>, hy: map<K, seq<C>>, hz: map<K, seq<C>>)
    requires Converting(cur, curY, curZ, start, hx, hy, hz, hx.Keys)
    ensures cur == Rebuild(start, hx, hy, hz)
    ensures curY == FillMissing(hy, hx.Keys) && curZ == FillMissing(hz, hx.Keys)
  {
    PartlyRebuiltDone(cur, start, hx, hy, hz);
    PartlyFilledDone(curY, hy, hx.Keys);
    PartlyFilledDone(curZ, hz, hx.Keys);
  }

  class Client<K(==), C, S> {
    /** Byte width of a library-encoded field. */
    const width: Field<K, C, S> -> nat

    var baOut: seq<Field<K, C, S>>
    var totalBytes: int
    var spot3D: map<K, seq<Spot3D<C>>>
    var hashX: map<K, seq<C>>
    var hashY: map<K, seq<C>>
    var hashZ: map<K, seq<C>>
    var spotOrder: map<K, seq<int>>
    var parameter: SonicationParameter
    var status: map<string, S>

    ghost function PlanView(): PlanState<K, C, S>
      reads this
    {
      PlanState(totalBytes, spot3D, hashX, hashY, hashZ, spotOrder, parameter, baOut)
    }

    constructor (width: Field<K, C, S> -> nat)
      ensures this.width == width
      ensures baOut == [] && totalBytes == 0 && status == map[]
      ensures spot3D == map[] && hashX == map[] && hashY == map[] && hashZ == map[] && spotOrder == map[]
    {
      this.width := width;
      baOut := [];
      totalBytes := 0;
      spot3D, hashX, hashY, hashZ := map[], map[], map[], map[];
      spotOrder := map[];
      parameter := ZeroParameter;
      status := map[];
    }

    method SetStatus(st: map<string, S>)
      modifies this`status
      ensures status == st
    {
      status := st;
    }

    /** initVar: the plan state emptied, the five parameters zeroed. */
    method InitVar()
      modifies this`hashX, this`hashY, this`hashZ, this`spot3D, this`spotOrder, this`parameter, this`baOut
      ensures hashX == map[] && hashY == map[] && hashZ == map[]
      ensures spot3D == map[] && spotOrder == map[] && baOut == []
      ensures parameter == ZeroParameter
    {
      hashX, hashY, hashZ := map[], map[], map[];
      spot3D := map[];
      spotOrder := map[];
      parameter := parameter.(volt := 0.0);
      parameter := parameter.(totalTime := 0);
      parameter := parameter.(period := 0);
      parameter := parameter.(dutyCycle := 0);
      parameter := parameter.(coolingTime := 0);
      baOut := [];
    }

    /**
     * readHeader: the first qint64 decides. COMMAND goes to receiveCommand,
     * PLAN to receivePlan; any other value is dropped and nothing changes.
     */
    method ReadHeader(frame: seq<Field<K, C, S>>) returns (effects: seq<ClientEffect<K, C, S>>)
      modifies this`baOut, this`totalBytes, this`spot3D, this`hashX, this`hashY, this`hashZ, this`spotOrder, this`parameter
      ensures status == old(status)
      ensures var (header, rest) := ReadI64(frame);
              match Dispatch(header)
              case ToCommand => effects == ReceiveCommand(rest) && PlanView() == old(PlanView())
              case ToPlan => effects == PlanEffects(DecodePlan(rest)) && PlanView() == AfterPlan(DecodePlan(rest))
              case Drop => effects == [] && PlanView() == old(PlanView())
    {
      var (header, rest) := ReadI64(frame);
      match Dispatch(header)
      case ToCommand =>
        effects := ReceiveCommand(rest);
      case ToPlan =>
        effects := ReceivePlan(rest);
      case Drop =>
        effects := [];
    }

    /**
     * receiveCommand: the next qint64 is the command tag; a known tag raises
     * exactly its signal, any other raises none, and the socket is closed
     * either way.
     */
    static function ReceiveCommand(stream: seq<Field<K, C, S>>): (effects: seq<ClientEffect<K, C, S>>)
      ensures |effects| > 0 && effects[|effects| - 1] == Close
      ensures var command := ReadI64(stream).0;
              && (|effects| == 2 <==> CmdOf(command).Some?)
              && (|effects| == 2 ==> effects[0] == Emit(CommandSignal(command).value))
              && (|effects| == 1 <==> CmdOf(command).None?)
    {
      var (command, _) := ReadI64(stream);
      match CommandSignal(command)
      case Some(sig) => [Emit(sig), Close]
      case None => [Close]
    }

    /**
     * receivePlan: the state is reset, the fields are read in the order the
     * server writes them after its header, the receipt is written back alone,
     * the socket closed, and the spots rebuilt. The source echoes the receipt
     * and calls convertSpot whatever the lists hold; here both happen only for
     * a plan whose axis hashes are aligned, and any other plan is not
     * acknowledged.
     */
    method ReceivePlan(stream: seq<Field<K, C, S>>) returns (effects: seq<ClientEffect<K, C, S>>)
      modifies this`baOut, this`totalBytes, this`spot3D, this`hashX, this`hashY, this`hashZ, this`spotOrder, this`parameter
      ensures PlanView() == AfterPlan(DecodePlan(stream))
      ensures effects == PlanEffects(DecodePlan(stream))
    {
      InitVar();
      effects := StorePlan(DecodePlan(stream));
    }

    /** receivePlan once its reads are done: the fields stored and, for an
        aligned plan, the receipt echoed and the spots rebuilt; the socket is
        closed either way. */
    method StorePlan(b: PlanBody<K, C>) returns (effects: seq<ClientEffect<K, C, S>>)
      requires baOut == [] && spot3D == map[]
      modifies this`baOut, this`totalBytes, this`spot3D, this`hashX, this`hashY, this`hashZ, this`spotOrder, this`parameter
      ensures PlanView() == AfterPlan(b)
      ensures effects == PlanEffects(b)
    {
      totalBytes := b.totalBytes;
      hashX, hashY, hashZ := b.hashX, b.hashY, b.hashZ;
      spotOrder := b.spotOrder;
      parameter := b.parameter;

      if Aligned(hashX, hashY, hashZ) {
        OverwriteEmpty<K, C, S>([Str(b.receipt)], width);
        baOut := Overwrite(baOut, [Str(b.receipt)], width);
        effects := [Write(baOut), Close];
        AlignedCovers(hashX, hashY, hashZ);
        ConvertSpot();
        effects := effects + [Emit(ReceivingCompleted)];
      } else {
        effects := [Close];
      }
    }

    /**
     * convertSpot: for every key of the X hash, spot i is built from entry i of
     * the X, Y and Z lists and appended under that key. Reading Y and Z with
     * operator[] inserts an empty list for a key they lack.
     */
    method ConvertSpot()
      requires Covers(hashX, hashY, hashZ)
      modifies this`spot3D, this`hashY, this`hashZ
      ensures spot3D == Rebuild(old(spot3D), hashX, old(hashY), old(hashZ))
      ensures hashY == FillMissing(old(hashY), hashX.Keys)
      ensures hashZ == FillMissing(old(hashZ), hashX.Keys)
    {
      var todo := hashX.Keys;
      ghost var done: set<K> := {};
      ConvertingNone(spot3D, hashX, hashY, hashZ);
      while todo != {}
        invariant todo <= hashX.Keys && done == hashX.Keys - todo
        invariant Converting(spot3D, hashY, hashZ, old(spot3D), hashX, old(hashY), old(hashZ), done)
        decreases todo
      {
        var key :| key in todo;
        ConvertGroup(key, old(spot3D), old(hashY), old(hashZ), done);
        todo := todo - {key};
        done := done + {key};
      }
      assert done == hashX.Keys;
      ConvertingDone(spot3D, hashY, hashZ, old(spot3D), hashX, old(hashY), old(hashZ));
    }

    /** One pass of convertSpot's outer loop: the lists under `key` are taken
        (an empty one inserted into Y or Z where missing) and their spots appended. */
    method ConvertGroup(key: K, ghost start: map<K, seq<Spot3D<C>>>, ghost hy: map<K, seq<C>>,
                        ghost hz: map<K, seq<C>>, ghost done: set<K>)
      requires key in hashX && key !in done
      requires Converting(spot3D, hashY, hashZ, start, hashX, hy, hz, done)
      modifies this`spot3D, this`hashY, this`hashZ
      ensures Converting(spot3D, hashY, hashZ, start, hashX, hy, hz, done + {key})
    {
      var xs := hashX[key];
      PartlyFilledStep(hashY, hy, done, key);
      if key !in hashY {
        hashY := hashY[key := []];
      }
      var ys := hashY[key];
      PartlyFilledStep(hashZ, hz, done, key);
      if key !in hashZ {
        hashZ := hashZ[key := []];
      }
      var zs := hashZ[key];
      PartlyRebuiltStep(spot3D, start, hashX, hy, hz, done, key);
      AppendSpots(key, xs, ys, zs);
    }

    /** The inner loop of convertSpot: spot i of the group, taken from entry i
        of each list, appended under `key`; the key appears with the first spot. */
    method AppendSpots(key: K, xs: seq<C>, ys: seq<C>, zs: seq<C>)
      requires |xs| <= |ys| && |xs| <= |zs|
      modifies this`spot3D
      ensures spot3D == Appended(old(spot3D), key, Zip(xs, ys, zs))
    {
      var n := |xs|;
      var i := 0;
      while i < n
        invariant 0 <= i <= n
        invariant spot3D == Appended(old(spot3D), key, Zip(xs[..i], ys[..i], zs[..i]))
      {
        ZipSnoc(xs, ys, zs, i);
        AppendedSnoc(old(spot3D), key, Zip(xs[..i], ys[..i], zs[..i]), Spot3D(xs[i], ys[i], zs[i]));
        spot3D := spot3D[key := Lookup(spot3D, key) + [Spot3D(xs[i], ys[i], zs[i])]];
        i := i + 1;
      }
      assert xs[..n] == xs;
      ZipPrefix(xs, ys, zs);
    }

    /**
     * send: the buffer is cleared, two qint64 placeholders and the status map
     * are written, then the STATUS tag and the buffer's size go back over the
     * placeholders; the frame is written and the socket closed.
     */
    method Send() returns (effects: seq<ClientEffect<K, C, S>>)
      modifies this`baOut, this`totalBytes
      ensures baOut == [I64(STATUS), I64(totalBytes), StatusMap(status)]
      ensures totalBytes == Size(baOut, width)
      ensures effects == [Write(baOut), Close]
    {
      baOut := [];
      baOut := Overwrite(baOut, [I64(0), I64(0)] + [StatusMap(status)], width);
      totalBytes := Size(baOut, width);
      OverwriteHead([], [I64(0), I64(0)], [I64(STATUS), I64(totalBytes)], [StatusMap(status)], width);
      OverwriteEmpty([I64(STATUS), I64(totalBytes)] + [StatusMap(status)], width);
      baOut := Overwrite(baOut, [I64(STATUS), I64(totalBytes)], width);
      effects := [Write(baOut), Close];
    }
  }
}
