/**
 serial.c: the critical sections and the callbacks of an open port, on its ring buffers.
 The semaphores and the tasks around them are in SerialTokens.
 */
module SerialPort {
  import opened Common
  import opened Rings
  import opened SerialTokens

  const FC_STOP := '\U{13}'
  const FC_START := '\U{11}'

  /** SPCB of an open port. */
  class Spcb {
    const sndBuffer: array<char>
    const rcvBuffer: array<char>
    var rcvReadPtr: nat
    var rcvWritePtr: nat
    var rcvCount: nat
    var rcvFcChr: Option<char>  // the flow control character to be sent
    var rcvStopped: bool
    var sndReadPtr: nat
    var sndWritePtr: nat
    var sndCount: nat
    var sndStopped: bool
    var echo: bool   // IOCTL_ECHO
    var crlf: bool   // IOCTL_CRLF
    var fcsnd: bool  // IOCTL_FCSND
    var fcany: bool  // IOCTL_FCANY
    var fcrcv: bool  // IOCTL_FCRCV
    ghost var accepted: seq<char>
    ghost var sent: seq<char>

    /** A read and a write pointer of a ring of `bufsz` places with `count` characters. */
    ghost predicate PtrsOk(readPtr: nat, writePtr: nat, count: nat, bufsz: nat) {
      readPtr < bufsz && writePtr < bufsz && count <= bufsz && writePtr == Slot(readPtr, count, bufsz)
    }

    ghost predicate Valid()
      reads this, sndBuffer, rcvBuffer
    {
      && sndBuffer != rcvBuffer
      && PtrsOk(sndReadPtr, sndWritePtr, sndCount, sndBuffer.Length)
      && PtrsOk(rcvReadPtr, rcvWritePtr, rcvCount, rcvBuffer.Length)
    }

    ghost function Value(): Port
      requires Valid()
      reads this, sndBuffer, rcvBuffer
    {
      Port(sndBuffer.Length, rcvBuffer.Length,
           RingItems(sndBuffer[..], sndReadPtr, sndCount), RingItems(rcvBuffer[..], rcvReadPtr, rcvCount),
           echo, crlf, sndStopped, accepted, sent)
    }

    /** The variables as serial_opn_por sets them. */
    constructor (sndBufsz: nat, rcvBufsz: nat)
      requires 0 < sndBufsz && 0 < rcvBufsz
      ensures Valid() && fresh(sndBuffer) && fresh(rcvBuffer)
      ensures Value() == Port(sndBufsz, rcvBufsz, [], [], true, true, false, [], [])
    {
      sndBuffer := new char[sndBufsz](_ => ' ');
      rcvBuffer := new char[rcvBufsz](_ => ' ');
      rcvReadPtr, rcvWritePtr, rcvCount, rcvFcChr, rcvStopped := 0, 0, 0, None, false;
      sndReadPtr, sndWritePtr, sndCount, sndStopped := 0, 0, 0, false;
      echo, crlf, fcsnd, fcany, fcrcv := true, true, true, false, true;
      accepted, sent := [], [];
    }

    /** The critical section of serial_wri_chr; `accepts` is the result of sio_snd_chr. */
    method WriChr(c: char, accepts: bool) returns (bufferFull: bool)
      requires Valid() && sndCount < sndBuffer.Length
      modifies sndBuffer, `sndWritePtr, `sndCount, `accepted, `sent
      ensures Valid() && Value() == PutChr(old(Value()), c, accepts)
      ensures bufferFull <==> SerialTokens.Full(Value())
    {
      hide RingItems;
      RingPut(sndBuffer[..], sndReadPtr, sndCount, c);
      accepted := accepted + [c];
      if sndCount == 0 && !sndStopped && accepts {
        sent := sent + [c];
        bufferFull := false;
      } else {
        sndBuffer[sndWritePtr] := c;
        sndWritePtr := sndWritePtr + 1;
        if sndWritePtr == sndBuffer.Length {
          sndWritePtr := 0;
        }
        sndCount := sndCount + 1;
        bufferFull := sndCount == sndBuffer.Length;
      }
    }

    /** The oldest received character is taken out. */
    method TakeOldest() returns (c: char)
      requires Valid() && rcvCount > 0
      modifies `rcvReadPtr, `rcvCount
      ensures Valid() && old(Value()).rcv != [] && Value() == TakeChr(old(Value()))
      ensures c == old(Value()).rcv[0] && rcvCount == |Value().rcv|
    {
      hide RingItems;
      RingTake(rcvBuffer[..], rcvReadPtr, rcvCount);
      c := rcvBuffer[rcvReadPtr];
      rcvReadPtr := rcvReadPtr + 1;
      if rcvReadPtr == rcvBuffer.Length {
        rcvReadPtr := 0;
      }
      rcvCount := rcvCount - 1;
    }

    /** The critical section of serial_rea_chr; `accepts` is the result of sio_snd_chr. */
    method ReaChr(accepts: bool) returns (c: char, bufferEmpty: bool)
      requires Valid() && rcvCount > 0
      modifies `rcvReadPtr, `rcvCount, `rcvFcChr, `rcvStopped
      ensures Valid() && old(Value()).rcv != [] && Value() == TakeChr(old(Value()))
      ensures c == old(Value()).rcv[0] && (bufferEmpty <==> Value().rcv == [])
      ensures rcvStopped <==> old(rcvStopped) && |Value().rcv| > Value().rcvBufsz / 2
      ensures rcvFcChr == if old(rcvStopped) && !rcvStopped && !accepts then Some(FC_START) else old(rcvFcChr)
    {
      hide RingItems, Slot;
      c := TakeOldest();
      bufferEmpty := rcvCount == 0;
      if rcvStopped && rcvCount <= rcvBuffer.Length / 2 {
        if !accepts {
          rcvFcChr := Some(FC_START);
        }
        rcvStopped := false;
      }
    }

    /** The oldest character in the send buffer goes to the device. Returns whether there is room
        where there was none, so that the semaphore must be signalled. */
    method SendOldest() returns (signal: bool)
      requires Valid() && sndCount > 0 && !sndStopped
      modifies `sndReadPtr, `sndCount, `sent
      ensures Valid() && Value() == SndReady(old(Value()))
      ensures signal <==> SerialTokens.Full(old(Value()))
    {
      hide RingItems;
      RingTake(sndBuffer[..], sndReadPtr, sndCount);
      sent := sent + [sndBuffer[sndReadPtr]];
      sndReadPtr := sndReadPtr + 1;
      if sndReadPtr == sndBuffer.Length {
        sndReadPtr := 0;
      }
      signal := sndCount == sndBuffer.Length;
      sndCount := sndCount - 1;
    }

    /** sio_irdy_snd. */
    method IrdySnd() returns (signal: bool)
      requires Valid()
      modifies `sndReadPtr, `sndCount, `rcvFcChr, `sent
      ensures Valid()
      ensures Value() == if old(rcvFcChr) != None then old(Value()) else SndReady(old(Value()))
      ensures signal <==> |Value().snd| < |old(Value()).snd| && SerialTokens.Full(old(Value()))
      ensures rcvFcChr == None
    {
      signal := false;
      if rcvFcChr != None {
        rcvFcChr := None;
      } else if !sndStopped && sndCount > 0 {
        signal := SendOldest();
      }
    }

    /** What sio_irdy_rcv does with the received character. */
    function Action(c: char, accepts: bool): (a: RcvAction)
      reads this
      ensures a.Stop? <==> fcsnd && c == FC_STOP
      ensures a.Restart? <==> sndStopped && !a.Stop? && (c == FC_START || fcany)
      ensures a.Drop? <==> fcsnd && c == FC_START && !sndStopped
      ensures a.Restart? ==> a.accepts == accepts
      ensures a.Store? ==> a.c == c
    {
      if fcsnd && c == FC_STOP then Stop
      else if sndStopped && (c == FC_START || fcany) then Restart(accepts)
      else if fcsnd && c == FC_START then Drop
      else Store(c)
    }

    /** sio_irdy_rcv; `accepts` is the result of sio_snd_chr. Returns whether the semaphores of
        the send and of the receive buffer must be signalled. */
    method IrdyRcv(c: char, accepts: bool) returns (sndSignal: bool, rcvSignal: bool)
      requires Valid()
      modifies rcvBuffer, `rcvWritePtr, `rcvCount, `rcvFcChr, `rcvStopped, `sndReadPtr, `sndCount, `sndStopped, `sent
      ensures Valid() && Value() == RcvReady(old(Value()), old(Action(c, accepts)))
      ensures sndSignal <==> |Value().snd| < |old(Value()).snd| && SerialTokens.Full(old(Value()))
      ensures rcvSignal <==> |old(Value()).rcv| == 0 && |Value().rcv| > 0
      ensures var stored := |Value().rcv| > |old(Value()).rcv|;
        && (rcvStopped <==> old(rcvStopped) || (stored && fcrcv && |Value().rcv| >= Value().rcvBufsz * 3 / 4))
        && rcvFcChr == if rcvStopped && !old(rcvStopped) && !accepts then Some(FC_STOP) else old(rcvFcChr)
    {
      hide RingItems, Slot;
      sndSignal, rcvSignal := false, false;
      if fcsnd && c == FC_STOP {
        sndStopped := true;
      } else if sndStopped && (c == FC_START || fcany) {
        sndStopped := false;
        if sndCount > 0 {
          if accepts {
            sndSignal := SendOldest();
          }
        }
      } else if fcsnd && c == FC_START {
      } else if rcvCount == rcvBuffer.Length {
      } else {
        rcvSignal := rcvCount == 0;
        StoreChr(c);
        if fcrcv && !rcvStopped && rcvCount >= rcvBuffer.Length * 3 / 4 {
          if !accepts {
            rcvFcChr := Some(FC_STOP);
          }
          rcvStopped := true;
        }
      }
    }

    /** The received character goes into the receive buffer. */
    method StoreChr(c: char)
      requires Valid() && rcvCount < rcvBuffer.Length
      modifies rcvBuffer, `rcvWritePtr, `rcvCount
      ensures Valid() && Value() == RcvReady(old(Value()), Store(c)) && rcvCount == old(rcvCount) + 1
    {
      hide RingItems;
      RingPut(rcvBuffer[..], rcvReadPtr, rcvCount, c);
      rcvBuffer[rcvWritePtr] := c;
      rcvWritePtr := rcvWritePtr + 1;
      if rcvWritePtr == rcvBuffer.Length {
        rcvWritePtr := 0;
      }
      rcvCount := rcvCount + 1;
    }

    /** serial_get_chr, on an open port. */
    method TakeUnsent() returns (r: Option<char>)
      requires Valid()
      modifies `sndReadPtr, `sndCount, `sent
      ensures Valid() && Value() == SerialTokens.GetChr(old(Value()))
      ensures r == if old(Value()).snd == [] then None else Some(old(Value()).snd[0])
    {
      if sndCount > 0 {
        r := Some(sndBuffer[sndReadPtr]);
        sent := sent + [sndBuffer[sndReadPtr]];
        sndReadPtr := sndReadPtr + 1;
        if sndReadPtr == sndBuffer.Length {
          sndReadPtr := 0;
        }
        sndCount := sndCount - 1;
      } else {
        r := None;
      }
    }
  }
}
