/**
 The serial interface driver, on values: what its critical sections and callbacks do to the
 two buffers of an open port, and how tasks and callbacks pass on the tokens that guard
 them. A token is one count of a semaphore with the maximum 1.
 */
module SerialTokens {
  /** An open port: the contents of the two buffers, the settings, and whether sending is
      stopped. `accepted` and `sent` list all characters put into the send buffer or straight
      into the device, and all characters handed to the device. */
  datatype Port = Port(
    sndBufsz: nat, rcvBufsz: nat,
    snd: seq<char>, rcv: seq<char>,
    echo: bool, crlf: bool, stopped: bool,
    accepted: seq<char>, sent: seq<char>)

  /** Buffers neither overrun nor underrun, and characters leave in the order in which they came. */
  ghost predicate BuffersOk(p: Port) {
    && 0 < p.sndBufsz && 0 < p.rcvBufsz
    && |p.snd| <= p.sndBufsz && |p.rcv| <= p.rcvBufsz
    && p.accepted == p.sent + p.snd
  }

  /** The critical section of serial_wri_chr; the device takes the character if `accepts`. */
  function PutChr(p: Port, c: char, accepts: bool): Port {
    if p.snd == [] && !p.stopped && accepts then p.(accepted := p.accepted + [c], sent := p.sent + [c])
    else p.(snd := p.snd + [c], accepted := p.accepted + [c])
  }

  /** The critical section of serial_rea_chr. */
  function TakeChr(p: Port): Port
    requires p.rcv != []
  {
    p.(rcv := p.rcv[1..])
  }

  /** sio_irdy_snd, when there is no flow control character to send. */
  function SndReady(p: Port): Port {
    if !p.stopped && p.snd != [] then p.(snd := p.snd[1..], sent := p.sent + [p.snd[0]]) else p
  }

  /** What sio_irdy_rcv does: stop sending, restart it (and send, if the device accepts), drop the
      received character, or store it. */
  datatype RcvAction = Stop | Restart(accepts: bool) | Drop | Store(c: char)

  function RcvReady(p: Port, a: RcvAction): Port {
    match a
    case Stop => p.(stopped := true)
    case Restart(accepts) => var p' := p.(stopped := false); if accepts then SndReady(p') else p'
    case Drop => p
    case Store(c) => if |p.rcv| == p.rcvBufsz then p else p.(rcv := p.rcv + [c])
  }

  /** serial_get_chr: takes an unsent character out. */
  function GetChr(p: Port): Port {
    if p.snd == [] then p else p.(snd := p.snd[1..], sent := p.sent + [p.snd[0]])
  }

  // ----- tasks -----

  /** Why a task sends a character: it writes, with `rest` still to be written; or it echoes what
      it has read, with `n` characters still to be read and the receive buffer found empty or not. */
  datatype Purpose = Write(rest: seq<char>) | Echo(n: nat, empty: bool)

  /** Where a task is in serial_wri_dat or serial_rea_dat. */
  datatype Pc =
    | Idle
    | SndWait(c: char, why: Purpose)  // at wai_sem for the send token
    | SndChr(c: char, why: Purpose)   // at serial_wri_chr, with the send token
    | SndPut(c: char, why: Purpose, lf: bool)  // in it, at loc_cpu; if `c` is the CR before an LF, `lf`
    | LfWait(why: Purpose)            // in it, at wai_sem between CR and LF
    | SndSig(why: Purpose)            // at sig_sem, to give the send token back
    | RcvWait(n: nat)                 // at wai_sem for the receive token
    | RcvChr(n: nat)                  // at serial_rea_chr, with the receive token
    | EchoTest(c: char, n: nat, empty: bool)  // after it, before the test for echo
    | RcvSig                          // at sig_sem, to give the receive token back

  predicate HoldsSnd(pc: Pc) {
    pc.SndChr? || pc.SndPut? || pc.SndSig?
  }

  predicate HoldsRcv(pc: Pc) {
    match pc
    case RcvChr(_) => true
    case RcvSig => true
    case EchoTest(_, _, empty) => !empty
    case SndWait(_, why) => why.Echo? && !why.empty
    case SndChr(_, why) => why.Echo? && !why.empty
    case SndPut(_, why, _) => why.Echo? && !why.empty
    case LfWait(why) => why.Echo? && !why.empty
    case SndSig(why) => why.Echo? && !why.empty
    case _ => false
  }

  /** On with serial_rea_dat: `n` characters to read, the buffer found empty or not. */
  function ReadOn(n: nat, empty: bool): Pc {
    if n == 0 then (if empty then Idle else RcvSig)
    else if empty then RcvWait(n) else RcvChr(n)
  }

  /** A character has been sent, and the buffer found full or not. */
  function SentOne(why: Purpose, full: bool): Pc {
    match why
    case Write(rest) =>
      if rest == [] then (if full then Idle else SndSig(why))
      else if full then SndWait(rest[0], Write(rest[1..])) else SndChr(rest[0], Write(rest[1..]))
    case Echo(n, empty) => if full then ReadOn(n, empty) else SndSig(why)
  }

  // ----- the whole -----

  /** A port, its two semaphores, and any number of tasks that use it. */
  datatype Sys = Sys(p: Port, sndSem: nat, rcvSem: nat, tasks: seq<Pc>)

  function CountSnd(ts: seq<Pc>): nat {
    if ts == [] then 0 else (if HoldsSnd(ts[0]) then 1 else 0) + CountSnd(ts[1..])
  }

  function CountRcv(ts: seq<Pc>): nat {
    if ts == [] then 0 else (if HoldsRcv(ts[0]) then 1 else 0) + CountRcv(ts[1..])
  }

  /** The send token is somewhere, once, if and only if there is room in the send buffer; the
      receive token if and only if there is something in the receive buffer. */
  ghost predicate TokensOk(x: Sys) {
    && BuffersOk(x.p)
    && x.sndSem + CountSnd(x.tasks) == (if |x.p.snd| < x.p.sndBufsz then 1 else 0)
    && x.rcvSem + CountRcv(x.tasks) == (if |x.p.rcv| > 0 then 1 else 0)
  }

  datatype Action =
    | StartWrite(t: nat, buf: seq<char>) | StartRead(t: nat, len: nat)
    | Go(t: nat, accepts: bool)  // the next step of task `t`
    | Break(t: nat)              // its wait ends with an error
    | Terminate(t: nat)          // another task terminates it, wherever it is
    | SndCallback | RcvCallback(a: RcvAction) | Control(echo: bool, crlf: bool) | Steal

  /** A task can go on unless it is idle or waits for a token that is not there. */
  predicate CanGo(x: Sys, t: nat) {
    && t < |x.tasks|
    && match x.tasks[t]
       case Idle => false
       case SndWait(_, _) => x.sndSem > 0
       case LfWait(_) => x.sndSem > 0
       case RcvWait(_) => x.rcvSem > 0
       case RcvChr(_) => x.p.rcv != []
       case _ => true
  }

  predicate Possible(x: Sys, a: Action) {
    match a
    case StartWrite(t, _) => t < |x.tasks| && x.tasks[t].Idle?
    case StartRead(t, _) => t < |x.tasks| && x.tasks[t].Idle?
    case Go(t, _) => CanGo(x, t)
    case Break(t) => t < |x.tasks| && (x.tasks[t].SndWait? || x.tasks[t].LfWait? || x.tasks[t].RcvWait?)
    case Terminate(t) => t < |x.tasks|
    case _ => true
  }

  function At(x: Sys, t: nat, pc: Pc): Sys
    requires t < |x.tasks|
  {
    x.(tasks := x.tasks[t := pc])
  }

  function Full(p: Port): bool {
    |p.snd| == p.sndBufsz
  }

  function GoOn(x: Sys, t: nat, accepts: bool): Sys
    requires CanGo(x, t)
  {
    match x.tasks[t]
    case SndWait(c, why) => At(x.(sndSem := x.sndSem - 1), t, SndChr(c, why))
    case SndChr(c, why) => At(x, t, if c == '\n' && x.p.crlf then SndPut('\r', why, true) else SndPut(c, why, false))
    case SndPut(c, why, lf) =>
      var p := PutChr(x.p, c, accepts);
      At(x.(p := p), t, if lf then (if Full(p) then LfWait(why) else SndPut('\n', why, false)) else SentOne(why, Full(p)))
    case LfWait(why) => At(x.(sndSem := x.sndSem - 1), t, SndPut('\n', why, false))
    case SndSig(why) =>
      At(x.(sndSem := x.sndSem + 1), t, match why case Write(_) => Idle case Echo(n, empty) => ReadOn(n, empty))
    case RcvWait(n) => At(x.(rcvSem := x.rcvSem - 1), t, RcvChr(n))
    case RcvChr(n) =>
      var c := x.p.rcv[0];
      var p := TakeChr(x.p);
      At(x.(p := p), t, EchoTest(c, if n == 0 then 0 else n - 1, p.rcv == []))
    case EchoTest(c, n, empty) => At(x, t, if x.p.echo then SndWait(c, Echo(n, empty)) else ReadOn(n, empty))
    case RcvSig => At(x.(rcvSem := x.rcvSem + 1), t, Idle)
    case Idle => x
  }

  /** A callback frees a place in the send buffer; if that was full, it signals the semaphore. */
  function SendOneOut(x: Sys, p: Port): Sys {
    x.(p := p, sndSem := if |p.snd| < |x.p.snd| && Full(x.p) then x.sndSem + 1 else x.sndSem)
  }

  function Act(x: Sys, a: Action): Sys
    requires Possible(x, a)
  {
    match a
    case StartWrite(t, buf) => if buf == [] then x else At(x, t, SndWait(buf[0], Write(buf[1..])))
    case StartRead(t, len) => if len == 0 then x else At(x, t, RcvWait(len))
    case Go(t, accepts) => GoOn(x, t, accepts)
    case Break(t) => At(x, t, Idle)
    case Terminate(t) => At(x, t, Idle)
    case SndCallback => SendOneOut(x, SndReady(x.p))
    case RcvCallback(Store(c)) =>
      var p := RcvReady(x.p, Store(c));
      x.(p := p, rcvSem := if |x.p.rcv| == 0 && |p.rcv| > 0 then x.rcvSem + 1 else x.rcvSem)
    case RcvCallback(r) => SendOneOut(x, RcvReady(x.p, r))
    case Control(echo, crlf) => x.(p := x.p.(echo := echo, crlf := crlf))
    case Steal => x.(p := GetChr(x.p))
  }

  // ----- proofs -----

  lemma {:induction false} CountAt(ts: seq<Pc>, t: nat, pc: Pc)
    requires t < |ts|
    ensures CountSnd(ts[t := pc]) == CountSnd(ts) - (if HoldsSnd(ts[t]) then 1 else 0) + (if HoldsSnd(pc) then 1 else 0)
    ensures CountRcv(ts[t := pc]) == CountRcv(ts) - (if HoldsRcv(ts[t]) then 1 else 0) + (if HoldsRcv(pc) then 1 else 0)
    ensures HoldsSnd(ts[t]) ==> CountSnd(ts) > 0
    ensures HoldsRcv(ts[t]) ==> CountRcv(ts) > 0
  {
    if t == 0 {
      assert ts[0 := pc][1..] == ts[1..];
    } else {
      assert ts[t := pc][1..] == ts[1..][t - 1 := pc];
      CountAt(ts[1..], t - 1, pc);
    }
  }

  /** Which steps keep the tokens? All, but the end of a wait by an error while the task has
      the receive token, the termination of a task that has a token, and the removal of an
      unsent character from a full buffer. */
  predicate Safe(x: Sys, a: Action) {
    match a
    case Break(t) => t < |x.tasks| && !HoldsRcv(x.tasks[t])
    case Terminate(t) => t < |x.tasks| && !HoldsSnd(x.tasks[t]) && !HoldsRcv(x.tasks[t])
    case Steal => !Full(x.p)
    case _ => true
  }

  function One(b: bool): nat {
    if b then 1 else 0
  }

  /** A task moves on: the tokens are in order if the numbers are. */
  lemma MoveKeeps(x: Sys, t: nat, pc: Pc, y: Sys)
    requires TokensOk(x) && t < |x.tasks| && y.tasks == x.tasks[t := pc] && BuffersOk(y.p)
    requires y.sndSem + One(HoldsSnd(pc)) - One(|y.p.snd| < y.p.sndBufsz)
      == x.sndSem + One(HoldsSnd(x.tasks[t])) - One(|x.p.snd| < x.p.sndBufsz)
    requires y.rcvSem + One(HoldsRcv(pc)) - One(|y.p.rcv| > 0)
      == x.rcvSem + One(HoldsRcv(x.tasks[t])) - One(|x.p.rcv| > 0)
    ensures TokensOk(y)
  {
    hide BuffersOk, CountSnd, CountRcv, HoldsSnd, HoldsRcv;
    CountAt(x.tasks, t, pc);
  }

  /** Whoever has the send token has room; whoever has the receive token has a character; and
      there is at most one token of each kind, so that no signal overflows. */
  lemma HolderProceeds(x: Sys, t: nat)
    requires TokensOk(x) && t < |x.tasks|
    ensures HoldsSnd(x.tasks[t]) ==> |x.p.snd| < x.p.sndBufsz && x.sndSem == 0
    ensures HoldsRcv(x.tasks[t]) ==> x.p.rcv != [] && x.rcvSem == 0
    ensures x.sndSem <= 1 && x.rcvSem <= 1
    ensures Full(x.p) ==> x.sndSem == 0
    ensures x.p.rcv == [] ==> x.rcvSem == 0
  {
    hide HoldsSnd, HoldsRcv;
    CountAt(x.tasks, t, x.tasks[t]);
  }

  lemma PutKeeps(p: Port, c: char, accepts: bool)
    requires BuffersOk(p) && |p.snd| < p.sndBufsz
    ensures var p' := PutChr(p, c, accepts);
      && BuffersOk(p') && p' == p.(snd := p'.snd, accepted := p'.accepted, sent := p'.sent)
      && (Full(p') <==> |p'.snd| >= p'.sndBufsz)
  {
    assert p.sent + p.snd + [c] == p.sent + (p.snd + [c]);
  }

  /** A character is put while the send token is held, and the token stays with the task unless
      the buffer is full then. */
  lemma PutGoes(x: Sys, t: nat, c: char, accepts: bool, pc: Pc)
    requires TokensOk(x) && t < |x.tasks| && HoldsSnd(x.tasks[t])
    requires HoldsSnd(pc) <==> !Full(PutChr(x.p, c, accepts))
    requires HoldsRcv(pc) <==> HoldsRcv(x.tasks[t])
    ensures TokensOk(At(x.(p := PutChr(x.p, c, accepts)), t, pc))
  {
    hide HoldsSnd, HoldsRcv, PutChr, CountSnd, CountRcv;
    HolderProceeds(x, t);
    PutKeeps(x.p, c, accepts);
    MoveKeeps(x, t, pc, At(x.(p := PutChr(x.p, c, accepts)), t, pc));
  }

  lemma TakeGoes(x: Sys, t: nat, pc: Pc)
    requires TokensOk(x) && t < |x.tasks| && x.tasks[t].RcvChr? && x.p.rcv != [] && !HoldsSnd(pc)
    requires HoldsRcv(pc) <==> TakeChr(x.p).rcv != []
    ensures TokensOk(At(x.(p := TakeChr(x.p)), t, pc))
  {
    MoveKeeps(x, t, pc, At(x.(p := TakeChr(x.p)), t, pc));
  }

  lemma GoKeeps(x: Sys, t: nat, accepts: bool)
    requires TokensOk(x) && CanGo(x, t)
    ensures TokensOk(GoOn(x, t, accepts))
  {
    hide TokensOk, PutChr, Full;
    var y := GoOn(x, t, accepts);
    match x.tasks[t]
    case SndPut(c, why, lf) => PutGoes(x, t, c, accepts, y.tasks[t]);
    case RcvChr(n) => TakeGoes(x, t, y.tasks[t]);
    case _ => SemGoes(x, t, accepts);
  }

  /** The steps that leave the buffers alone. */
  lemma SemGoes(x: Sys, t: nat, accepts: bool)
    requires TokensOk(x) && CanGo(x, t)
    requires !x.tasks[t].SndPut? && !x.tasks[t].RcvChr?
    ensures TokensOk(GoOn(x, t, accepts))
  {
    hide BuffersOk, CountSnd, CountRcv;
    var y := GoOn(x, t, accepts);
    InOrder(x);
    MoveKeeps(x, t, y.tasks[t], y);
  }

  lemma InOrder(x: Sys)
    requires TokensOk(x)
    ensures BuffersOk(x.p)
  {
  }

  /** A step keeps the tokens if and only if it is safe: each of the three exceptions loses a
      token, and with it the way into a buffer. */
  lemma SafeIff(x: Sys, a: Action)
    requires TokensOk(x) && Possible(x, a)
    ensures TokensOk(Act(x, a)) <==> Safe(x, a)
  {
    hide CountSnd, CountRcv;
    match a
    case StartWrite(t, buf) =>
      if buf != [] {
        CountAt(x.tasks, t, SndWait(buf[0], Write(buf[1..])));
      }
    case StartRead(t, len) => CountAt(x.tasks, t, RcvWait(len));
    case Go(t, accepts) => GoKeeps(x, t, accepts);
    case Break(t) => CountAt(x.tasks, t, Idle);
    case Terminate(t) => CountAt(x.tasks, t, Idle);
    case SndCallback => SendOneKeeps(x);
    case RcvCallback(r) => RcvKeeps(x, r);
    case Control(echo, crlf) =>
    case Steal => StealKeeps(x);
  }

  lemma SendOneKeeps(x: Sys)
    requires TokensOk(x)
    ensures TokensOk(SendOneOut(x, SndReady(x.p)))
  {
    hide CountSnd, CountRcv;
    if !x.p.stopped && x.p.snd != [] {
      assert x.p.sent + x.p.snd == (x.p.sent + [x.p.snd[0]]) + x.p.snd[1..];
    }
  }

  lemma RcvKeeps(x: Sys, r: RcvAction)
    requires TokensOk(x)
    ensures TokensOk(Act(x, RcvCallback(r)))
  {
    hide CountSnd, CountRcv;
    match r
    case Restart(accepts) =>
      if accepts {
        SendOneKeeps(x.(p := x.p.(stopped := false)));
      }
    case _ =>
  }

  lemma StealKeeps(x: Sys)
    requires TokensOk(x)
    ensures TokensOk(Act(x, Steal)) <==> !Full(x.p)
  {
    hide CountSnd, CountRcv;
    if x.p.snd != [] {
      assert x.p.sent + x.p.snd == (x.p.sent + [x.p.snd[0]]) + x.p.snd[1..];
    }
  }

  // ----- runs -----

  /** The state after serial_opn_por. */
  ghost predicate Opened(x: Sys) {
    && 0 < x.p.sndBufsz && 0 < x.p.rcvBufsz && x.p.snd == [] && x.p.rcv == [] && x.p.accepted == x.p.sent
    && x.sndSem == 1 && x.rcvSem == 0
    && forall t :: 0 <= t < |x.tasks| ==> x.tasks[t].Idle?
  }

  lemma {:induction false} NobodyHolds(ts: seq<Pc>)
    requires forall t :: 0 <= t < |ts| ==> ts[t].Idle?
    ensures CountSnd(ts) == 0 && CountRcv(ts) == 0
  {
    if ts != [] {
      NobodyHolds(ts[1..]);
    }
  }

  ghost predicate SafeRun(x: Sys, run: seq<Action>, y: Sys)
    decreases |run|
  {
    if run == [] then x == y
    else Possible(x, run[0]) && Safe(x, run[0]) && SafeRun(Act(x, run[0]), run[1..], y)
  }

  lemma {:induction false} SafeRunKeeps(x: Sys, run: seq<Action>, y: Sys)
    requires TokensOk(x) && SafeRun(x, run, y)
    ensures TokensOk(y)
    decreases |run|
  {
    hide TokensOk, Safe, Possible, Act;
    if run != [] {
      SafeIff(x, run[0]);
      SafeRunKeeps(Act(x, run[0]), run[1..], y);
    }
  }

  /** From the opening of a port, under any interleaving of any number of tasks with the
      callbacks: exactly one send token while there is room, exactly one receive token while
      there is a character; no signal overflows, no buffer overruns or underruns, and all
      characters are sent in the order in which they were accepted. */
  lemma TokenProtocol(x: Sys, run: seq<Action>, y: Sys, t: nat)
    requires Opened(x) && SafeRun(x, run, y) && t < |y.tasks|
    ensures TokensOk(y) && y.sndSem <= 1 && y.rcvSem <= 1
    ensures Full(y.p) ==> y.sndSem == 0
    ensures y.p.rcv == [] ==> y.rcvSem == 0
    ensures HoldsSnd(y.tasks[t]) ==> |y.p.snd| < y.p.sndBufsz
    ensures HoldsRcv(y.tasks[t]) ==> y.p.rcv != []
    ensures y.p.sent <= y.p.accepted
  {
    OpenedOk(x);
    SafeRunKeeps(x, run, y);
    HolderProceeds(y, t);
  }

  // ----- a lost token -----

  /** There is room in the send buffer, but the send token is nowhere. */
  ghost predicate SndLost(x: Sys) {
    |x.p.snd| < x.p.sndBufsz && x.sndSem == 0 && CountSnd(x.tasks) == 0
  }

  /** There is a character in the receive buffer, but the receive token is nowhere. */
  ghost predicate RcvLost(x: Sys) {
    x.p.rcv != [] && x.rcvSem == 0 && CountRcv(x.tasks) == 0
  }

  /** Each step that is not safe loses a token. */
  lemma UnsafeLoses(x: Sys, a: Action)
    requires TokensOk(x) && Possible(x, a) && !Safe(x, a)
    ensures SndLost(Act(x, a)) || RcvLost(Act(x, a))
  {
    hide CountSnd, CountRcv;
    match a
    case Break(t) =>
      CountAt(x.tasks, t, Idle);
      HolderProceeds(x, t);
    case Terminate(t) =>
      CountAt(x.tasks, t, Idle);
      HolderProceeds(x, t);
    case Steal =>
  }

  ghost predicate AnyRun(x: Sys, run: seq<Action>, y: Sys)
    decreases |run|
  {
    if run == [] then x == y
    else Possible(x, run[0]) && AnyRun(Act(x, run[0]), run[1..], y)
  }

  /** Sending is stopped, and the step is none that sends nevertheless. */
  predicate LeavesStopped(a: Action) {
    !a.Steal? && !(a.RcvCallback? && a.a.Restart?)
  }

  /** From the reception of a STOP to that of a START, nothing is handed to the device. */
  lemma StopSilences(x: Sys, run: seq<Action>, y: Sys)
    requires AnyRun(Act(x, RcvCallback(Stop)), run, y) && forall i :: 0 <= i < |run| ==> LeavesStopped(run[i])
    ensures y.p.stopped && y.p.sent == x.p.sent
    ensures !Act(y, RcvCallback(Restart(true))).p.stopped
  {
    StoppedStays(Act(x, RcvCallback(Stop)), run, y);
  }

  lemma {:induction false} StoppedStays(x: Sys, run: seq<Action>, y: Sys)
    requires AnyRun(x, run, y) && x.p.stopped && forall i :: 0 <= i < |run| ==> LeavesStopped(run[i])
    ensures y.p.stopped && y.p.sent == x.p.sent
    decreases |run|
  {
    hide Possible, Act;
    if run != [] {
      StoppedStep(x, run[0]);
      StoppedStays(Act(x, run[0]), run[1..], y);
    }
  }

  lemma StoppedStep(x: Sys, a: Action)
    requires x.p.stopped && Possible(x, a) && LeavesStopped(a)
    ensures Act(x, a).p.stopped && Act(x, a).p.sent == x.p.sent
  {
  }

  lemma SndLostStep(x: Sys, a: Action)
    requires SndLost(x) && Possible(x, a)
    ensures SndLost(Act(x, a)) && Act(x, a).p.accepted == x.p.accepted
  {
    hide CountSnd, CountRcv;
    match a
    case StartWrite(t, buf) =>
      if buf != [] {
        CountAt(x.tasks, t, SndWait(buf[0], Write(buf[1..])));
      }
    case StartRead(t, len) => CountAt(x.tasks, t, RcvWait(len));
    case Go(t, accepts) => CountAt(x.tasks, t, Act(x, a).tasks[t]);
    case Break(t) => CountAt(x.tasks, t, Idle);
    case Terminate(t) => CountAt(x.tasks, t, Idle);
    case _ =>
  }

  lemma RcvLostStep(x: Sys, a: Action)
    requires RcvLost(x) && Possible(x, a)
    ensures RcvLost(Act(x, a)) && x.p.rcv <= Act(x, a).p.rcv
  {
    hide CountSnd, CountRcv, PutChr;
    match a
    case StartWrite(t, buf) =>
      if buf != [] {
        CountAt(x.tasks, t, SndWait(buf[0], Write(buf[1..])));
      }
    case StartRead(t, len) => CountAt(x.tasks, t, RcvWait(len));
    case Go(t, accepts) =>
      PutLeaves(x.p, accepts);
      CountAt(x.tasks, t, Act(x, a).tasks[t]);
    case Break(t) => CountAt(x.tasks, t, Idle);
    case Terminate(t) => CountAt(x.tasks, t, Idle);
    case _ =>
  }

  lemma PutLeaves(p: Port, accepts: bool)
    ensures forall c :: PutChr(p, c, accepts).rcv == p.rcv
  {
  }

  /** A lost token is lost for as long as the port is open, whatever is done: nobody writes a
      character any more, or nobody reads one. */
  lemma {:induction false} LostForever(x: Sys, run: seq<Action>, y: Sys)
    requires AnyRun(x, run, y)
    ensures SndLost(x) ==> SndLost(y) && y.p.accepted == x.p.accepted
    ensures RcvLost(x) ==> RcvLost(y) && x.p.rcv <= y.p.rcv
    decreases |run|
  {
    hide SndLost, RcvLost, Possible, Act;
    if run != [] {
      if SndLost(x) {
        SndLostStep(x, run[0]);
      }
      if RcvLost(x) {
        RcvLostStep(x, run[0]);
      }
      LostForever(Act(x, run[0]), run[1..], y);
    }
  }

  /** One more step. */
  lemma {:induction false} RunThen(x: Sys, run: seq<Action>, y: Sys, a: Action)
    requires SafeRun(x, run, y) && Possible(y, a) && Safe(y, a)
    ensures SafeRun(x, run + [a], Act(y, a))
    decreases |run|
  {
    hide Possible, Safe, Act;
    if run == [] {
      assert [a][1..] == [] && run + [a] == [a];
    } else {
      RunThen(Act(x, run[0]), run[1..], y, a);
      assert (run + [a])[1..] == run[1..] + [a];
    }
  }

  /** A port just opened, used by one task. */
  const FRESH := Sys(Port(1, 2, [], [], true, false, false, [], []), 1, 0, [Idle])

  /** A run that ends with a broken wait: two characters arrive, a task reads two with echo, and
      while it waits to echo the first one its wait is broken. The second one can never be read. */
  lemma EchoBreakRun() returns (run: seq<Action>, y: Sys)
    ensures Opened(FRESH) && SafeRun(FRESH, run, y) && Possible(y, Break(0)) && !TokensOk(Act(y, Break(0)))
    ensures RcvLost(Act(y, Break(0)))
  {
    hide SafeRun, TokensOk;
    var x1 := Act(FRESH, RcvCallback(Store('a')));
    var x2 := Act(x1, RcvCallback(Store('b')));
    var x3 := Act(x2, StartRead(0, 2));
    var x4 := Act(x3, Go(0, true));
    var x5 := Act(x4, Go(0, true));
    y := Act(x5, Go(0, true));
    assert x2.p.rcv == ['a', 'b'] && x2.rcvSem == 1;
    assert y.tasks[0] == SndWait('a', Echo(1, false));
    NoRun(FRESH);
    RunThen(FRESH, [], FRESH, RcvCallback(Store('a')));
    RunThen(FRESH, [] + [RcvCallback(Store('a'))], x1, RcvCallback(Store('b')));
    run := [] + [RcvCallback(Store('a'))] + [RcvCallback(Store('b'))];
    RunThen(FRESH, run, x2, StartRead(0, 2));
    RunThen(FRESH, run + [StartRead(0, 2)], x3, Go(0, true));
    run := run + [StartRead(0, 2)] + [Go(0, true)];
    RunThen(FRESH, run, x4, Go(0, true));
    RunThen(FRESH, run + [Go(0, true)], x5, Go(0, true));
    run := run + [Go(0, true)] + [Go(0, true)];
    OpenedOk(FRESH);
    SafeRunKeeps(FRESH, run, y);
    SafeIff(y, Break(0));
    OneTask(Act(y, Break(0)));
  }

  /** A run that ends with a termination: a task that is to write a character has got the send
      token and is terminated. Now nobody can ever write. */
  lemma TerminateRun() returns (run: seq<Action>, y: Sys)
    ensures Opened(FRESH) && SafeRun(FRESH, run, y) && Possible(y, Terminate(0)) && !TokensOk(Act(y, Terminate(0)))
    ensures SndLost(Act(y, Terminate(0)))
  {
    hide SafeRun, TokensOk;
    var x1 := Act(FRESH, StartWrite(0, ['a']));
    y := Act(x1, Go(0, true));
    NoRun(FRESH);
    RunThen(FRESH, [], FRESH, StartWrite(0, ['a']));
    run := [] + [StartWrite(0, ['a'])];
    RunThen(FRESH, run, x1, Go(0, true));
    run := run + [Go(0, true)];
    OpenedOk(FRESH);
    SafeRunKeeps(FRESH, run, y);
    SafeIff(y, Terminate(0));
    OneTask(Act(y, Terminate(0)));
  }

  /** A run that ends with serial_get_chr: a task has filled the send buffer, and its unsent
      character is taken out without a signal that there is room again. */
  lemma StealRun() returns (run: seq<Action>, y: Sys)
    ensures Opened(FRESH) && SafeRun(FRESH, run, y) && Full(y.p) && Possible(y, Steal) && !TokensOk(Act(y, Steal))
    ensures SndLost(Act(y, Steal))
  {
    hide SafeRun, TokensOk;
    var x1 := Act(FRESH, StartWrite(0, ['a']));
    var x2 := Act(x1, Go(0, true));
    var x3 := Act(x2, Go(0, true));
    y := Act(x3, Go(0, false));
    assert y.p.snd == ['a'];
    NoRun(FRESH);
    RunThen(FRESH, [], FRESH, StartWrite(0, ['a']));
    run := [] + [StartWrite(0, ['a'])];
    RunThen(FRESH, run, x1, Go(0, true));
    run := run + [Go(0, true)];
    RunThen(FRESH, run, x2, Go(0, true));
    RunThen(FRESH, run + [Go(0, true)], x3, Go(0, false));
    run := run + [Go(0, true)] + [Go(0, false)];
    OpenedOk(FRESH);
    SafeRunKeeps(FRESH, run, y);
    SafeIff(y, Steal);
    OneTask(Act(y, Steal));
  }

  lemma OneTask(x: Sys)
    requires |x.tasks| == 1 && x.tasks[0].Idle?
    ensures CountSnd(x.tasks) == 0 && CountRcv(x.tasks) == 0
  {
    NobodyHolds(x.tasks);
  }

  lemma NoRun(x: Sys)
    ensures SafeRun(x, [], x)
  {
  }

  lemma OpenedOk(x: Sys)
    requires Opened(x)
    ensures TokensOk(x)
  {
    NobodyHolds(x.tasks);
  }
}
