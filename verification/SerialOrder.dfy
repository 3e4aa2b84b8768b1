/**
 What serial_wri_dat and serial_rea_dat do with the data of their callers, under any interleaving
 of any number of tasks with the callbacks: everything is written, in order, and read, in order.
 */
module SerialOrder {
  import opened Common
  import opened SerialTokens

  /** A call of serial_wri_dat, or of serial_rea_dat if `reading`, by what can be observed of it: the
      characters that it has to write (what it echoes, if it reads); whether IOCTL_CRLF was set
      when each of those so far was looked at; what it has put into the send buffer or the device;
      how many characters it is to read, and those that it has got. */
  datatype Job = Job(reading: bool, src: seq<char>, crs: seq<bool>, put: seq<char>, len: nat, got: seq<char>)

  /** The port, the calls under way or ended normally, and all characters that were stored in the
      receive buffer and that tasks have got out of it. */
  datatype Hist = Hist(x: Sys, jobs: seq<Option<Job>>, stored: seq<char>, read: seq<char>)

  /** What a step has put into the send buffer or the device. */
  function NewlyPut(x: Sys, y: Sys): seq<char> {
    if |x.p.accepted| <= |y.p.accepted| then y.p.accepted[|x.p.accepted|..] else []
  }

  /** What serial_rea_chr has returned in the step. */
  function NewlyGot(x: Sys, y: Sys, t: nat): seq<char> {
    if t < |x.tasks| && t < |y.tasks| && x.tasks[t].RcvChr? && y.tasks[t].EchoTest? then [y.tasks[t].c] else []
  }

  /** The step of a task in the middle of a call. */
  function JobGo(j: Job, x: Sys, y: Sys, t: nat): Job
    requires t < |x.tasks|
  {
    Job(
      j.reading,
      if x.tasks[t].EchoTest? && x.p.echo && j.got != [] then j.src + [j.got[|j.got| - 1]] else j.src,
      if x.tasks[t].SndChr? then j.crs + [x.p.crlf] else j.crs,
      j.put + NewlyPut(x, y),
      j.len,
      j.got + NewlyGot(x, y, t))
  }

  function JobsNext(h: Hist, a: Action): seq<Option<Job>>
    requires Possible(h.x, a) && |h.jobs| == |h.x.tasks|
  {
    match a
    case StartWrite(t, buf) => h.jobs[t := Some(Job(false, buf, [], [], 0, []))]
    case StartRead(t, len) => h.jobs[t := Some(Job(true, [], [], [], len, []))]
    case Go(t, _) => h.jobs[t := if h.jobs[t].Some? then Some(JobGo(h.jobs[t].value, h.x, Act(h.x, a), t)) else None]
    case Break(t) => h.jobs[t := None]
    case Terminate(t) => h.jobs[t := None]
    case _ => h.jobs
  }

  function HistDo(h: Hist, a: Action): Hist
    requires Possible(h.x, a) && |h.jobs| == |h.x.tasks|
  {
    var y := Act(h.x, a);
    Hist(y, JobsNext(h, a),
         if a.RcvCallback? && a.a.Store? && |h.x.p.rcv| < h.x.p.rcvBufsz then h.stored + [a.a.c] else h.stored,
         if a.Go? then h.read + NewlyGot(h.x, y, a.t) else h.read)
  }

  ghost predicate HistRun(h: Hist, run: seq<Action>, h': Hist)
    decreases |run|
  {
    if run == [] then h == h'
    else Possible(h.x, run[0]) && |h.jobs| == |h.x.tasks| && HistRun(HistDo(h, run[0]), run[1..], h')
  }

  // ----- what has been written -----

  /** A character as it is to be written. */
  function Written(c: char, crlf: bool): seq<char> {
    if c == '\n' && crlf then ['\r', '\n'] else [c]
  }

  /** The first characters of `src`, as many as there are in `crs`, as they are to be written. */
  function AllWritten(src: seq<char>, crs: seq<bool>): seq<char>
    requires |crs| <= |src|
    decreases |crs|
  {
    if crs == [] then [] else AllWritten(src, crs[..|crs| - 1]) + Written(src[|crs| - 1], crs[|crs| - 1])
  }

  function Todo(why: Purpose): seq<char> {
    match why
    case Write(rest) => rest
    case Echo(_, _) => []
  }

  /** The characters that the task has not looked at. */
  function Untouched(pc: Pc): seq<char> {
    match pc
    case SndWait(c, why) => [c] + Todo(why)
    case SndChr(c, why) => [c] + Todo(why)
    case SndPut(_, why, _) => Todo(why)
    case LfWait(why) => Todo(why)
    case SndSig(why) => Todo(why)
    case _ => []
  }

  /** What the task still has to put for the character that it has looked at. */
  function Pending(pc: Pc): seq<char> {
    match pc
    case SndPut(c, _, lf) => if lf then [c, '\n'] else [c]
    case LfWait(_) => ['\n']
    case _ => []
  }

  /** How many characters the task still has to read. */
  function ToRead(pc: Pc): nat {
    match pc
    case RcvWait(n) => n
    case RcvChr(n) => n
    case EchoTest(_, n, _) => n
    case SndWait(_, Echo(n, _)) => n
    case SndChr(_, Echo(n, _)) => n
    case SndPut(_, Echo(n, _), _) => n
    case LfWait(Echo(n, _)) => n
    case SndSig(Echo(n, _)) => n
    case _ => 0
  }

  /** Is the task in serial_rea_dat, or in serial_wri_dat? */
  predicate InCall(pc: Pc, reading: bool) {
    match pc
    case Idle => true
    case SndWait(_, why) => why.Echo? == reading
    case SndChr(_, why) => why.Echo? == reading
    case SndPut(_, why, _) => why.Echo? == reading
    case LfWait(why) => why.Echo? == reading
    case SndSig(why) => why.Echo? == reading
    case RcvWait(n) => reading && n > 0
    case RcvChr(n) => reading && n > 0
    case EchoTest(_, _, _) => reading
    case RcvSig => reading
  }

  ghost predicate JobOk(j: Job, pc: Pc) {
    && InCall(pc, j.reading)
    && |j.crs| <= |j.src| && Untouched(pc) == j.src[|j.crs|..]
    && j.put + Pending(pc) == AllWritten(j.src, j.crs)
    && (pc.SndSig? ==> Untouched(pc) == [])
    && (j.reading ==> |j.got| + ToRead(pc) == j.len)
    && (pc.EchoTest? ==> j.got != [] && pc.c == j.got[|j.got| - 1])
  }

  ghost predicate HistOk(h: Hist) {
    && |h.jobs| == |h.x.tasks|
    && (forall t :: 0 <= t < |h.jobs| && h.jobs[t].Some? ==> JobOk(h.jobs[t].value, h.x.tasks[t]))
    && h.read + h.x.p.rcv == h.stored && |h.x.p.rcv| <= h.x.p.rcvBufsz
  }

  // ----- proofs -----

  /** The step of a call that puts nothing. */
  lemma NothingPut(x: Sys, y: Sys)
    requires y.p.accepted == x.p.accepted
    ensures NewlyPut(x, y) == []
  {
  }

  lemma PutOne(x: Sys, t: nat, accepts: bool)
    requires CanGo(x, t) && x.tasks[t].SndPut?
    ensures NewlyPut(x, GoOn(x, t, accepts)) == [x.tasks[t].c]
  {
  }

  /** A character has been looked at: it is written as IOCTL_CRLF says at that moment. */
  lemma LookedAt(j: Job, c: char, why: Purpose, crlf: bool)
    requires JobOk(j, SndChr(c, why))
    ensures JobOk(j.(crs := j.crs + [crlf]), if c == '\n' && crlf then SndPut('\r', why, true) else SndPut(c, why, false))
  {
    var crs := j.crs + [crlf];
    assert crs[..|crs| - 1] == j.crs;
    assert Untouched(SndChr(c, why))[0] == c;
    assert Todo(why) == Untouched(SndChr(c, why))[1..];
    assert j.put + Pending(SndChr(c, why)) == j.put;
  }

  /** A character is put. */
  lemma PutOk(j: Job, c: char, why: Purpose, lf: bool, full: bool)
    requires JobOk(j, SndPut(c, why, lf))
    ensures JobOk(j.(put := j.put + [c]), if lf then (if full then LfWait(why) else SndPut('\n', why, false)) else SentOne(why, full))
  {
    hide AllWritten;
    var pc' := if lf then (if full then LfWait(why) else SndPut('\n', why, false)) else SentOne(why, full);
    SentOk(why, full);
    assert Pending(SndPut(c, why, lf)) == [c] + Pending(pc');
    assert j.put + ([c] + Pending(pc')) == (j.put + [c]) + Pending(pc');
    hide SentOne;
  }

  lemma SentOk(why: Purpose, full: bool)
    ensures var pc' := SentOne(why, full);
      && Untouched(pc') == Todo(why) && Pending(pc') == [] && !pc'.EchoTest?
      && InCall(pc', why.Echo?) && (pc'.SndSig? ==> Untouched(pc') == [])
      && (why.Echo? ==> ToRead(pc') == why.n)
  {
    if why.Write? && why.rest != [] {
      assert [why.rest[0]] + why.rest[1..] == why.rest;
    }
  }

  lemma JobSteps(j: Job, x: Sys, t: nat, accepts: bool)
    requires CanGo(x, t) && JobOk(j, x.tasks[t])
    ensures JobOk(JobGo(j, x, GoOn(x, t, accepts), t), GoOn(x, t, accepts).tasks[t])
  {
    hide JobOk, AllWritten, PutChr, NewlyPut;
    var y := GoOn(x, t, accepts);
    match x.tasks[t]
    case SndChr(c, why) =>
      NothingPut(x, y);
      LookedAt(j, c, why, x.p.crlf);
      assert j.put + [] == j.put && j.got + [] == j.got;
    case SndPut(c, why, lf) =>
      PutOne(x, t, accepts);
      PutOk(j, c, why, lf, Full(y.p));
      assert j.got + [] == j.got;
    case _ =>
      NothingPut(x, y);
      QuietOk(j, x, t, accepts);
  }

  /** More characters behind do not matter. */
  lemma {:induction false} WrittenBefore(src: seq<char>, more: seq<char>, crs: seq<bool>)
    requires |crs| <= |src|
    ensures AllWritten(src + more, crs) == AllWritten(src, crs)
    decreases |crs|
  {
    if crs != [] {
      WrittenBefore(src, more, crs[..|crs| - 1]);
    }
  }

  /** On with reading: nothing is left to write. */
  lemma ReadOnOk(j: Job, pc: Pc, n: nat, empty: bool)
    requires JobOk(j, pc) && j.reading && Untouched(pc) == [] && Pending(pc) == [] && ToRead(pc) == n
    ensures JobOk(j, ReadOn(n, empty))
  {
    hide AllWritten;
  }

  lemma EchoOk(j: Job, c: char, n: nat, empty: bool)
    requires JobOk(j, EchoTest(c, n, empty))
    ensures JobOk(j.(src := j.src + [c]), SndWait(c, Echo(n, empty)))
  {
    WrittenBefore(j.src, [c], j.crs);
    hide AllWritten;
  }

  lemma GotOk(j: Job, n: nat, c: char, empty: bool)
    requires JobOk(j, RcvChr(n))
    ensures JobOk(j.(got := j.got + [c]), EchoTest(c, n - 1, empty))
  {
    hide AllWritten;
  }

  lemma TokenOk(j: Job, pc: Pc, pc': Pc)
    requires JobOk(j, pc) && InCall(pc', j.reading) && Untouched(pc') == Untouched(pc) && Pending(pc') == Pending(pc) && ToRead(pc') == ToRead(pc)
    requires !pc'.EchoTest? && !pc'.SndSig?
    ensures JobOk(j, pc')
  {
    hide AllWritten;
  }

  /** The steps that put nothing and look at nothing. */
  lemma QuietOk(j: Job, x: Sys, t: nat, accepts: bool)
    requires CanGo(x, t) && JobOk(j, x.tasks[t]) && !x.tasks[t].SndChr? && !x.tasks[t].SndPut?
    requires NewlyPut(x, GoOn(x, t, accepts)) == []
    ensures JobOk(JobGo(j, x, GoOn(x, t, accepts), t), GoOn(x, t, accepts).tasks[t])
  {
    hide AllWritten, NewlyPut, ReadOn, JobOk;
    var pc, pc' := x.tasks[t], GoOn(x, t, accepts).tasks[t];
    assert j.put + [] == j.put && j.got + [] == j.got;
    CallOk(j, pc);
    match pc
    case SndSig(why) =>
      if why.Echo? {
        ReadOnOk(j, pc, why.n, why.empty);
      } else {
        TokenOk(j, pc, Idle);
      }
    case RcvChr(n) => GotOk(j, n, x.p.rcv[0], TakeChr(x.p).rcv == []);
    case EchoTest(c, n, empty) =>
      if x.p.echo {
        EchoOk(j, c, n, empty);
      } else {
        ReadOnOk(j, pc, n, empty);
      }
    case _ => TokenOk(j, pc, pc');
  }

  lemma CallOk(j: Job, pc: Pc)
    requires JobOk(j, pc)
    ensures InCall(pc, j.reading) && (pc.SndSig? ==> Untouched(pc) == []) && (pc.EchoTest? ==> j.got != [] && pc.c == j.got[|j.got| - 1])
  {
    hide AllWritten;
  }

  lemma StartOk(pc: Pc)
    ensures forall buf: seq<char> :: JobOk(Job(false, buf, [], [], 0, []), if buf == [] then Idle else SndWait(buf[0], Write(buf[1..])))
    ensures forall len: nat :: JobOk(Job(true, [], [], [], len, []), if len == 0 then Idle else RcvWait(len))
  {
    forall buf: seq<char> | buf != []
      ensures [buf[0]] + buf[1..] == buf
    {
    }
  }

  /** Every step keeps the books right. */
  lemma HistStep(h: Hist, a: Action)
    requires HistOk(h) && Possible(h.x, a)
    ensures HistOk(HistDo(h, a))
  {
    hide JobOk, JobGo, GoOn, RcvReady, SndReady;
    var h' := HistDo(h, a);
    match a
    case StartWrite(t, buf) => StartOk(h.x.tasks[t]);
    case StartRead(t, len) => StartOk(h.x.tasks[t]);
    case Go(t, accepts) =>
      if h.jobs[t].Some? {
        JobSteps(h.jobs[t].value, h.x, t, accepts);
      }
      GoReads(h.x, t, accepts);
    case _ => OtherReads(h.x, a);
  }

  /** What a task takes out of the receive buffer is the oldest there. */
  lemma GoReads(x: Sys, t: nat, accepts: bool)
    requires CanGo(x, t)
    ensures var y := GoOn(x, t, accepts);
      && |y.tasks| == |x.tasks| && (forall u :: 0 <= u < |x.tasks| && u != t ==> y.tasks[u] == x.tasks[u])
      && NewlyGot(x, y, t) + y.p.rcv == x.p.rcv && y.p.rcvBufsz == x.p.rcvBufsz
  {
    hide ReadOn, SentOne;
  }

  /** Only a character that is stored changes the receive buffer. */
  lemma OtherReads(x: Sys, a: Action)
    requires Possible(x, a) && !a.Go? && !a.StartWrite? && !a.StartRead? && |x.p.rcv| <= x.p.rcvBufsz
    ensures var y := Act(x, a);
      && |y.tasks| == |x.tasks|
      && (!a.Break? && !a.Terminate? ==> y.tasks == x.tasks)
      && (a.Break? || a.Terminate? ==> y.tasks == x.tasks[a.t := Idle])
      && y.p.rcv == x.p.rcv + (if a.RcvCallback? && a.a.Store? && |x.p.rcv| < x.p.rcvBufsz then [a.a.c] else [])
      && |y.p.rcv| <= y.p.rcvBufsz
  {
  }

  // ----- runs -----

  /** A port just opened: no call has been made and no character stored. */
  ghost predicate Fresh(h: Hist) {
    Opened(h.x) && |h.jobs| == |h.x.tasks| && (forall t :: 0 <= t < |h.jobs| ==> h.jobs[t] == None) && h.stored == [] && h.read == []
  }

  lemma {:induction false} HistRunOk(h: Hist, run: seq<Action>, h': Hist)
    requires HistOk(h) && HistRun(h, run, h')
    ensures HistOk(h')
    decreases |run|
  {
    hide HistOk, HistDo, Possible;
    if run != [] {
      HistStep(h, run[0]);
      HistRunOk(HistDo(h, run[0]), run[1..], h');
    }
  }

  /** At any time, under any interleaving: what a task has put is what it has looked at, written
      as it must be, but for what is pending of the last character; what it has not looked at is
      the rest of its data; so that when the call ends normally, all its data have been put, in
      their order. */
  lemma WritesInOrder(h: Hist, run: seq<Action>, h': Hist, t: nat)
    requires Fresh(h) && HistRun(h, run, h') && t < |h'.jobs| && h'.jobs[t].Some?
    ensures |h'.x.tasks| == |h'.jobs|
    ensures var (j, pc) := (h'.jobs[t].value, h'.x.tasks[t]);
      && |j.crs| <= |j.src| && j.src == j.src[..|j.crs|] + Untouched(pc)
      && j.put + Pending(pc) == AllWritten(j.src, j.crs)
      && (pc.Idle? ==> |j.crs| == |j.src| && j.put == AllWritten(j.src, j.crs))
  {
    hide HistRun, AllWritten;
    HistRunOk(h, run, h');
  }

  /** What tasks have got, followed by what is in the receive buffer, is what was stored in it; and
      a call of serial_rea_dat that ends normally has got as many characters as it was to read. */
  lemma ReadsInOrder(h: Hist, run: seq<Action>, h': Hist)
    requires Fresh(h) && HistRun(h, run, h')
    ensures h'.read + h'.x.p.rcv == h'.stored && |h'.x.tasks| == |h'.jobs|
    ensures forall t :: 0 <= t < |h'.jobs| && h'.jobs[t].Some? && h'.jobs[t].value.reading ==>
      var j := h'.jobs[t].value;
      |j.got| + ToRead(h'.x.tasks[t]) == j.len && (h'.x.tasks[t].Idle? ==> |j.got| == j.len)
  {
    hide HistRun, AllWritten;
    HistRunOk(h, run, h');
  }

  // ----- one call, from its start -----

  /** Data as they are to be written. */
  function Lines(src: seq<char>, crlf: bool): seq<char> {
    if src == [] then [] else Written(src[0], crlf) + Lines(src[1..], crlf)
  }

  lemma {:induction false} LinesEnd(src: seq<char>, c: char, crlf: bool)
    ensures Lines(src + [c], crlf) == Lines(src, crlf) + Written(c, crlf)
  {
    hide Written;
    if src == [] {
      assert [c][1..] == [] && src + [c] == [c];
      assert Written(c, crlf) + [] == Written(c, crlf);
    } else {
      LinesEnd(src[1..], c, crlf);
      assert (src + [c])[1..] == src[1..] + [c];
      assert Written(src[0], crlf) + (Lines(src[1..], crlf) + Written(c, crlf)) == (Written(src[0], crlf) + Lines(src[1..], crlf)) + Written(c, crlf);
    }
  }

  lemma {:induction false} WrittenLines(src: seq<char>, crs: seq<bool>, crlf: bool)
    requires |crs| <= |src| && forall i :: 0 <= i < |crs| ==> crs[i] == crlf
    ensures AllWritten(src, crs) == Lines(src[..|crs|], crlf)
    decreases |crs|
  {
    if crs != [] {
      var n := |crs| - 1;
      WrittenLines(src, crs[..n], crlf);
      LinesEnd(src[..n], src[n], crlf);
      assert src[..n] + [src[n]] == src[..n + 1];
    }
  }

  /** The call of serial_wri_dat by `t` with the data `buf`, while the setting of IOCTL_CRLF stays. */
  ghost predicate Writing(h: Hist, t: nat, buf: seq<char>, crlf: bool) {
    && HistOk(h) && t < |h.jobs| && h.x.p.crlf == crlf
    && (h.jobs[t].Some? ==>
      && !h.jobs[t].value.reading && h.jobs[t].value.src == buf
      && forall i :: 0 <= i < |h.jobs[t].value.crs| ==> h.jobs[t].value.crs[i] == crlf)
  }

  /** The step neither starts a new call of `t` nor changes settings. */
  predicate GoesOn(a: Action, t: nat) {
    !a.Control? && !(a.StartWrite? && a.t == t) && !(a.StartRead? && a.t == t)
  }

  lemma WritingStep(h: Hist, a: Action, t: nat, buf: seq<char>, crlf: bool)
    requires Writing(h, t, buf, crlf) && Possible(h.x, a) && GoesOn(a, t)
    ensures Writing(HistDo(h, a), t, buf, crlf)
  {
    hide GoOn, RcvReady, SndReady, NewlyPut, NewlyGot, AllWritten;
    HistStep(h, a);
    SettingStays(h.x, a);
    if a.Go? && a.t == t && h.jobs[t].Some? {
      CallOk(h.jobs[t].value, h.x.tasks[t]);
    }
    hide HistOk, JobOk;
  }

  lemma SettingStays(x: Sys, a: Action)
    requires Possible(x, a) && !a.Control?
    ensures Act(x, a).p.crlf == x.p.crlf
  {
  }

  lemma {:induction false} WritingRun(h: Hist, run: seq<Action>, h': Hist, t: nat, buf: seq<char>, crlf: bool)
    requires Writing(h, t, buf, crlf) && HistRun(h, run, h') && forall i :: 0 <= i < |run| ==> GoesOn(run[i], t)
    ensures Writing(h', t, buf, crlf)
    decreases |run|
  {
    hide Writing, HistDo, Possible, GoesOn;
    if run != [] {
      WritingStep(h, run[0], t, buf, crlf);
      WritingRun(HistDo(h, run[0]), run[1..], h', t, buf, crlf);
    }
  }

  /** A call of serial_wri_dat that is not broken, whatever other tasks and the callbacks do: all
      data of the caller have been put in their order, with a CR before each LF if IOCTL_CRLF is set. */
  lemma WritesAll(h: Hist, t: nat, buf: seq<char>, run: seq<Action>, h': Hist)
    requires HistOk(h) && Possible(h.x, StartWrite(t, buf)) && HistRun(HistDo(h, StartWrite(t, buf)), run, h')
    requires forall i :: 0 <= i < |run| ==> GoesOn(run[i], t)
    ensures |h'.jobs| == |h'.x.tasks| && t < |h'.jobs|
    ensures h'.jobs[t].Some? && h'.x.tasks[t].Idle? ==> h'.jobs[t].value.put == Lines(buf, h.x.p.crlf)
  {
    hide HistRun, Lines, AllWritten, GoesOn;
    HistStep(h, StartWrite(t, buf));
    WritingRun(HistDo(h, StartWrite(t, buf)), run, h', t, buf, h.x.p.crlf);
    if h'.jobs[t].Some? && h'.x.tasks[t].Idle? {
      var j := h'.jobs[t].value;
      assert JobOk(j, Idle);
      assert j.put + [] == j.put && |j.crs| == |j.src|;
      WrittenLines(buf, j.crs, h.x.p.crlf);
      assert buf[..|buf|] == buf;
    }
  }

  /** The call of serial_rea_dat by `t`, while IOCTL_ECHO stays on and IOCTL_CRLF as it is. */
  ghost predicate Echoing(h: Hist, t: nat, len: nat, crlf: bool) {
    && HistOk(h) && t < |h.jobs| && h.x.p.crlf == crlf && h.x.p.echo
    && (h.jobs[t].Some? ==> EchoJob(h.jobs[t].value, h.x.tasks[t], len, crlf))
  }

  /** Every character that the task has got is to be echoed, but the last one until that is decided. */
  ghost predicate EchoJob(j: Job, pc: Pc, len: nat, crlf: bool) {
    && j.reading && j.len == len && j.got == j.src + (if pc.EchoTest? then [pc.c] else [])
    && forall i :: 0 <= i < |j.crs| ==> j.crs[i] == crlf
  }

  lemma EchoStays(x: Sys, a: Action)
    requires Possible(x, a) && !a.Control?
    ensures Act(x, a).p.echo == x.p.echo
  {
  }

  lemma EchoingStep(h: Hist, a: Action, t: nat, len: nat, crlf: bool)
    requires Echoing(h, t, len, crlf) && Possible(h.x, a) && GoesOn(a, t)
    ensures Echoing(HistDo(h, a), t, len, crlf)
  {
    hide HistOk, JobOk, JobGo, EchoJob, GoOn, RcvReady, SndReady, NewlyGot;
    HistStep(h, a);
    SettingStays(h.x, a);
    EchoStays(h.x, a);
    HistBounds(h);
    if a.Go? {
      GoReads(h.x, a.t, a.accepts);
      if a.t == t && h.jobs[t].Some? {
        CallOk(h.jobs[t].value, h.x.tasks[t]);
        EchoGoes(h.x, t, a.accepts);
        EchoJobStep(h.jobs[t].value, h.x, t, a.accepts, len);
      }
    } else if !a.StartWrite? && !a.StartRead? {
      OtherReads(h.x, a);
    }
  }

  lemma EchoJobStep(j: Job, x: Sys, t: nat, accepts: bool, len: nat)
    requires CanGo(x, t) && x.p.echo && EchoJob(j, x.tasks[t], len, x.p.crlf)
    requires x.tasks[t].EchoTest? ==> j.got != [] && x.tasks[t].c == j.got[|j.got| - 1]
    requires var pc' := GoOn(x, t, accepts).tasks[t];
      && (pc'.EchoTest? <==> x.tasks[t].RcvChr?)
      && NewlyGot(x, GoOn(x, t, accepts), t) == if pc'.EchoTest? then [pc'.c] else []
    ensures EchoJob(JobGo(j, x, GoOn(x, t, accepts), t), GoOn(x, t, accepts).tasks[t], len, x.p.crlf)
  {
    hide GoOn, NewlyPut, NewlyGot;
  }

  lemma HistBounds(h: Hist)
    requires HistOk(h)
    ensures |h.x.p.rcv| <= h.x.p.rcvBufsz && |h.jobs| == |h.x.tasks|
    ensures forall t :: 0 <= t < |h.jobs| && h.jobs[t].Some? ==> JobOk(h.jobs[t].value, h.x.tasks[t])
  {
    hide JobOk;
  }

  /** Only reading a character leads to the test for echo. */
  lemma EchoGoes(x: Sys, t: nat, accepts: bool)
    requires CanGo(x, t)
    ensures var pc' := GoOn(x, t, accepts).tasks[t];
      && (pc'.EchoTest? <==> x.tasks[t].RcvChr?)
      && NewlyGot(x, GoOn(x, t, accepts), t) == if pc'.EchoTest? then [pc'.c] else []
  {
    hide PutChr;
  }

  lemma {:induction false} EchoingRun(h: Hist, run: seq<Action>, h': Hist, t: nat, len: nat, crlf: bool)
    requires Echoing(h, t, len, crlf) && HistRun(h, run, h') && forall i :: 0 <= i < |run| ==> GoesOn(run[i], t)
    ensures Echoing(h', t, len, crlf)
    decreases |run|
  {
    hide Echoing, HistDo, Possible, GoesOn;
    if run != [] {
      EchoingStep(h, run[0], t, len, crlf);
      EchoingRun(HistDo(h, run[0]), run[1..], h', t, len, crlf);
    }
  }

  /** A call of serial_rea_dat that is not broken: with echo on, it has got as many characters as
      it was to read, and put each of them in the order in which it got them. */
  lemma EchoesAll(h: Hist, t: nat, len: nat, run: seq<Action>, h': Hist)
    requires HistOk(h) && h.x.p.echo && Possible(h.x, StartRead(t, len)) && HistRun(HistDo(h, StartRead(t, len)), run, h')
    requires forall i :: 0 <= i < |run| ==> GoesOn(run[i], t)
    ensures |h'.jobs| == |h'.x.tasks| && t < |h'.jobs|
    ensures h'.jobs[t].Some? && h'.x.tasks[t].Idle? ==>
      var j := h'.jobs[t].value; j.put == Lines(j.got, h.x.p.crlf) && |j.got| == len
  {
    hide HistRun, Lines, AllWritten, GoesOn;
    HistStep(h, StartRead(t, len));
    EchoingRun(HistDo(h, StartRead(t, len)), run, h', t, len, h.x.p.crlf);
    if h'.jobs[t].Some? && h'.x.tasks[t].Idle? {
      var j := h'.jobs[t].value;
      assert JobOk(j, Idle);
      assert j.put + [] == j.put && |j.crs| == |j.src| && j.src + [] == j.src;
      WrittenLines(j.src, j.crs, h.x.p.crlf);
      assert j.src[..|j.src|] == j.src;
    }
  }
}
