/** The block backend as a transition system: callers queue and cancel requests, a pool of worker
    threads sleeps on one condition variable, and a pauser waits on another.

    Each step is one critical section of the backend's lock, or the request processing that happens
    outside it.  `called` and `cancelled` are history: the requests whose callback has been made and
    those taken back before they ran. */
module BlockProtocol {
  import opened BlockQueue

  const NUM_THR: nat := 8

  datatype Worker = Looping | Running(slot: Slot) | Returning(slot: Slot) | Sleeping | Exited {
    predicate Awake() { Looping? || Running? || Returning? }
    predicate Has(x: Slot) { (Running? || Returning?) && slot == x }
  }

  datatype Pauser = Resumed | Waiting | Signalled | Paused

  datatype Closing = Open | Marked | Announced

  datatype State = State(c: Ctxt, workers: seq<Worker>, pauser: Pauser, closing: Closing,
                         called: multiset<nat>, cancelled: multiset<nat>)

  ghost predicate Init(s: State) {
    && s.c == Ctxt(seq(MAX_REQ, i => i), [], [], s.c.elems, 0) && |s.c.elems| == MAX_REQ
    && (forall x :: 0 <= x < MAX_REQ ==> s.c.elems[x].status.Free?)
    && |s.workers| == NUM_THR && (forall w :: 0 <= w < NUM_THR ==> s.workers[w].Looping?)
    && s.pauser.Resumed? && s.closing.Open? && s.called == multiset{} && s.cancelled == multiset{}
  }

  predicate Empty(c: Ctxt) { c.pendq == [] && c.busyq == [] }

  function SetWorker(s: State, w: nat, W: Worker): State
    requires w < |s.workers|
  {
    s.(workers := s.workers[w := W])
  }

  /** `pthread_cond_signal` wakes `woken` if anyone sleeps. */
  predicate Signals(ws: seq<Worker>, ws': seq<Worker>, woken: nat) {
    if exists w :: 0 <= w < |ws| && ws[w].Sleeping?
    then woken < |ws| && ws[woken].Sleeping? && ws' == ws[woken := Looping]
    else ws' == ws
  }

  /** `blockif_request`: callers neither queue more after a pause nor after a close. */
  ghost predicate DoRequest(s: State, s': State, req: Req, op: Op, woken: nat) {
    && s.pauser.Resumed? && s.closing.Open? && Shape(s.c)
    && if s.c.freeq == [] then s' == s   // E2BIG
       else
         && s' == s.(c := Enqueued(s.c, req, op), workers := s'.workers)
         && if s'.c.elems[s.c.freeq[0]].status.Pend? then Signals(s.workers, s'.workers, woken) else s'.workers == s.workers
  }

  ghost predicate DoDequeue(s: State, s': State, w: nat, i: nat) {
    && w < |s.workers| && s.workers[w].Looping? && Shape(s.c) && FirstPend(s.c, i)
    && s' == SetWorker(s, w, Running(s.c.pendq[i])).(c := Dequeued(s.c, i))
  }

  /** `blockif_proc` ends: the element is done and the callback is made. */
  ghost predicate DoProc(s: State, s': State, w: nat) {
    && w < |s.workers| && s.workers[w].Running? && s.workers[w].slot < |s.c.elems|
    && var x := s.workers[w].slot;
    && s' == SetWorker(s, w, Returning(x)).(
               c := s.c.(elems := s.c.elems[x := s.c.elems[x].(status := Done)]),
               called := s.called + multiset{s.c.elems[x].order})
  }

  ghost predicate DoComplete(s: State, s': State, w: nat) {
    && w < |s.workers| && s.workers[w].Returning? && s.workers[w].slot < |s.c.elems|
    && s' == SetWorker(s, w, Looping).(c := Completed(s.c, s.workers[w].slot))
  }

  /** Nothing to run: tell a pauser if all is done, then leave or sleep. */
  ghost predicate DoIdle(s: State, s': State, w: nat) {
    && w < |s.workers| && s.workers[w].Looping? && Shape(s.c) && !HasPend(s.c.pendq, s.c.elems)
    && s' == SetWorker(s, w, if s.closing.Open? then Sleeping else Exited).(
               pauser := if Empty(s.c) && s.pauser.Waiting? then Signalled else s.pauser)
  }

  predicate DoSpurious(s: State, s': State, w: nat) {
    w < |s.workers| && s.workers[w].Sleeping? && s' == SetWorker(s, w, Looping)
  }

  /** `blockif_cancel`: a pending request is taken back, any other is left to finish. */
  ghost predicate DoCancel(s: State, s': State, id: int, i: nat) {
    && Shape(s.c)
    && if HasReq(s.c, id)
       then FirstReq(s.c, i, id) && s' == s.(c := Completed(s.c, s.c.pendq[i]), cancelled := s.cancelled + multiset{s.c.elems[s.c.pendq[i]].order})
       else s' == s
  }

  predicate DoPause(s: State, s': State) {
    && (s.pauser.Resumed? || s.pauser.Signalled?)
    && s' == s.(pauser := if Empty(s.c) then Paused else Waiting)
  }

  predicate DoResume(s: State, s': State) {
    s.pauser.Paused? && s' == s.(pauser := Resumed)
  }

  predicate DoMark(s: State, s': State) {
    s.closing.Open? && s' == s.(closing := Marked)
  }

  predicate DoAnnounce(s: State, s': State) {
    && s.closing.Marked?
    && s' == s.(closing := Announced,
                workers := seq(|s.workers|, w requires 0 <= w < |s.workers| => if s.workers[w].Sleeping? then Looping else s.workers[w]))
  }

  datatype Step =
    | RequestStep(req: Req, op: Op, woken: nat)
    | CancelStep(id: int, i: nat)
    | DequeueStep(w: nat, i: nat)
    | ProcStep(w: nat)
    | CompleteStep(w: nat)
    | IdleStep(w: nat)
    | SpuriousStep(w: nat)
    | PauseStep
    | ResumeStep
    | MarkStep
    | AnnounceStep

  ghost predicate NextStep(s: State, s': State, step: Step) {
    match step
    case RequestStep(req, op, woken) => DoRequest(s, s', req, op, woken)
    case CancelStep(id, i) => DoCancel(s, s', id, i)
    case DequeueStep(w, i) => DoDequeue(s, s', w, i)
    case ProcStep(w) => DoProc(s, s', w)
    case CompleteStep(w) => DoComplete(s, s', w)
    case IdleStep(w) => DoIdle(s, s', w)
    case SpuriousStep(w) => DoSpurious(s, s', w)
    case PauseStep => DoPause(s, s')
    case ResumeStep => DoResume(s, s')
    case MarkStep => DoMark(s, s')
    case AnnounceStep => DoAnnounce(s, s')
  }
}
