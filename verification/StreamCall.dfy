/** The asynchronous model stream: one call object driven by completion-queue events. */
module StreamCall {

  datatype Event = START | REQUEST | WRITE | ALARM | FINISH | DONE

  datatype Status = Create | Process | Stream | Finish

  /** What the handler sees when an event is delivered: the checks on the request, the latest model, the crypto
      results. */
  datatype View = View(idsValid: bool, authenticated: bool, registered: bool,
                       latestRound: int, latestEmpty: bool, kemOk: bool, encryptOk: bool)

  /** The call object, plus the tags in the completion queue, the rounds written and whether it was deleted. */
  datatype Call = Call(status: Status, lastSentRound: int,
                       doneNotifyInFlight: bool, doneReceived: bool,
                       writeInFlight: bool, alarmInFlight: bool, finishInFlight: bool,
                       spawned: nat, deleted: bool, tags: set<Event>, written: seq<int>)

  const FRESH := Call(Create, -1, false, false, false, false, false, 0, false, {}, [])

  function MaybeDelete(c: Call): Call {
    if c.writeInFlight || c.alarmInFlight || c.finishInFlight || c.doneNotifyInFlight then c
    else if c.doneReceived || c.status == Finish then c.(deleted := true)
    else c
  }

  function FinishWithStatus(c: Call): Call {
    c.(status := Finish, finishInFlight := true, tags := c.tags + {FINISH})
  }

  function RequestDoneNotification(c: Call): Call {
    if c.doneNotifyInFlight then c else c.(doneNotifyInFlight := true, tags := c.tags + {DONE})
  }

  /** Wait a second, refuse, or write the latest model. */
  function StreamLatest(c: Call, lastReceived: int, v: View): Call {
    if v.latestRound == -1 || v.latestEmpty || v.latestRound == c.lastSentRound || v.latestRound <= lastReceived then
      if c.doneReceived then MaybeDelete(c)
      else c.(alarmInFlight := true, tags := c.tags + {ALARM})
    else
      var sent := c.(lastSentRound := v.latestRound);
      if !v.kemOk || !v.encryptOk then FinishWithStatus(sent)
      else sent.(writeInFlight := true, tags := c.tags + {WRITE}, written := c.written + [v.latestRound])
  }

  function PostRequest(c: Call): Call {
    var waiting := RequestDoneNotification(c.(status := Process));
    waiting.(tags := waiting.tags + {REQUEST})
  }

  /** Spawn the next listener, then refuse the request or start streaming. */
  function Admit(c: Call, lastReceived: int, v: View): Call {
    var next := c.(spawned := c.spawned + 1);
    if !v.idsValid || !v.authenticated || !v.registered then FinishWithStatus(next)
    else StreamLatest(next.(status := Stream), lastReceived, v)
  }

  /** By status: post the request, admit or refuse it, go on streaming. */
  function Advance(c: Call, lastReceived: int, v: View): Call {
    match c.status
    case Create => PostRequest(c)
    case Process => Admit(c, lastReceived, v)
    case Stream => StreamLatest(c, lastReceived, v)
    case Finish => c.(deleted := true)
  }

  /** The body of the handler once an event has been taken off the queue. */
  function Handle(c: Call, lastReceived: int, ok: bool, event: Event, v: View): Call {
    if event == FINISH then MaybeDelete(c.(finishInFlight := false))
    else if event == DONE then MaybeDelete(c.(doneNotifyInFlight := false, doneReceived := true))
    else
      var d := if event == WRITE then c.(writeInFlight := false)
               else if event == ALARM then c.(alarmInFlight := false) else c;
      if (event == WRITE || event == ALARM) && (!ok || d.doneReceived) then MaybeDelete(d)
      else if !ok then d.(deleted := true)
      else Advance(d, lastReceived, v)
  }

  /** What the queue may deliver: a tag that was handed out; DONE only after the call has started. */
  ghost predicate Deliverable(c: Call, event: Event) {
    event in c.tags && (event == DONE ==> REQUEST !in c.tags)
  }

  /** Delivery takes the tag off the queue; a request that never started has no DONE to come. */
  function Delivered(c: Call, ok: bool, event: Event): Call {
    c.(tags := c.tags - {event} - (if event == REQUEST && !ok then {DONE} else {}))
  }

  function Step(c: Call, lastReceived: int, ok: bool, event: Event, v: View): Call {
    Handle(Delivered(c, ok, event), lastReceived, ok, event, v)
  }

  function Start(lastReceived: int, v: View): Call {
    Handle(FRESH, lastReceived, true, START, v)
  }

  /** The flags of a live object mirror the tags that are out. */
  ghost predicate FlagsMatch(c: Call) {
    && (c.writeInFlight <==> WRITE in c.tags)
    && (c.alarmInFlight <==> ALARM in c.tags)
    && (c.finishInFlight <==> FINISH in c.tags)
    && (c.doneNotifyInFlight <==> DONE in c.tags)
    && (c.doneReceived <==> DONE !in c.tags)
  }

  /** At most one operation of the stream itself is ever in flight. */
  ghost predicate OneInFlight(c: Call) {
    !(c.writeInFlight && c.alarmInFlight) && !(c.writeInFlight && c.finishInFlight)
      && !(c.alarmInFlight && c.finishInFlight)
  }

  /** The object as it is between two events. */
  ghost predicate Inv(c: Call) {
    && (c.deleted <==> c.tags == {})
    && START !in c.tags
    && c.status != Create
    && (!c.deleted ==>
      && FlagsMatch(c) && OneInFlight(c)
      && (REQUEST in c.tags <==> c.status == Process)
      && (c.spawned == if c.status == Process then 0 else 1)
      && (c.status == Process ==> c.tags == {REQUEST, DONE})
      && (c.status == Finish ==> !c.writeInFlight && !c.alarmInFlight))
  }

  lemma StartEstablishes(lastReceived: int, v: View)
    ensures Inv(Start(lastReceived, v)) && Start(lastReceived, v).tags == {REQUEST, DONE}
  {
  }

  /** Besides the event being handled, only DONE can still be out. */
  lemma OnlyDoneLeft(c: Call, event: Event)
    requires Inv(c) && Deliverable(c, event)
    ensures !c.deleted
    ensures event != DONE ==> c.tags - {event} <= {DONE}
  {
    forall e | event != DONE && e in c.tags - {event} ensures e == DONE {
      assert e == REQUEST || e == WRITE || e == ALARM || e == FINISH || e == DONE;
    }
  }

  /** Streaming on from an object with nothing of its own in flight. */
  lemma StreamLatestInv(d: Call, lastReceived: int, v: View)
    requires d.tags <= {DONE} && d.status == Stream && d.spawned == 1 && !d.deleted
    requires FlagsMatch(d) && !d.doneReceived
    ensures Inv(StreamLatest(d, lastReceived, v))
  {
    assert DONE in StreamLatest(d, lastReceived, v).tags;
  }

  lemma TerminalInv(d: Call)
    requires d.status == Stream || d.status == Finish
    requires FlagsMatch(d) && OneInFlight(d) && !d.deleted && d.spawned == 1
    requires d.tags <= {WRITE, ALARM, FINISH, DONE}
    requires d.status == Finish ==> !d.writeInFlight && !d.alarmInFlight
    ensures Inv(MaybeDelete(d))
  {
    var r := MaybeDelete(d);
    if d.tags == {} {
      assert r.deleted;
    } else {
      var e :| e in d.tags;
      assert e == WRITE || e == ALARM || e == FINISH || e == DONE;
    }
  }

  /** Every delivery keeps the invariant: the object is deleted exactly when no tag is left. */
  lemma StepKeepsInv(c: Call, lastReceived: int, ok: bool, event: Event, v: View)
    requires Inv(c) && Deliverable(c, event)
    ensures Inv(Step(c, lastReceived, ok, event, v))
  {
    OnlyDoneLeft(c, event);
    var d := Delivered(c, ok, event);
    if event == REQUEST {
      RequestKeepsInv(c, lastReceived, ok, v);
    } else if event == DONE {
      DoneKeepsInv(c, lastReceived, ok, v);
    } else if event == FINISH {
      TerminalInv(d.(finishInFlight := false));
    } else if event == WRITE {
      ResumeKeepsInv(d.(writeInFlight := false), lastReceived, ok, v);
    } else {
      ResumeKeepsInv(d.(alarmInFlight := false), lastReceived, ok, v);
    }
  }

  lemma RequestKeepsInv(c: Call, lastReceived: int, ok: bool, v: View)
    requires Inv(c) && Deliverable(c, REQUEST)
    ensures Inv(Step(c, lastReceived, ok, REQUEST, v))
  {
    var d := Delivered(c, ok, REQUEST);
    if ok {
      assert d.tags == {DONE};
      StreamLatestInv(d.(spawned := 1, status := Stream), lastReceived, v);
    } else {
      assert d.tags == {};
    }
  }

  lemma DoneKeepsInv(c: Call, lastReceived: int, ok: bool, v: View)
    requires Inv(c) && Deliverable(c, DONE)
    ensures Inv(Step(c, lastReceived, ok, DONE, v))
  {
    forall e | e in c.tags - {DONE} ensures e in {WRITE, ALARM, FINISH} {
      assert e == REQUEST || e == WRITE || e == ALARM || e == FINISH || e == DONE;
    }
    TerminalInv(Delivered(c, ok, DONE).(doneNotifyInFlight := false, doneReceived := true));
  }

  lemma ResumeKeepsInv(d: Call, lastReceived: int, ok: bool, v: View)
    requires d.tags <= {DONE} && d.status == Stream && d.spawned == 1 && !d.deleted && FlagsMatch(d)
    ensures !ok || d.doneReceived ==> Inv(MaybeDelete(d))
    ensures ok && !d.doneReceived ==> Inv(StreamLatest(d, lastReceived, v))
  {
    if ok && !d.doneReceived {
      StreamLatestInv(d, lastReceived, v);
    } else {
      TerminalInv(d);
    }
  }

  /** Once the client is gone every further event only drains the queue. */
  lemma NothingStartsAfterDone(c: Call, lastReceived: int, ok: bool, event: Event, v: View)
    requires Inv(c) && Deliverable(c, event) && (c.doneReceived || event == DONE)
    ensures Step(c, lastReceived, ok, event, v).tags < c.tags
    ensures Step(c, lastReceived, ok, event, v).written == c.written
  {
    OnlyDoneLeft(c, event);
  }

  // ----- Whole lives -----

  datatype Delivery = Delivery(event: Event, ok: bool, view: View)

  ghost function Life(lastReceived: int, first: View, ds: seq<Delivery>): Call {
    if |ds| == 0 then Start(lastReceived, first)
    else
      var d := ds[|ds| - 1];
      Step(Life(lastReceived, first, ds[..|ds| - 1]), lastReceived, d.ok, d.event, d.view)
  }

  ghost predicate Possible(lastReceived: int, first: View, ds: seq<Delivery>) {
    forall i :: 0 <= i < |ds| ==> Deliverable(Life(lastReceived, first, ds[..i]), ds[i].event)
  }

  /** Rounds written so far: all above what the client had, no two neighbours equal, the last one remembered. */
  ghost predicate WritesOk(c: Call, lastReceived: int) {
    && (forall i :: 0 <= i < |c.written| ==> c.written[i] > lastReceived && c.written[i] != -1)
    && (forall i :: 0 < i < |c.written| ==> c.written[i - 1] != c.written[i])
    && (|c.written| > 0 && c.status != Finish && !c.deleted ==> c.lastSentRound == c.written[|c.written| - 1])
    && (c.status == Process ==> c.written == [])
    && (c.written == [] && c.status != Finish && !c.deleted ==> c.lastSentRound == -1)
  }

  lemma PrefixPossible(lastReceived: int, first: View, ds: seq<Delivery>)
    requires Possible(lastReceived, first, ds) && |ds| > 0
    ensures Possible(lastReceived, first, ds[..|ds| - 1])
  {
    var p := ds[..|ds| - 1];
    forall i | 0 <= i < |p| ensures Deliverable(Life(lastReceived, first, p[..i]), p[i].event) {
      assert p[..i] == ds[..i];
    }
  }

  /** In every possible life the object is deleted exactly when its last tag has come back. */
  lemma {:induction false} LifeIsSafe(lastReceived: int, first: View, ds: seq<Delivery>)
    requires Possible(lastReceived, first, ds)
    ensures Inv(Life(lastReceived, first, ds))
    ensures WritesOk(Life(lastReceived, first, ds), lastReceived)
  {
    if |ds| == 0 {
      StartEstablishes(lastReceived, first);
    } else {
      var d := ds[|ds| - 1];
      PrefixPossible(lastReceived, first, ds);
      LifeIsSafe(lastReceived, first, ds[..|ds| - 1]);
      var c := Life(lastReceived, first, ds[..|ds| - 1]);
      StepKeepsInv(c, lastReceived, d.ok, d.event, d.view);
      OnlyDoneLeft(c, d.event);
      StepKeepsWrites(c, lastReceived, d.ok, d.event, d.view);
    }
  }

  lemma StreamLatestWrites(d: Call, lastReceived: int, v: View)
    requires d.status == Stream && !d.deleted && WritesOk(d, lastReceived)
    ensures WritesOk(StreamLatest(d, lastReceived, v), lastReceived)
  {
  }

  /** An object taken off its stream keeps what it wrote. */
  lemma TerminalWrites(d: Call, lastReceived: int)
    requires WritesOk(d, lastReceived)
    ensures WritesOk(MaybeDelete(d), lastReceived)
  {
  }

  /** Flags, tags and spawned listeners do not matter to what was written. */
  lemma SameWrites(c: Call, d: Call, lastReceived: int)
    requires WritesOk(c, lastReceived) && d.written == c.written && d.lastSentRound == c.lastSentRound
    requires d.status == c.status || (c.status == Process && d.status == Stream)
    requires d.deleted || !c.deleted
    ensures WritesOk(d, lastReceived)
  {
  }

  lemma StepKeepsWrites(c: Call, lastReceived: int, ok: bool, event: Event, v: View)
    requires Inv(c) && Deliverable(c, event) && WritesOk(c, lastReceived)
    ensures WritesOk(Step(c, lastReceived, ok, event, v), lastReceived)
  {
    var d := Delivered(c, ok, event);
    assert !c.deleted && event != START && c.status != Create;
    assert event == REQUEST <==> c.status == Process;
    assert (event == WRITE || event == ALARM) ==> c.status == Stream;
    hide Inv, Deliverable, WritesOk;
    if event == WRITE || event == ALARM {
      var e := if event == WRITE then d.(writeInFlight := false) else d.(alarmInFlight := false);
      SameWrites(c, e, lastReceived);
      StreamLatestWrites(e, lastReceived, v);
      TerminalWrites(e, lastReceived);
      hide StreamLatest, MaybeDelete;
    } else if event == REQUEST {
      var e := d.(spawned := d.spawned + 1, status := Stream);
      SameWrites(c, e, lastReceived);
      SameWrites(c, d.(deleted := true), lastReceived);
      StreamLatestWrites(e, lastReceived, v);
      RefusedWrites(c, FinishWithStatus(d.(spawned := d.spawned + 1)), lastReceived);
      hide StreamLatest, MaybeDelete;
    } else {
      var e := if event == FINISH then d.(finishInFlight := false)
        else d.(doneNotifyInFlight := false, doneReceived := true);
      SameWrites(c, e, lastReceived);
      TerminalWrites(e, lastReceived);
      hide StreamLatest, MaybeDelete;
    }
  }

  lemma RefusedWrites(c: Call, d: Call, lastReceived: int)
    requires WritesOk(c, lastReceived) && d.written == c.written && d.status == Finish
    ensures WritesOk(d, lastReceived)
  {
  }

  /** The request started, and its identifiers, its sender and its registration are in order. */
  ghost predicate Admits(d: Delivery) {
    d.event == REQUEST && d.ok && d.view.idsValid && d.view.authenticated && d.view.registered
  }

  ghost predicate Untouched(c: Call) {
    c.written == [] && c.status != Stream && !c.writeInFlight && !c.alarmInFlight
  }

  ghost predicate SomeAdmitted(ds: seq<Delivery>) {
    exists i :: 0 <= i < |ds| && Admits(ds[i])
  }

  /** Only a request that was admitted is ever streamed to, let alone written to. */
  lemma {:induction false} OnlyAdmittedWritten(lastReceived: int, first: View, ds: seq<Delivery>)
    requires Possible(lastReceived, first, ds)
    ensures Untouched(Life(lastReceived, first, ds)) || SomeAdmitted(ds)
  {
    if |ds| > 0 {
      hide Step, Inv, Untouched, Admits, Possible, WritesOk;
      var p, d := ds[..|ds| - 1], ds[|ds| - 1];
      PrefixPossible(lastReceived, first, ds);
      OnlyAdmittedWritten(lastReceived, first, p);
      LifeIsSafe(lastReceived, first, p);
      LastDeliverable(lastReceived, first, ds);
      if Untouched(Life(lastReceived, first, p)) && !Admits(d) {
        NotAdmittedWritesNothing(Life(lastReceived, first, p), lastReceived, d);
      }
    }
  }

  lemma LastDeliverable(lastReceived: int, first: View, ds: seq<Delivery>)
    requires Possible(lastReceived, first, ds) && |ds| > 0
    ensures Deliverable(Life(lastReceived, first, ds[..|ds| - 1]), ds[|ds| - 1].event)
  {
  }

  lemma NotAdmittedWritesNothing(c: Call, lastReceived: int, d: Delivery)
    requires Inv(c) && Deliverable(c, d.event) && !Admits(d) && Untouched(c)
    ensures Untouched(Step(c, lastReceived, d.ok, d.event, d.view))
  {
  }

  /** While the client is there, a request that is not in order is finished; a model newer than what the client had, and
      not the one written last, is written, or finishes the call if it cannot be encrypted; and if there is none it is
      looked for again later. Otherwise nothing new is started. */
  ghost predicate Answered(c: Call, r: Call, lastReceived: int, d: Delivery) {
    var v, left := d.view, c.tags - {d.event};
    var asked := d.ok && DONE in c.tags && (d.event == REQUEST || d.event == WRITE || d.event == ALARM);
    var refused := d.event == REQUEST && !(v.idsValid && v.authenticated && v.registered);
    var newer := v.latestRound != -1 && !v.latestEmpty && v.latestRound > lastReceived
      && (c.written == [] || v.latestRound != c.written[|c.written| - 1]);
    && (asked && refused ==> r.tags == left + {FINISH} && r.written == c.written)
    && (asked && !refused && newer && v.kemOk && v.encryptOk ==>
          r.tags == left + {WRITE} && r.written == c.written + [v.latestRound])
    && (asked && !refused && newer && !(v.kemOk && v.encryptOk) ==> r.tags == left + {FINISH} && r.written == c.written)
    && (asked && !refused && !newer ==> r.tags == left + {ALARM} && r.written == c.written)
    && (!asked ==> r.tags <= left && r.written == c.written)
  }

  lemma StepAnswers(c: Call, lastReceived: int, d: Delivery)
    requires Inv(c) && WritesOk(c, lastReceived) && Deliverable(c, d.event)
    ensures Answered(c, Step(c, lastReceived, d.ok, d.event, d.view), lastReceived, d)
  {
  }

  /** So the call answers every event, at any point of any life. */
  lemma StreamAnswers(lastReceived: int, first: View, ds: seq<Delivery>, d: Delivery)
    requires Possible(lastReceived, first, ds) && Deliverable(Life(lastReceived, first, ds), d.event)
    ensures Answered(Life(lastReceived, first, ds), Life(lastReceived, first, ds + [d]), lastReceived, d)
  {
    LifeIsSafe(lastReceived, first, ds);
    assert (ds + [d])[..|ds|] == ds;
    hide Step, Start, Inv, WritesOk, Answered, Possible;
    StepAnswers(Life(lastReceived, first, ds), lastReceived, d);
  }

  /** No event is possible after deletion, so it is never deleted a second time or used again. */
  lemma DeletedIsFinal(lastReceived: int, first: View, ds: seq<Delivery>, k: nat)
    requires Possible(lastReceived, first, ds) && k <= |ds|
    requires Life(lastReceived, first, ds[..k]).deleted
    ensures k == |ds|
  {
    if k < |ds| {
      var p := ds[..k];
      forall i | 0 <= i < |p| ensures Deliverable(Life(lastReceived, first, p[..i]), p[i].event) {
        assert p[..i] == ds[..i];
      }
      LifeIsSafe(lastReceived, first, p);
      assert false;
    }
  }

  /** After the client is gone, at most one more event can be delivered before the object is deleted. */
  lemma DoneDrains(c: Call, lastReceived: int, ok: bool, event: Event, v: View)
    requires Inv(c) && c.doneReceived && Deliverable(c, event)
    ensures Step(c, lastReceived, ok, event, v).deleted
  {
    OnlyDoneLeft(c, event);
    assert DONE !in c.tags;
    assert c.tags - {event} == {};
    assert c.tags == {event};
    StepKeepsInv(c, lastReceived, ok, event, v);
    NothingStartsAfterDone(c, lastReceived, ok, event, v);
  }

  // ----- The object itself -----

  class StreamGlobalModelCall {
    const lastReceivedRound: int
    var status: Status
    var lastSentRound: int
    var doneNotifyInFlight: bool
    var doneReceived: bool
    var writeInFlight: bool
    var alarmInFlight: bool
    var finishInFlight: bool
    var spawned: nat
    ghost var deleted: bool
    ghost var tags: set<Event>
    ghost var written: seq<int>

    ghost function State(): Call
      reads this
    {
      Call(status, lastSentRound, doneNotifyInFlight, doneReceived, writeInFlight, alarmInFlight, finishInFlight,
           spawned, deleted, tags, written)
    }

    constructor (lastReceivedRound: int, view: View)
      ensures this.lastReceivedRound == lastReceivedRound
      ensures State() == Start(lastReceivedRound, view)
      ensures Inv(State())
    {
      this.lastReceivedRound := lastReceivedRound;
      status, lastSentRound, spawned := Create, -1, 0;
      doneNotifyInFlight, doneReceived := false, false;
      writeInFlight, alarmInFlight, finishInFlight := false, false, false;
      deleted, tags, written := false, {}, [];
      new;
      Proceed(true, START, view);
      StartEstablishes(lastReceivedRound, view);
    }

    /** An event comes off the completion queue. */
    method Deliver(ok: bool, event: Event, view: View)
      requires Inv(State()) && Deliverable(State(), event)
      modifies this
      ensures State() == Step(old(State()), lastReceivedRound, ok, event, view)
      ensures Inv(State())
    {
      StepKeepsInv(State(), lastReceivedRound, ok, event, view);
      tags := tags - {event} - (if event == REQUEST && !ok then {DONE} else {});
      Proceed(ok, event, view);
    }

    method Proceed(ok: bool, event: Event, view: View)
      modifies this
      ensures State() == Handle(old(State()), lastReceivedRound, ok, event, view)
    {
      hide Advance, MaybeDelete;
      if event == FINISH {
        finishInFlight := false;
        MaybeDeleteAfterTerminalEvent();
        return;
      }
      if event == DONE {
        doneNotifyInFlight := false;
        doneReceived := true;
        MaybeDeleteAfterTerminalEvent();
        return;
      }
      if event == WRITE {
        writeInFlight := false;
        if !ok || doneReceived {
          MaybeDeleteAfterTerminalEvent();
          return;
        }
      }
      if event == ALARM {
        alarmInFlight := false;
        if !ok || doneReceived {
          MaybeDeleteAfterTerminalEvent();
          return;
        }
      }
      if !ok {
        deleted := true;
        return;
      }
      AdvanceStatus(view);
    }

    method AdvanceStatus(view: View)
      modifies this
      ensures State() == Advance(old(State()), lastReceivedRound, view)
    {
      if status == Create {
        PostListener();
      } else if status == Process {
        AdmitRequest(view);
      } else if status == Stream {
        SendLatest(view);
      } else {
        deleted := true;
      }
    }

    method PostListener()
      modifies this
      ensures State() == PostRequest(old(State()))
    {
      status := Process;
      RequestDone();
      tags := tags + {REQUEST};
    }

    method AdmitRequest(view: View)
      modifies this
      ensures State() == Admit(old(State()), lastReceivedRound, view)
    {
      hide StreamLatest;
      spawned := spawned + 1;
      if !view.idsValid || !view.authenticated || !view.registered {
        FinishCall();
        return;
      }
      status := Stream;
      SendLatest(view);
    }

    method SendLatest(view: View)
      modifies this
      ensures State() == StreamLatest(old(State()), lastReceivedRound, view)
    {
      if view.latestRound == -1 || view.latestEmpty || view.latestRound == lastSentRound
         || view.latestRound <= lastReceivedRound {
        if doneReceived {
          MaybeDeleteAfterTerminalEvent();
          return;
        }
        alarmInFlight := true;
        tags := tags + {ALARM};
        return;
      }
      lastSentRound := view.latestRound;
      if !view.kemOk || !view.encryptOk {
        FinishCall();
        return;
      }
      writeInFlight := true;
      tags, written := tags + {WRITE}, written + [view.latestRound];
    }

    method FinishCall()
      modifies this
      ensures State() == FinishWithStatus(old(State()))
    {
      status := Finish;
      finishInFlight := true;
      tags := tags + {FINISH};
    }

    method RequestDone()
      modifies this
      ensures State() == RequestDoneNotification(old(State()))
    {
      if !doneNotifyInFlight {
        doneNotifyInFlight := true;
        tags := tags + {DONE};
      }
    }

    method MaybeDeleteAfterTerminalEvent()
      modifies this
      ensures State() == MaybeDelete(old(State()))
    {
      if writeInFlight || alarmInFlight || finishInFlight || doneNotifyInFlight {
        return;
      }
      if doneReceived || status == Finish {
        deleted := true;
      }
    }
  }
}
