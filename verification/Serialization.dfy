/** Within a session a status lies between any two control attempts. */
module Serialization {
  import opened Protocol

  /** The last thing done with the device was a control attempt. */
  predicate JustAttempted(marks: seq<Mark>) {
    marks != [] && marks[|marks| - 1].Attempt?
  }

  predicate NoAdjacentAttempts(marks: seq<Mark>) {
    forall j | 0 < j < |marks| && marks[j].Attempt? :: !marks[j - 1].Attempt?
  }

  /** The worker is inside the loop of a session. */
  predicate InSession(place: Place) {
    place.InnerTop? || place.Polling? || place.CheckReconnect? || place.Observing? || place.StatusArrived? ||
    place.StatusStored? || place.Observed? || place.StopCheck? || place.Taking? || place.Calling? ||
    place.Called? || place.Answering?
  }

  /** While the last attempt has no status yet, the worker asks for one; and then it cannot
      get past the observation except to end the session. */
  ghost predicate Serialized(w: Worker, h: Shared) {
    && NoAdjacentAttempts(w.marks)
    && (w.place.Starting? || w.place.Connecting? || w.place.Calling? ==> !JustAttempted(w.marks))
    && (InSession(w.place) && JustAttempted(w.marks) ==> w.statusRequired)
    && (w.place.Observed? && w.statusRequired ==> h.stopping || h.reconnectRequested)
    && (w.place.StopCheck? && w.statusRequired ==> h.stopping)
    && (w.place.Taking? ==> !w.statusRequired)
    && (w.place.Calling? || w.place.Called? || w.place.Answering? ==> w.statusRequired)
  }

  predicate Marks(place: Place) {
    place.Opening? || place.Observing? || place.Calling?
  }

  lemma MarkKeepsSerialized(w: Worker, h: Shared, device: Device)
    requires Marks(w.place) && Serialized(w, h) && WorkerNext(w, h, device).Some?
    ensures Serialized(WorkerNext(w, h, device).value, WorkerEffect(w, h))
  {}

  lemma OtherStepMarksNothing(w: Worker, h: Shared, device: Device)
    requires !Marks(w.place) && WorkerNext(w, h, device).Some?
    ensures WorkerNext(w, h, device).value.marks == w.marks
  {}

  lemma WorkerKeepsSerialized(w: Worker, h: Shared, device: Device)
    requires Serialized(w, h) && WorkerNext(w, h, device).Some?
    ensures Serialized(WorkerNext(w, h, device).value, WorkerEffect(w, h))
  {
    if Marks(w.place) {
      MarkKeepsSerialized(w, h, device);
    } else {
      OtherStepMarksNothing(w, h, device);
    }
  }

  lemma MainKeepsSerialized(w: Worker, m: MainThread, h: Shared, request: Request)
    requires Serialized(w, h) && Possible(m, request)
    ensures Serialized(w, MainEffect(m, h, request))
  {}

  lemma {:induction false} SerializedForever(s: Server, actions: seq<Action>)
    requires Serialized(s.worker, s.shared) && Run(s, actions).Some?
    ensures Serialized(Run(s, actions).value.worker, Run(s, actions).value.shared)
    decreases |actions|
  {
    if actions != [] {
      match actions[0] {
        case Work(device) => WorkerKeepsSerialized(s.worker, s.shared, device);
        case Serve(request) => MainKeepsSerialized(s.worker, s.main, s.shared, request);
      }
      SerializedForever(Next(s, actions[0]).value, actions[1..]);
    }
  }

  // ----- Statuses with contents

  /** The device reports statuses with contents. */
  predicate WithContents(action: Action) {
    action.Work? && action.device.Reports? ==> action.device.data != map[]
  }

  predicate ContentsOnly(marks: seq<Mark>) {
    forall i | 0 <= i < |marks| && marks[i].StatusReceived? :: marks[i].contents
  }

  lemma {:induction false} ContentsForever(s: Server, actions: seq<Action>)
    requires ContentsOnly(s.worker.marks) && Run(s, actions).Some?
    requires forall i | 0 <= i < |actions| :: WithContents(actions[i])
    ensures ContentsOnly(Run(s, actions).value.worker.marks)
    decreases |actions|
  {
    if actions != [] {
      if actions[0].Work? && !Marks(s.worker.place) {
        OtherStepMarksNothing(s.worker, s.shared, actions[0].device);
      }
      ContentsForever(Next(s, actions[0]).value, actions[1..]);
    }
  }

  /** In every interleaving of the two threads, two control attempts of the same session
      are separated by at least one status callback. */
  lemma StatusBetweenAttempts(actions: seq<Action>)
    requires Run(INITIAL, actions).Some?
    ensures var marks := Run(INITIAL, actions).value.worker.marks;
            forall i, j | 0 <= i < j < |marks| && marks[i].Attempt? && marks[j].Attempt? &&
                          (forall k | i < k < j :: !marks[k].SessionOpened?) ::
              exists k :: i < k < j && marks[k].StatusReceived?
  {
    SerializedForever(INITIAL, actions);
    var marks := Run(INITIAL, actions).value.worker.marks;
    forall i, j | 0 <= i < j < |marks| && marks[i].Attempt? && marks[j].Attempt? &&
                  (forall k | i < k < j :: !marks[k].SessionOpened?)
      ensures exists k :: i < k < j && marks[k].StatusReceived?
    {
      assert !marks[j - 1].Attempt?;
      assert i < j - 1 && marks[j - 1].StatusReceived?;
    }
  }
}
