/** Registering a callback and the uevent thread that lives beside it (Usb.cpp:1365-1409). */
module CallbackThread {
  import opened Wrappers

  /** mCallback and destroyThread, and how many uevent threads have been created and joined, and how often
      pthread_kill has failed. */
  datatype Threads = Threads(callback: Option<nat>, destroy: bool, created: nat, joined: nat, failedKills: nat)

  /** A setCallback call with a callback, by number, or none; and how pthread_kill and pthread_create would
      end.  The signal's handler has set the flag by the time the thread can be joined. */
  datatype Call = Call(given: Option<nat>, killOk: bool, createOk: bool)

  /** What a call does to the threads, by what it finds and what it is given. */
  function Called(t: Threads, call: Call): Threads {
    match (t.callback, call.given)
    case (Some(_), None) =>
      if call.killOk then t.(callback := None, destroy := true, joined := t.joined + 1)
      else t.(callback := None, failedKills := t.failedKills + 1)
    case (None, Some(_)) =>
      if call.createOk then t.(callback := call.given, destroy := false, created := t.created + 1)
      else t.(destroy := false)
    case _ => t.(callback := call.given)
  }

  function AllCalled(t: Threads, calls: seq<Call>): Threads {
    if calls == [] then t else Called(AllCalled(t, calls[..|calls| - 1]), calls[|calls| - 1])
  }

  class Usb {
    var mCallback: Option<nat>
    var destroyThread: bool
    var created: nat
    var joined: nat
    var failedKills: nat

    constructor ()
      ensures State() == Threads(None, false, 0, 0, 0)
    {
      mCallback, destroyThread, created, joined, failedKills := None, false, 0, 0, 0;
    }

    function State(): Threads
      reads this
    {
      Threads(mCallback, destroyThread, created, joined, failedKills)
    }

    /** setCallback. */
    method SetCallback(in_callback: Option<nat>, killOk: bool, createOk: bool)
      modifies this
      ensures State() == Called(old(State()), Call(in_callback, killOk, createOk))
    {
      if (mCallback.None? && in_callback.None?) || (mCallback.Some? && in_callback.Some?) {
        mCallback := in_callback;
        return;
      }
      mCallback := in_callback;
      if mCallback.None? {
        if killOk {
          destroyThread := true;
          joined := joined + 1;
        } else {
          failedKills := failedKills + 1;
        }
        return;
      }
      destroyThread := false;
      if createOk {
        created := created + 1;
      } else {
        mCallback := None;
      }
    }
  }

  /** Threads not joined: one while a callback is registered, and one more for each kill that failed. */
  predicate Balanced(t: Threads) {
    t.created - t.joined == (if t.callback.Some? then 1 else 0) + t.failedKills
  }

  /** Over every sequence of calls, failed creations included. */
  lemma {:induction false} CallsBalance(t: Threads, calls: seq<Call>)
    requires Balanced(t)
    ensures Balanced(AllCalled(t, calls))
  {
    if calls != [] {
      CallsBalance(t, calls[..|calls| - 1]);
    }
  }

  /** A thread runs exactly while a callback is registered if and only if every kill that was made
      succeeded. */
  lemma {:induction false} OneThreadPerCallback(calls: seq<Call>)
    ensures var t := AllCalled(Threads(None, false, 0, 0, 0), calls);
            t.created - t.joined == (if t.callback.Some? then 1 else 0) <==>
            forall i :: 0 <= i < |calls| && Kills(calls, i) ==> calls[i].killOk
  {
    var start := Threads(None, false, 0, 0, 0);
    CallsBalance(start, calls);
    FailedKillsCounted(calls);
  }

  /** Call i takes a registered callback away. */
  predicate Kills(calls: seq<Call>, i: nat)
    requires i < |calls|
  {
    calls[i].given.None? && AllCalled(Threads(None, false, 0, 0, 0), calls[..i]).callback.Some?
  }

  lemma {:induction false} FailedKillsCounted(calls: seq<Call>)
    ensures AllCalled(Threads(None, false, 0, 0, 0), calls).failedKills == 0 <==>
            forall i :: 0 <= i < |calls| && Kills(calls, i) ==> calls[i].killOk
  {
    if calls != [] {
      var n := |calls| - 1;
      FailedKillsCounted(calls[..n]);
      assert forall i :: 0 <= i < n ==> calls[..n][..i] == calls[..i];
      assert forall i :: 0 <= i < n ==> (Kills(calls, i) <==> Kills(calls[..n], i));
      assert Kills(calls, n) ==> calls[n].given.None?;
    }
  }

  /** The registered callback, if there is one, is the one given last; there is none exactly when none was
      given last or the creation of its thread failed.  The destroy flag is raised exactly by a kill that
      succeeds, and lowered exactly by a callback given where there was none. */
  lemma LastCallback(t: Threads, calls: seq<Call>)
    requires calls != []
    ensures var last, before := calls[|calls| - 1], AllCalled(t, calls[..|calls| - 1]);
            var callback, destroy := AllCalled(t, calls).callback, AllCalled(t, calls).destroy;
            && (before.callback.Some? && last.given.None? ==> (destroy <==> before.destroy || last.killOk))
            && (before.callback.None? && last.given.Some? ==> !destroy)
            && (before.callback.Some? == last.given.Some? ==> destroy == before.destroy)
            && (callback.Some? ==> callback == last.given)
            && (callback.None? <==> last.given.None? || (before.callback.None? && !last.createOk))
  {
  }

  /** The thread of a registered callback never starts with a destroy flag
      left over from the one before it, nor finds it set while the callback stays. */
  lemma {:induction false} NoStaleDestroyFlag(calls: seq<Call>)
    ensures var t := AllCalled(Threads(None, false, 0, 0, 0), calls); t.callback.Some? ==> !t.destroy
  {
    if calls != [] {
      NoStaleDestroyFlag(calls[..|calls| - 1]);
    }
  }
}
