/** Every run of an adapter: sessions opened, resumed, forked and rolled back, and calls on any of them. */
module AdapterCalls {
  import opened Wrappers
  import opened HarnessSession
  import opened HarnessAdapter
  import opened SessionCalls

  datatype Step = On(session: nat, call: Call) | Opening(request: Request, cwd: string)

  /** The first `n` steps make no call on the k-th session. */
  predicate Spares(steps: seq<Step>, n: nat, k: nat) {
    forall i :: 0 <= i < n && i < |steps| ==> !(steps[i].On? && steps[i].session == k)
  }

  /** What a session shows: the turns it has stored and its outputs. */
  twostate predicate Spared(s: FakeHarnessSession)
    reads s, s.snapshot
  {
    s.snapshot.turns == old(s.snapshot.turns) && s.trace == old(s.trace)
  }

  method PerformOn(a: FakeHarnessAdapter, k: nat, call: Call)
    requires a.Valid() && k < |a.sessions|
    modifies a.sessions[k], a.sessions[k].channel, a.sessions[k].snapshot
    ensures a.Valid() && Onward(a.sessions[k])
    ensures forall j :: 0 <= j < |a.sessions| && j != k ==> Spared(a.sessions[j])
  {
    hide Registered, Onward;
    Perform(a.sessions[k], call);
    forall j | 0 <= j < |a.sessions| && j != k ensures Spared(a.sessions[j]) && a.sessions[j].Valid() {
      ApartByIndex(a.sessions, j, k);
      assert old(a.sessions[j].Valid());
    }
  }

  lemma ApartByIndex(sessions: seq<FakeHarnessSession>, j: nat, k: nat)
    requires Separate(sessions) && j < |sessions| && k < |sessions| && j != k
    ensures Apart(sessions[j], sessions[k])
  {
    if j < k {
      assert Apart(sessions[j], sessions[k]);
    } else {
      assert Apart(sessions[k], sessions[j]);
    }
  }

  /** In every run, whatever is called on other sessions, forked or rolled back from this one or not, a
      session that is not itself called keeps its stored turns and its outputs. A step on a session there
      is not does nothing. */
  method Run(a: FakeHarnessAdapter, steps: seq<Step>)
    requires a.Valid()
    modifies a, a.sessions, (set s | s in a.sessions :: s.channel), set s | s in a.sessions :: s.snapshot
    ensures a.Valid() && old(a.sessions) <= a.sessions
    ensures forall k :: 0 <= k < |old(a.sessions)| && Spares(steps, |steps|, k) ==> Spared(old(a.sessions)[k])
  {
    hide FakeHarnessAdapter.Valid, FakeHarnessSession.Valid, Onward, Registered;
    ghost var n := |a.sessions|;
    for i := 0 to |steps|
      invariant a.Valid() && old(a.sessions) <= a.sessions
      invariant forall k :: n <= k < |a.sessions| ==>
                  fresh(a.sessions[k]) && fresh(a.sessions[k].channel) && fresh(a.sessions[k].snapshot)
      invariant forall k :: 0 <= k < n && Spares(steps, i, k) ==> Spared(old(a.sessions)[k])
    {
      match steps[i] {
        case On(k, call) =>
          if k < |a.sessions| {
            PerformOn(a, k, call);
          }
        case Opening(request, cwd) =>
          var r := a.Open(request, cwd);
      }
    }
  }
}
