/** What had to happen before a conditional mutation of the repair loop is dispatched. */
module RepairAuthority {
  import opened Wrappers
  import opened RepairLoop

  /** Somebody granted the mission authority. */
  ghost predicate Granted(events: seq<Event>) { exists i :: 0 <= i < |events| && events[i].Authorizes? }

  lemma StepGrants(w: World, e: Event)
    requires Next(w, e).loop.authority
    ensures w.loop.authority || e.Authorizes?
  {
  }

  lemma {:induction false} AuthorityGranted(l: Loop, events: seq<Event>)
    requires !l.authority && Ran(l, events).loop.authority
    ensures Granted(events)
  {
    if events != [] {
      var n := |events| - 1;
      StepGrants(Ran(l, events[..n]), events[n]);
      if !events[n].Authorizes? {
        AuthorityGranted(l, events[..n]);
        var i :| 0 <= i < n && events[..n][i].Authorizes?;
        assert events[i].Authorizes?;
      }
    }
  }

  /** Event `j` put the pending proposal forward: it was exact and validated, and either the gateway asked for authority
      or the mission had been granted it before. */
  ghost predicate PutForward(events: seq<Event>, j: nat, loop: Loop)
    requires loop.pending.Some?
  {
    && j < |events| && events[j].Proposes? && events[j].proposal == loop.pending.value
    && loop.pending.value.exact && loop.pending.value.number == |loop.attempts| + 1 && events[j].proposed.Success?
    && (loop.state.AuthorityRequired? ==> events[j].requested.NeedsAuthority?)
    && (loop.state.MissionAuthorityReady? ==> Granted(events[..j]))
  }

  /** A step either puts the pending proposal forward or leaves it, the attempts and the state as they were. */
  lemma StepProposes(w: World, e: Event)
    requires Inv(w) && Next(w, e).loop.pending.Some?
    ensures var before, after := w.loop, Next(w, e).loop;
            || (&& e.Proposes? && after.pending == Some(e.proposal) && e.proposal.exact && e.proposed.Success?
                && e.proposal.number == |after.attempts| + 1
                && (after.state.AuthorityRequired? ==> e.requested.NeedsAuthority?)
                && (after.state.MissionAuthorityReady? ==> before.authority))
            || (after.pending == before.pending && after.attempts == before.attempts && after.state == before.state)
  {
  }

  lemma {:induction false} PendingPutForward(l: Loop, targets: seq<string>, ceiling: nat, events: seq<Event>)
    returns (j: nat)
    requires Create(targets, ceiling) == Some(l) && Ran(l, events).loop.pending.Some?
    ensures PutForward(events, j, Ran(l, events).loop)
  {
    var n := |events| - 1;
    var w := Ran(l, events[..n]);
    RunKeeps(l, targets, ceiling, events[..n]);
    StepProposes(w, events[n]);
    var after := Ran(l, events).loop;
    if after.pending == w.loop.pending && after.attempts == w.loop.attempts && after.state == w.loop.state {
      j := PendingPutForward(l, targets, ceiling, events[..n]);
      assert events[..n][j] == events[j] && events[..n][..j] == events[..j];
    } else {
      j := n;
      if after.state.MissionAuthorityReady? { AuthorityGranted(l, events[..n]); }
    }
  }

  /** No conditional mutation is dispatched without its authority: whenever a call may dispatch, the pending proposal
      was put forward before, bound to the evidence and validated by the gateway; and either the gateway asked for
      authority and a human approved that very proposal, or the mission had been granted its authority before. */
  lemma DispatchWarranted(l: Loop, targets: seq<string>, ceiling: nat, events: seq<Event>, approved: Option<string>)
    returns (j: nat)
    requires Create(targets, ceiling) == Some(l) && Admitted(Ran(l, events), approved)
    ensures j < |events| && events[j].Proposes? && events[j].proposal.exact && events[j].proposed.Success?
    ensures Ran(l, events).loop.pending == Some(events[j].proposal)
    ensures if approved.Some?
            then events[j].requested.NeedsAuthority? && approved.value == events[j].proposal.fingerprint
            else Granted(events[..j])
  {
    j := PendingPutForward(l, targets, ceiling, events);
  }
}
