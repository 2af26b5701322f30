/**
 The commit bridge as an object (internal/twopass/bridge.go).
 */
module Bridges {
  import opened Domain
  import opened Ledger
  import opened Coordination
  import opened Interleaving
  import opened TwoPass
  import opened Coordinators

  class CommitBridge {
    const cycles: Coordinator
    const others: Callers
    var direction: Direction
    var outcomes: map<string, Outcome>
    var evidence: map<string, seq<Camera>>

    function State(): Bridge
      reads this
    {
      Bridge(direction, outcomes, evidence)
    }

    /** Bridge and other callers share one coordinator. */
    predicate Shares() {
      others.cycles == cycles
    }

    /** The store and everybody else at work on it. */
    ghost function Shop(): Shop
      reads others, others.cycles.store
    {
      others.Shop()
    }

    constructor (cycles: Coordinator, others: Callers)
      ensures this.cycles == cycles && this.others == others && State() == Bridge(NoDirection, map[], map[])
    {
      this.cycles, this.others, direction, outcomes, evidence := cycles, others, NoDirection, map[], map[];
    }

    method SetDirection(d: Direction)
      modifies this
      ensures State() == old(State()).(direction := d)
    {
      direction := d;
    }

    method AddEvidence(txID: string, c: Camera) returns (ok: bool)
      modifies this
      ensures ok == (txID != "" && c.cameraID != "" && c.imageRef != "")
      ensures State() == if ok then old(State()).(evidence := old(evidence)[txID := EvidenceOf(old(State()), txID) + [c]]) else old(State())
    {
      if txID == "" || c.cameraID == "" || c.imageRef == "" { return false; }
      evidence := evidence[txID := Evidence(txID) + [c]];
      ok := true;
    }

    function Evidence(txID: string): seq<Camera>
      reads this
    {
      if txID in evidence then evidence[txID] else []
    }

    /** Turns an accepted weight into a first or a second pass, and remembers what became of it. */
    method Commit(t: PassTicket, o: Outside, ghost set_: Settings) returns (ok: bool)
      requires Shares() && set_.u == cycles.store.u && set_.policy == cycles.policy
      modifies this, others, cycles.store
      ensures Committed(State(), Shop(), ok) == TwoPass.Commit(set_, o, old(State()), old(Shop()), t)
    {
      hide BeginSecond, EndSecond, Interleaving.Run, Coordination.RecordFirstPass;
      if direction == NoDirection { return false; }
      var pass := WeighPass(t.id, "", 0, direction, t.station, t.plate, t.rfid, t.weight, t.mode, t.overrides,
                            Evidence(t.txID), t.committedAt);
      var out := Outcome(direction, None, None, false);
      if direction == AToB {
        var cycle := cycles.RecordFirstPass(pass, DrawFor(o), o.disk);
        out := out.(cycle := cycle, failed := cycle.None?);
      } else {
        var cycle, ticket, err := cycles.RecordSecondPass(pass, DrawFor(o), o.diskFind, o.disk, others, o.between);
        out := out.(cycle := cycle, ticket := ticket, failed := err.Some?);
      }
      outcomes := outcomes[t.txID := out];
      ok := !out.failed;
    }

    /** Forgets a transaction, and the direction with it. */
    method Reset(txID: string)
      modifies this
      ensures var b := old(State());
              State() == Bridge(NoDirection, if txID == "" then b.outcomes else b.outcomes - {txID},
                                if txID == "" then b.evidence else b.evidence - {txID})
    {
      if txID != "" {
        outcomes := outcomes - {txID};
        evidence := evidence - {txID};
      }
      direction := NoDirection;
    }
  }
}
