/** The ingress route to the send fence, given what its assessment decided. */
module IngressReservation {
  import opened Wrappers
  import opened Identifiers
  import opened ControlRows
  import opened TurnControls

  /** The precaution target, the revision of a due assessment, and the clocks read after assessing. */
  datatype Ingress = Ingress(target: bool, due: Option<nat>, laterWall: Wall, laterMono: real)

  predicate PendingStop(hub: Hub, job: JobId) {
    exists s :: s in hub.stops && StopCovers(hub, s, job)
  }

  function SourceOf(a: Attempt): Source {
    if a.readClaim.Some? then Late else Protective
  }

  function Rechecked(a: Attempt, g: Ingress): Attempt {
    a.(wall := g.laterWall, mono := g.laterMono)
  }

  /** Binding, both target checks and the fence commit together. */
  function ReserveForIngress(rows: Controls, hub: Hub, a: Attempt, g: Ingress): Result<Reservation> {
    var bound := Bind(rows, hub);
    if !SelectionValid(SourceOf(a), a.invocation, a.readClaim) then Err("invalid interrupt authority")
    else if PendingStop(hub, a.job) || !g.target || !ValidTarget(bound, hub, a) || g.due.None?
            || !ValidTarget(bound, hub, Rechecked(a, g))
    then Ok(Reservation(bound, None))
    else Ok(Reservation(bound[a.job := Reserve(bound[a.job], SourceOf(a), a.minted, a.wall, g.due)], Some(a.minted)))
  }

  lemma IngressReserveKeeps(rows: Controls, hub: Hub, a: Attempt, g: Ingress)
    requires Coherent(rows) && ReserveForIngress(rows, hub, a, g).Ok?
    ensures var r := ReserveForIngress(rows, hub, a, g).value;
            && Coherent(r.rows) && Retained(rows, r.rows)
            && (r.owner.Some? ==>
                  && !PendingStop(hub, a.job) && g.due.Some? && r.owner.value == a.minted
                  && a.job in rows && rows[a.job].send.None? && a.job in r.rows && r.rows[a.job].accepted
                  && r.rows[a.job].send == Some(Send(a.minted, a.wall, SourceOf(a), g.due)))
  {
    var bound := Bind(rows, hub);
    BindKeeps(rows, hub);
    var r := ReserveForIngress(rows, hub, a, g).value;
    if r.owner.Some? {
      FenceKeeps(rows, bound, a.job, SourceOf(a), a.minted, a.wall, g.due);
    }
  }

  lemma FenceKeeps(rows: Controls, bound: Controls, job: JobId, source: Source, minted: Token, wall: Wall,
                   revision: Option<nat>)
    requires Coherent(bound) && Retained(rows, bound) && job in bound && bound[job].accepted && bound[job].send.None?
    ensures var after := bound[job := Reserve(bound[job], source, minted, wall, revision)];
            Coherent(after) && Retained(rows, after)
  {
    var after := bound[job := Reserve(bound[job], source, minted, wall, revision)];
    UpdateKeeps(bound, job, after[job]);
    forall j | j in rows
      ensures j in after && UpdateAllowed(rows[j], after[j])
    {
      assert UpdateAllowed(rows[j], bound[j]);
    }
  }
}
