/**
 The joined goroutine set of thread.go. Its idle channel is replaced when a new
 generation of work starts, so a waiter holds the channel of one generation.
 */
module RoutineGroup {

  /** `generation` names the current idle channel; `closed` says whether it is closed. */
  datatype Group = Group(active: nat, generation: nat, closed: bool)

  const Empty := Group(0, 0, true)

  ghost predicate Sound(g: Group)
  {
    g.closed <==> g.active == 0
  }

  /** The section of Run that registers the goroutine. */
  function Register(g: Group): (r: Group)
  {
    if g.active == 0 then Group(1, g.generation + 1, false) else g.(active := g.active + 1)
  }

  /** The section of done. */
  function Leave(g: Group): (r: Group)
    requires g.active > 0
  {
    if g.active == 1 then g.(active := 0, closed := true) else g.(active := g.active - 1)
  }

  /** Whether the idle channel of generation `captured` is closed. */
  predicate IdleClosed(g: Group, captured: nat)
  {
    captured < g.generation || g.closed
  }

  /**
   What a waiter relies on: the channel it captured is closed exactly once everybody
   of that generation left, and stays closed when later generations come and go.
   */
  lemma IdleForEver(g: Group, captured: nat)
    requires Sound(g) && captured <= g.generation
    ensures IdleClosed(g, captured) <==> captured < g.generation || g.active == 0
    ensures IdleClosed(g, captured) ==> IdleClosed(Register(g), captured)
    ensures IdleClosed(g, captured) && g.active > 0 ==> IdleClosed(Leave(g), captured)
    ensures !IdleClosed(Register(g), Register(g).generation)
    ensures g.active > 0 && !IdleClosed(g, captured) ==> (IdleClosed(Leave(g), captured) <==> g.active == 1)
  {
  }

  class Routines {
    var active: nat
    var generation: nat
    var closed: bool

    ghost function Model(): Group
      reads this
    {
      Group(active, generation, closed)
    }

    constructor ()
      ensures Model() == Empty
    {
      active, generation, closed := 0, 0, true;
    }

    method Run()
      requires Sound(Model())
      modifies this
      ensures Model() == Register(old(Model())) && Sound(Model())
      ensures active == old(active) + 1 && !closed
      ensures generation == old(generation) + if old(active) == 0 then 1 else 0
    {
      if active == 0 {
        generation, closed := generation + 1, false;
      }
      active := active + 1;
    }

    /** close(idle) would panic on a closed channel; Sound rules that out. */
    method Done()
      requires Sound(Model()) && active > 0
      modifies this
      ensures Model() == Leave(old(Model())) && Sound(Model())
      ensures active == old(active) - 1 && generation == old(generation) && (closed <==> active == 0)
    {
      active := active - 1;
      if active == 0 {
        assert !closed;
        closed := true;
      }
    }
  }
}
