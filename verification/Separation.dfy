/** Exactly when the adversary never links two operators of a hardened run. */
module Separation {
  import opened Types
  import opened Rules
  import opened Simulation
  import opened EventLoop
  import opened Engine
  import opened Residual
  import opened Crossings
  import opened CeilingLeak
  import opened PeelLeak

  /** Operators stay apart on all such runs iff neither windows are united nor peel chains followed over time. */
  lemma NeverCrossesIff(on: RuleSet, adv: AdversaryConfig)
    ensures NeverCrosses(on, adv) <==> !UnitesWindows(on, adv) && !FollowsPeels(on, adv)
  {
    hide Crosses, Hidden;
    if UnitesWindows(on, adv) {
      UnitedWindowsCross(on, adv);
    } else if FollowsPeels(on, adv) {
      FollowedPeelsCross(on, adv);
    } else {
      forall world: World, personas: seq<Persona>, cfg: SimConfig, a: AccountId, b: AccountId | Hidden(world, personas, cfg)
        ensures Accepted(world, personas, cfg) && !Crosses(Simulate(world, personas, cfg), on, adv, a, b)
      {
        HiddenAccepted(world, personas, cfg);
        HiddenApart(world, personas, cfg, on, adv, a, b);
      }
    }
  }
}
