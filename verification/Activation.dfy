/** Mount-before-commit activation as a transaction over the mounted bundle, the prepared
    session and the stored configuration. */
module Activations {
  import opened Wrappers
  import opened Configurations

  /** What mounting a candidate can do. */
  datatype MountOutcome = Mounts | Declines | Throws

  /** What preparing the session can do; there may be no participant. */
  datatype Participant = Absent | Acquires | Refuses

  datatype ActivationResult = Activated(configuration: Configuration) | Busy | InConflict | NotAvailable

  class ActivationController {
    const store: ConfigStore
    var activating: bool
    var bundles: nat
    var sessions: nat

    constructor (store: ConfigStore)
      ensures this.store == store && !activating && bundles == 0 && sessions == 0
    {
      this.store := store;
      activating, bundles, sessions := false, 0, 0;
    }

    /** `bundles` and `sessions` count what is mounted and what is prepared. An activation
        keeps one of each exactly when the configuration committed; every other end gives
        both back and leaves the configuration alone, unless the write landed although its
        call threw - the one case in which the result and the store disagree. */
    method Activate(draft: Draft, expected: int, now: nat, mount: MountOutcome, participant: Participant, fault: Fault)
    returns (r: ActivationResult)
      modifies this, store
      ensures activating == old(activating)
      ensures old(activating) ==> r == Busy
      ensures r == Busy ==> old(activating)
      ensures r.Activated? <==> !old(activating) && mount == Mounts && participant != Refuses && fault == Done
                                && ValidDraft(draft) && expected == Generation(old(store.current))
      ensures r.Activated? ==>
              && r.configuration.draft == draft && r.configuration.activatedAt == now
              && r.configuration.generation == expected + 1 == Generation(old(store.current)) + 1
              && store.current == Some(r.configuration)
      ensures bundles == old(bundles) + (if r.Activated? then 1 else 0)
      ensures sessions == old(sessions) + (if r.Activated? && participant == Acquires then 1 else 0)
      ensures r == InConflict <==>
              !old(activating) && mount == Mounts && participant != Refuses
              && expected >= 0 && ValidDraft(draft) && expected != Generation(old(store.current))
      ensures (r.Activated? <==> store.current != old(store.current))
              <==> !(fault == Lost && !old(activating) && mount == Mounts && participant != Refuses
                     && ValidDraft(draft) && expected == Generation(old(store.current)))
      ensures store.current != old(store.current) ==>
              store.current.Some? && store.current.value.draft == draft && store.current.value.activatedAt == now
    {
      if activating {
        return Busy;
      }
      activating := true;
      assert [WholeDraft(expected, draft, now)][..0] == [];
      if mount == Throws || mount == Declines {
        activating := false;
        return NotAvailable;
      }
      bundles := bundles + 1;
      var held := participant == Acquires;
      if participant == Refuses {
        bundles := bundles - 1;
        activating := false;
        return NotAvailable;
      }
      if held {
        sessions := sessions + 1;
      }
      var answer, thrown := store.Commit(expected, draft, now, fault);
      if answer.Committed? && !thrown {
        activating := false;
        return Activated(answer.configuration);
      }
      if held {
        sessions := sessions - 1;
      }
      bundles := bundles - 1;
      activating := false;
      return if answer.Conflict? then InConflict else NotAvailable;
    }
  }
}
