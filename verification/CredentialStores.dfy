/** The stores that the settings owners and start-up write in place: the cleanup ledger
    and the secret vault. `fault` is what the file system or the vault does underneath a
    call; `ok` says that the call returned instead of throwing. */
module CredentialStores {
  import opened Wrappers
  import opened Configurations
  import opened CleanupLedgers
  import opened CredentialProtocol

  class Vault {
    var secrets: set<Locator>

    constructor ()
      ensures secrets == {}
    {
      secrets := {};
    }

    method Write(l: Locator, fault: Fault) returns (ok: bool)
      modifies this
      ensures secrets == if fault == Refused then old(secrets) else old(secrets) + {l}
      ensures ok <==> fault == Done
    {
      if fault != Refused {
        secrets := secrets + {l};
      }
      ok := fault == Done;
    }

    method Delete(l: Locator, fault: Fault) returns (ok: bool)
      modifies this
      ensures secrets == if fault == Refused then old(secrets) else old(secrets) - {l}
      ensures ok <==> fault == Done
    {
      if fault != Refused {
        secrets := secrets - {l};
      }
      ok := fault == Done;
    }
  }

  /** The pending entries in ledger order. */
  function PendingEntries(es: seq<Entry>): (ps: seq<Entry>)
    ensures forall e :: e in ps <==> e in es && e.phase == PendingCleanup
    ensures |ps| <= |es|
    ensures Unique(es) ==> Unique(ps)
  {
    if es == [] then []
    else
      var rest := PendingEntries(es[1..]);
      assert forall e :: e in es <==> e == es[0] || e in es[1..];
      if es[0].phase == PendingCleanup then [es[0]] + rest else rest
  }

  class LedgerStore {
    const owner: Owner
    var entries: seq<Entry>

    constructor (owner: Owner)
      ensures this.owner == owner && entries == []
    {
      this.owner := owner;
      entries := [];
    }

    method Load(fault: Fault) returns (es: Option<seq<Entry>>)
      ensures es == if fault == Done then Some(entries) else None
    {
      es := if fault == Done then Some(entries) else None;
    }

    /** The first pending entries, at most `limit` of them. */
    method ListPending(limit: nat, fault: Fault) returns (es: Option<seq<Entry>>)
      ensures es.Some? <==> fault == Done && 1 <= limit <= MAX_ENTRIES
      ensures es.Some? ==>
              es.value == PendingEntries(entries)[..if |PendingEntries(entries)| < limit then |PendingEntries(entries)|
                                                  else limit]
    {
      if fault != Done || limit < 1 || limit > MAX_ENTRIES {
        return None;
      }
      var found: seq<Entry> := [];
      var i := |entries|;
      assert entries[i..] == [];
      while i > 0
        invariant 0 <= i <= |entries|
        invariant found == PendingEntries(entries[i..])
      {
        i := i - 1;
        assert entries[i..][1..] == entries[i + 1..];
        if entries[i].phase == PendingCleanup {
          found := [entries[i]] + found;
        }
      }
      assert entries[0..] == entries;
      return Some(found[..if |found| < limit then |found| else limit]);
    }

    method ReserveEntry(ref: Locator, expected: int, fault: Fault) returns (ok: bool)
      modifies this
      ensures entries == Written(old(entries), Reserve(owner, old(entries), ref, expected), fault)
      ensures ok <==> Succeeds(Reserve(owner, old(entries), ref, expected), fault)
    {
      ok := Mutate(Reserve(owner, entries, ref, expected), fault);
    }

    method MarkEntryCommitted(ref: Locator, expected: int, committed: int, fault: Fault) returns (ok: bool)
      modifies this
      ensures entries == Written(old(entries), MarkCommitted(owner, old(entries), ref, expected, committed), fault)
      ensures ok <==> Succeeds(MarkCommitted(owner, old(entries), ref, expected, committed), fault)
    {
      ok := Mutate(MarkCommitted(owner, entries, ref, expected, committed), fault);
    }

    method Adopt(ref: Locator, committed: int, fault: Fault) returns (ok: bool)
      modifies this
      ensures entries == Written(old(entries), AdoptCommitted(owner, old(entries), ref, committed), fault)
      ensures ok <==> Succeeds(AdoptCommitted(owner, old(entries), ref, committed), fault)
    {
      ok := Mutate(AdoptCommitted(owner, entries, ref, committed), fault);
    }

    method RetireEntry(ref: Locator, committed: int, fault: Fault) returns (ok: bool)
      modifies this
      ensures entries == Written(old(entries), Retire(owner, old(entries), ref, committed), fault)
      ensures ok <==> Succeeds(Retire(owner, old(entries), ref, committed), fault)
    {
      ok := Mutate(Retire(owner, entries, ref, committed), fault);
    }

    method AbandonEntry(ref: Locator, fault: Fault) returns (ok: bool)
      modifies this
      ensures entries == Written(old(entries), AbandonStaged(owner, old(entries), ref), fault)
      ensures ok <==> Succeeds(AbandonStaged(owner, old(entries), ref), fault)
    {
      ok := Mutate(AbandonStaged(owner, entries, ref), fault);
    }

    method CountAttempt(ref: Locator, fault: Fault) returns (ok: bool)
      modifies this
      ensures entries == Written(old(entries), MarkCleanupAttempt(owner, old(entries), ref), fault)
      ensures ok <==> Succeeds(MarkCleanupAttempt(owner, old(entries), ref), fault)
    {
      ok := Mutate(MarkCleanupAttempt(owner, entries, ref), fault);
    }

    method AcknowledgeEntry(ref: Locator, fault: Fault) returns (ok: bool)
      modifies this
      ensures entries == Written(old(entries), Acknowledge(owner, old(entries), ref), fault)
      ensures ok <==> Succeeds(Acknowledge(owner, old(entries), ref), fault)
    {
      ok := Mutate(Acknowledge(owner, entries, ref), fault);
    }

    /** The locked read-modify-write that every operation goes through. */
    method Mutate(r: LedgerResult, fault: Fault) returns (ok: bool)
      modifies this
      ensures entries == Written(old(entries), r, fault)
      ensures ok <==> Succeeds(r, fault)
    {
      if r.Err? {
        return false;
      }
      if fault != Refused {
        entries := r.entries;
      }
      return fault == Done;
    }
  }

  // -------------------------------------------------------------------------
  // Cleaning up pending locators
  // -------------------------------------------------------------------------

  /** What counting the attempt, deleting and acknowledging leave behind when the i-th
      effect meets `faults(i)`; the first failure ends it. */
  function CleanEffect(o: Owner, es: seq<Entry>, vault: set<Locator>, l: Locator, faults: nat -> Fault,
                       n: nat): (seq<Entry>, set<Locator>, nat) {
    var r := MarkCleanupAttempt(o, es, l);
    var counted := Written(es, r, faults(n));
    if !Succeeds(r, faults(n)) then (counted, vault, n + 1)
    else
      var rest := if faults(n + 1) == Refused then vault else vault - {l};
      if faults(n + 1) != Done then (counted, rest, n + 2)
      else (Written(counted, Acknowledge(o, counted, l), faults(n + 2)), rest, n + 3)
  }

  /** The same for every listed entry that is not configured. */
  function SweepEffect(o: Owner, es: seq<Entry>, vault: set<Locator>, list: seq<Entry>, active: set<Locator>,
                       faults: nat -> Fault, n: nat)
    : (seq<Entry>, set<Locator>, nat)
    decreases |list|
  {
    if list == [] then (es, vault, n)
    else if list[0].ref in active then SweepEffect(o, es, vault, list[1..], active, faults, n)
    else
      var (es', vault', k) := CleanEffect(o, es, vault, list[0].ref, faults, n);
      SweepEffect(o, es', vault', list[1..], active, faults, k)
  }

  method CleanOne(ledger: LedgerStore, vault: Vault, l: Locator, faults: nat -> Fault, n: nat) returns (k: nat)
    modifies ledger, vault
    ensures (ledger.entries, vault.secrets, k) == CleanEffect(ledger.owner, old(ledger.entries), old(vault.secrets), l,
                                                              faults, n)
  {
    k := n + 1;
    var ok := ledger.CountAttempt(l, faults(n));
    if !ok {
      return;
    }
    k := k + 1;
    ok := vault.Delete(l, faults(n + 1));
    if !ok {
      return;
    }
    k := k + 1;
    ok := ledger.AcknowledgeEntry(l, faults(n + 2));
  }

  method SweepListed(ledger: LedgerStore, vault: Vault, list: seq<Entry>, active: set<Locator>, faults: nat -> Fault,
                     n: nat) returns (k: nat)
    modifies ledger, vault
    ensures (ledger.entries, vault.secrets, k) == SweepEffect(ledger.owner, old(ledger.entries), old(vault.secrets),
                                                              list, active, faults, n)
  {
    k := n;
    var i := 0;
    while i < |list|
      invariant 0 <= i <= |list|
      invariant SweepEffect(ledger.owner, ledger.entries, vault.secrets, list[i..], active, faults, k)
                == SweepEffect(ledger.owner, old(ledger.entries), old(vault.secrets), list, active, faults, n)
    {
      assert list[i..][1..] == list[i + 1..];
      if list[i].ref !in active {
        k := CleanOne(ledger, vault, list[i].ref, faults, k);
      }
      i := i + 1;
    }
  }
}
