/**
  The shared byte budget: one entry per owner in a state file that every process rewrites under a lock, dropping
  the entries of dead processes as it goes.  Which processes are alive is whatever each transaction observes.
*/
module Budget {

  const U64_MAX: nat := 0xFFFF_FFFF_FFFF_FFFF

  function SatAdd(a: nat, b: nat): nat { if a + b <= U64_MAX then a + b else U64_MAX }

  function SatSub(a: nat, b: nat): nat { if b <= a then a - b else 0 }

  datatype Entry = Entry(owner: nat, pid: nat, bytes: nat)

  // ----- Specification -----

  /** What an owner is recorded to hold; an owner without an entry holds nothing. */
  function Balance(es: seq<Entry>, owner: nat, pid: nat): nat {
    if es == [] then 0
    else if es[0].owner == owner && es[0].pid == pid then es[0].bytes
    else Balance(es[1..], owner, pid)
  }

  /** All recorded bytes. */
  function Sum(es: seq<Entry>): nat { if es == [] then 0 else es[0].bytes + Sum(es[1..]) }

  /** The entries that survive pruning. */
  function Kept(es: seq<Entry>, self: nat, live: set<nat>): seq<Entry> {
    if es == [] then []
    else if es[0].pid == self || es[0].pid in live then [es[0]] + Kept(es[1..], self, live)
    else Kept(es[1..], self, live)
  }

  /** The entries with one owner's balance set; a new owner is added at the end. */
  function With(es: seq<Entry>, owner: nat, pid: nat, bytes: nat): seq<Entry> {
    if es == [] then [Entry(owner, pid, bytes)]
    else if es[0].owner == owner && es[0].pid == pid then [Entry(owner, pid, bytes)] + es[1..]
    else [es[0]] + With(es[1..], owner, pid, bytes)
  }

  /** Setting one balance sets that balance and no other. */
  lemma {:induction false} BalanceWith(es: seq<Entry>, owner: nat, pid: nat, bytes: nat, o: nat, p: nat)
    ensures Balance(With(es, owner, pid, bytes), o, p) ==
            if o == owner && p == pid then bytes else Balance(es, o, p)
  {
    if es != [] {
      BalanceWith(es[1..], owner, pid, bytes, o, p);
      var w := With(es, owner, pid, bytes);
      if es[0].owner == owner && es[0].pid == pid {
        assert w[1..] == es[1..];
      } else {
        assert w[1..] == With(es[1..], owner, pid, bytes);
      }
    }
  }

  /** Pruning keeps the balance of every process seen alive and forgets every other. */
  lemma {:induction false} BalanceKept(es: seq<Entry>, self: nat, live: set<nat>, o: nat, p: nat)
    ensures Balance(Kept(es, self, live), o, p) == if p == self || p in live then Balance(es, o, p) else 0
  {
    if es != [] {
      BalanceKept(es[1..], self, live, o, p);
      if es[0].pid == self || es[0].pid in live {
        assert Kept(es, self, live)[1..] == Kept(es[1..], self, live);
      }
    }
  }

  /** The total moves by exactly the change of the balance. */
  lemma {:induction false} SumWith(es: seq<Entry>, owner: nat, pid: nat, bytes: nat)
    ensures Sum(With(es, owner, pid, bytes)) + Balance(es, owner, pid) == Sum(es) + bytes
  {
    if es == [] {
      assert Sum([Entry(owner, pid, bytes)]) == bytes + Sum([]);
    } else {
      SumWith(es[1..], owner, pid, bytes);
      var w := With(es, owner, pid, bytes);
      if es[0].owner == owner && es[0].pid == pid {
        assert w[1..] == es[1..];
      } else {
        assert w[1..] == With(es[1..], owner, pid, bytes);
      }
    }
  }

  lemma {:induction false} SumAppend(es: seq<Entry>, e: Entry)
    ensures Sum(es + [e]) == Sum(es) + e.bytes
  {
    if es == [] {
      assert Sum([e]) == e.bytes + Sum([]);
      assert es + [e] == [e];
    } else {
      SumAppend(es[1..], e);
      assert (es + [e])[1..] == es[1..] + [e];
    }
  }

  /** One transaction: prune, then set the owner's balance. */
  function Transacted(es: seq<Entry>, owner: nat, pid: nat, live: set<nat>, bytes: nat): seq<Entry> {
    With(Kept(es, pid, live), owner, pid, bytes)
  }

  /** A transaction sets its own balance, keeps every other live one, and reclaims the dead. */
  lemma TransactedBalance(es: seq<Entry>, owner: nat, pid: nat, live: set<nat>, bytes: nat, o: nat, p: nat)
    ensures Balance(Transacted(es, owner, pid, live, bytes), o, p) ==
            if o == owner && p == pid then bytes
            else if p == pid || p in live then Balance(es, o, p)
            else 0
  {
    BalanceWith(Kept(es, pid, live), owner, pid, bytes, o, p);
    BalanceKept(es, pid, live, o, p);
  }

  /** Pruning never adds to the total. */
  lemma {:induction false} SumKept(es: seq<Entry>, self: nat, live: set<nat>)
    ensures Sum(Kept(es, self, live)) <= Sum(es)
  {
    if es != [] {
      SumKept(es[1..], self, live);
      if es[0].pid == self || es[0].pid in live {
        assert Kept(es, self, live)[1..] == Kept(es[1..], self, live);
      }
    }
  }

  /** A transaction moves the total by at most the change of its own balance. */
  lemma TransactedSum(es: seq<Entry>, owner: nat, pid: nat, live: set<nat>, bytes: nat)
    ensures Sum(Transacted(es, owner, pid, live, bytes)) + Balance(es, owner, pid) <= Sum(es) + bytes
  {
    SumKept(es, pid, live);
    SumWith(Kept(es, pid, live), owner, pid, bytes);
    BalanceKept(es, pid, live, owner, pid);
  }

  /** How far the recorded total, which saturates, is over a limit. */
  function Excess(es: seq<Entry>, max: nat): nat { SatSub(if Sum(es) <= U64_MAX then Sum(es) else U64_MAX, max) }

  // ----- The file and its transactions -----

  /** The state file, shared by every process. */
  class Ledger {
    var entries: seq<Entry>

    constructor ()
      ensures entries == []
    {
      entries := [];
    }
  }

  lemma {:induction false} KeptPrefix(es: seq<Entry>, e: Entry, self: nat, live: set<nat>)
    ensures Kept(es + [e], self, live) ==
            Kept(es, self, live) + if e.pid == self || e.pid in live then [e] else []
  {
    if es == [] {
      assert es + [e] == [e] && [e][1..] == [];
    } else {
      KeptPrefix(es[1..], e, self, live);
      assert (es + [e])[1..] == es[1..] + [e];
    }
  }

  /** `prune_dead`. */
  method PruneDead(es: seq<Entry>, self: nat, live: set<nat>) returns (r: seq<Entry>)
    ensures r == Kept(es, self, live)
  {
    r := [];
    var i := 0;
    while i < |es|
      invariant 0 <= i <= |es| && r == Kept(es[..i], self, live)
    {
      KeptPrefix(es[..i], es[i], self, live);
      assert es[..i + 1] == es[..i] + [es[i]];
      if es[i].pid == self || es[i].pid in live { r := r + [es[i]]; }
      i := i + 1;
    }
    assert es[..i] == es;
  }

  /** `total`: the sum of the recorded bytes, or the largest number if it does not fit. */
  method Total(es: seq<Entry>) returns (t: nat)
    ensures t == if Sum(es) <= U64_MAX then Sum(es) else U64_MAX
  {
    t := 0;
    var i := 0;
    while i < |es|
      invariant 0 <= i <= |es| && t == if Sum(es[..i]) <= U64_MAX then Sum(es[..i]) else U64_MAX
    {
      SumAppend(es[..i], es[i]);
      assert es[..i + 1] == es[..i] + [es[i]];
      t := SatAdd(t, es[i].bytes);
      i := i + 1;
    }
    assert es[..i] == es;
  }

  /** Setting the first match by position is setting the balance. */
  lemma {:induction false} WithAt(es: seq<Entry>, owner: nat, pid: nat, bytes: nat, k: nat)
    requires k < |es| && es[k].owner == owner && es[k].pid == pid
    requires forall i | 0 <= i < k :: !(es[i].owner == owner && es[i].pid == pid)
    ensures With(es, owner, pid, bytes) == es[k := Entry(owner, pid, bytes)] && Balance(es, owner, pid) == es[k].bytes
  {
    if k == 0 {
      assert es[0 := Entry(owner, pid, bytes)] == [Entry(owner, pid, bytes)] + es[1..];
    } else {
      forall i | 0 <= i < k - 1 ensures !(es[1..][i].owner == owner && es[1..][i].pid == pid) {
        assert es[1..][i] == es[i + 1];
      }
      WithAt(es[1..], owner, pid, bytes, k - 1);
      assert es[k := Entry(owner, pid, bytes)] == [es[0]] + es[1..][k - 1 := Entry(owner, pid, bytes)];
    }
  }

  lemma {:induction false} WithNew(es: seq<Entry>, owner: nat, pid: nat, bytes: nat)
    requires forall i | 0 <= i < |es| :: !(es[i].owner == owner && es[i].pid == pid)
    ensures With(es, owner, pid, bytes) == es + [Entry(owner, pid, bytes)] && Balance(es, owner, pid) == 0
  {
    if es != [] {
      forall i | 0 <= i < |es[1..]| ensures !(es[1..][i].owner == owner && es[1..][i].pid == pid) {
        assert es[1..][i] == es[i + 1];
      }
      WithNew(es[1..], owner, pid, bytes);
    }
  }

  /** `upsert`: the place of the owner's entry, added with a zero balance if there is none. */
  method Upsert(es: seq<Entry>, owner: nat, pid: nat) returns (r: seq<Entry>, k: nat)
    ensures k < |r| && r[k] == Entry(owner, pid, Balance(es, owner, pid))
    ensures forall b :: r[k := Entry(owner, pid, b)] == With(es, owner, pid, b)
  {
    k := 0;
    while k < |es| && !(es[k].owner == owner && es[k].pid == pid)
      invariant 0 <= k <= |es|
      invariant forall i | 0 <= i < k :: !(es[i].owner == owner && es[i].pid == pid)
    {
      k := k + 1;
    }
    if k < |es| {
      r := es;
      WithAt(es, owner, pid, 0, k);
      forall b ensures r[k := Entry(owner, pid, b)] == With(es, owner, pid, b) { WithAt(es, owner, pid, b, k); }
    } else {
      r := es + [Entry(owner, pid, 0)];
      WithNew(es, owner, pid, 0);
      forall b ensures r[k := Entry(owner, pid, b)] == With(es, owner, pid, b) { WithNew(es, owner, pid, b); }
    }
  }

  class CacheBudget {
    const ledger: Ledger
    const maxBytes: nat
    const owner: nat
    const pid: nat

    /** Open the budget with a fresh zero balance. */
    constructor (ledger: Ledger, maxBytes: nat, owner: nat, pid: nat, live: set<nat>)
      modifies ledger
      ensures this.ledger == ledger && this.maxBytes == maxBytes && this.owner == owner && this.pid == pid
      ensures ledger.entries == Transacted(old(ledger.entries), owner, pid, live, 0)
    {
      this.ledger := ledger;
      this.maxBytes := maxBytes;
      this.owner := owner;
      this.pid := pid;
      var es := PruneDead(ledger.entries, pid, live);
      var k;
      es, k := Upsert(es, owner, pid);
      ledger.entries := es[k := Entry(owner, pid, 0)];
    }

    function Held(): nat
      reads ledger
    {
      Balance(ledger.entries, owner, pid)
    }

    /** How far the recorded total is over the limit. */
    ghost function Over(): nat
      reads ledger
    {
      Excess(ledger.entries, maxBytes)
    }

    method Reset(bytes: nat, live: set<nat>) returns (over: nat)
      modifies ledger
      ensures ledger.entries == Transacted(old(ledger.entries), owner, pid, live, bytes)
      ensures Held() == bytes && over == Over()
    {
      TransactedBalance(ledger.entries, owner, pid, live, bytes, owner, pid);
      var es := PruneDead(ledger.entries, pid, live);
      var k;
      es, k := Upsert(es, owner, pid);
      es := es[k := Entry(owner, pid, bytes)];
      ledger.entries := es;
      var t := Total(es);
      over := SatSub(t, maxBytes);
    }

    method Admit(bytes: nat, live: set<nat>) returns (over: nat)
      modifies ledger
      ensures ledger.entries == Transacted(old(ledger.entries), owner, pid, live, SatAdd(old(Held()), bytes))
      ensures Held() == SatAdd(old(Held()), bytes) && over == Over()
    {
      BalanceKept(ledger.entries, pid, live, owner, pid);
      TransactedBalance(ledger.entries, owner, pid, live, SatAdd(Held(), bytes), owner, pid);
      var es := PruneDead(ledger.entries, pid, live);
      var k;
      es, k := Upsert(es, owner, pid);
      es := es[k := Entry(owner, pid, SatAdd(es[k].bytes, bytes))];
      ledger.entries := es;
      var t := Total(es);
      over := SatSub(t, maxBytes);
    }

    method Release(bytes: nat, live: set<nat>)
      modifies ledger
      ensures ledger.entries == Transacted(old(ledger.entries), owner, pid, live, SatSub(old(Held()), bytes))
      ensures Held() == SatSub(old(Held()), bytes)
    {
      BalanceKept(ledger.entries, pid, live, owner, pid);
      TransactedBalance(ledger.entries, owner, pid, live, SatSub(Held(), bytes), owner, pid);
      var es := PruneDead(ledger.entries, pid, live);
      var k;
      es, k := Upsert(es, owner, pid);
      ledger.entries := es[k := Entry(owner, pid, SatSub(es[k].bytes, bytes))];
    }
  }
}
