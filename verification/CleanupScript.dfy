/** apps/api/scripts/cleanup-non-test-wallets.ts: the inventory, the deletion in one transaction, and the checks after
  * it, with other writers in between. */
module CleanupScript {
  import opened Domain
  import opened Pipeline
  import opened RunInvariant
  import opened StepInvariant
  import opened Backend

  /** What others write between two statements of the script: moves of the pipeline, and new contents of the user and
    * preference tables; owners of wallets stay in the user table, as the foreign key demands. */
  datatype Meanwhile = Quiet | Writes(acts: seq<Action>, users: set<string>, prefs: map<string, Option<WalletId>>)

  datatype Inventory = Inventory(targets: seq<WalletId>, owners: set<string>, prefs: set<string>, protectedCount: nat, blocked: bool)

  datatype Check = ProtectedUserGone | ProtectedCountChanged | TargetsRemain | PreferencesRemain | UsersGone

  datatype CleanupEnd = NotConfirmed | NothingToDelete | Blocked | Aborted | PostCheckFailed(check: Check) | Complete

  predicate Deleted(end: CleanupEnd) { end.Complete? || end.PostCheckFailed? }

  function Ids(targets: seq<WalletId>): set<WalletId> { set w | w in targets }

  predicate IsTarget(wallets: map<WalletId, Wallet>, w: WalletId) { w in wallets && wallets[w].ownerEmail != PROTECTED_EMAIL }

  function CountProtected(wallets: map<WalletId, Wallet>, n: nat): nat {
    if n == 0 then 0
    else CountProtected(wallets, n - 1) + if n - 1 in wallets && wallets[n - 1].ownerEmail == PROTECTED_EMAIL then 1 else 0
  }

  predicate PointsInto(prefs: map<string, Option<WalletId>>, email: string, ids: set<WalletId>) {
    email in prefs && email != PROTECTED_EMAIL && prefs[email].Some? && prefs[email].value in ids
  }

  function TargetIds(wallets: map<WalletId, Wallet>): set<WalletId> { set w | w in wallets && IsTarget(wallets, w) }

  predicate NamelessOwner(wallets: map<WalletId, Wallet>) { exists w :: w in wallets && wallets[w].ownerEmail == "" }

  predicate Busy(c: Cell, ids: set<WalletId>) { OnWallet(c, ids) && InFlight(c.row.value) }

  function Nulled(prefs: map<string, Option<WalletId>>, emails: set<string>): map<string, Option<WalletId>> {
    map e | e in prefs :: if e in emails then None else prefs[e]
  }

  /** The targets among the first n wallets, in order, and their owners. */
  ghost predicate Collected(wallets: map<WalletId, Wallet>, found: seq<WalletId>, owners: set<string>, n: nat) {
    && (forall w: WalletId :: w in found <==> w < n && IsTarget(wallets, w))
    && (forall i, j :: 0 <= i < j < |found| ==> found[i] < found[j])
    && (forall w: WalletId :: w in found ==> wallets[w].ownerEmail in owners && wallets[w].ownerEmail != "")
    && (forall e :: e in owners ==> exists w: WalletId :: w in found && wallets[w].ownerEmail == e)
  }

  lemma CollectedNone(wallets: map<WalletId, Wallet>)
    ensures Collected(wallets, [], {}, 0)
  {
  }

  lemma CollectedNext(wallets: map<WalletId, Wallet>, found: seq<WalletId>, owners: set<string>, n: nat)
    requires Collected(wallets, found, owners, n) && (n in wallets ==> wallets[n].ownerEmail != "")
    ensures !IsTarget(wallets, n) ==> Collected(wallets, found, owners, n + 1)
    ensures IsTarget(wallets, n) ==> Collected(wallets, found + [n], owners + {wallets[n].ownerEmail}, n + 1)
  {
    if IsTarget(wallets, n) {
      var found', owners' := found + [n], owners + {wallets[n].ownerEmail};
      assert found'[|found|] == n;
      assert forall i :: 0 <= i < |found| ==> found[i] in found;
      forall e | e in owners' ensures exists w: WalletId :: w in found' && wallets[w].ownerEmail == e {
        if e in owners {
          var w: WalletId :| w in found && wallets[w].ownerEmail == e;
          assert w in found';
        } else {
          assert n in found';
        }
      }
    }
  }

  lemma {:induction false} CountKept(wallets: map<WalletId, Wallet>, ids: set<WalletId>, n: nat)
    requires forall w :: w in ids ==> IsTarget(wallets, w)
    ensures CountProtected(wallets - ids, n) == CountProtected(wallets, n)
  {
    if n > 0 { CountKept(wallets, ids, n - 1); }
  }

  lemma KeysBounded(acts: seq<Action>)
    ensures forall w :: w in Run(Initial, acts).wallets ==> w < Run(Initial, acts).nextWallet
  {
    Reachable(acts);
    InvParts(Run(Initial, acts));
  }

  // ---------- queries and checks ----------

  /** A request of these wallets that is open, or whose job is. */
  predicate Unsettled(row: Row, ids: set<WalletId>) {
    && row.request.walletId in ids
    && (row.request.status in {PENDING, APPROVED, QUEUED, PROCESSING}
        || (row.queue.Some? && row.queue.value.status in {WAITING, RESERVED, RUNNING, RETRY_WAIT}))
  }

  lemma BusyIsUnsettled(c: Cell, ids: set<WalletId>)
    ensures Busy(c, ids) <==> c.row.Some? && Unsettled(c.row.value, ids)
  {
  }

  method AnyBusy(cells: seq<Cell>, ids: set<WalletId>) returns (busy: bool)
    ensures busy <==> exists r :: 0 <= r < |cells| && Busy(cells[r], ids)
    ensures busy <==> exists r :: 0 <= r < |cells| && cells[r].row.Some? && Unsettled(cells[r].row.value, ids)
  {
    busy := false;
    var r := 0;
    while r < |cells| && !busy
      invariant 0 <= r <= |cells|
      invariant busy ==> exists i :: 0 <= i < |cells| && Busy(cells[i], ids)
      invariant !busy ==> forall i :: 0 <= i < r ==> !Busy(cells[i], ids)
    {
      busy := Busy(cells[r], ids);
      r := r + 1;
    }
    forall i | 0 <= i < |cells| ensures Busy(cells[i], ids) <==> cells[i].row.Some? && Unsettled(cells[i].row.value, ids) {
      BusyIsUnsettled(cells[i], ids);
    }
  }

  /** The wallets of every owner but the protected one, in the order of creation; None when an owner has no email. */
  method CollectTargets(wallets: map<WalletId, Wallet>, count: nat) returns (targets: Option<seq<WalletId>>, owners: set<string>, protectedCount: nat)
    requires forall w :: w in wallets ==> w < count
    ensures targets.None? <==> NamelessOwner(wallets)
    ensures targets.Some? ==> Collected(wallets, targets.value, owners, count) && protectedCount == CountProtected(wallets, count)
  {
    hide Collected;
    var found: seq<WalletId> := [];
    owners, protectedCount := {}, 0;
    CollectedNone(wallets);
    var w := 0;
    while w < count
      invariant 0 <= w <= count && Collected(wallets, found, owners, w)
      invariant protectedCount == CountProtected(wallets, w)
      invariant forall i :: i in wallets && i < w ==> wallets[i].ownerEmail != ""
    {
      if w in wallets && wallets[w].ownerEmail == "" { return None, owners, protectedCount; }
      CollectedNext(wallets, found, owners, w);
      if w in wallets {
        if wallets[w].ownerEmail == PROTECTED_EMAIL {
          protectedCount := protectedCount + 1;
        } else {
          found, owners := found + [w], owners + {wallets[w].ownerEmail};
        }
      }
      w := w + 1;
    }
    targets := Some(found);
  }

  /** Every target is still there, with an owner that is not protected. */
  method Revalidate(wallets: map<WalletId, Wallet>, targets: seq<WalletId>) returns (ok: bool)
    ensures ok <==> forall i :: 0 <= i < |targets| ==> IsTarget(wallets, targets[i]) && wallets[targets[i]].ownerEmail != ""
  {
    ok := true;
    var i := 0;
    while i < |targets| && ok
      invariant 0 <= i <= |targets|
      invariant ok ==> forall k :: 0 <= k < i ==> IsTarget(wallets, targets[k]) && wallets[targets[k]].ownerEmail != ""
      invariant !ok ==> exists k :: 0 <= k < |targets| && !(IsTarget(wallets, targets[k]) && wallets[targets[k]].ownerEmail != "")
    {
      ok := IsTarget(wallets, targets[i]) && wallets[targets[i]].ownerEmail != "";
      i := i + 1;
    }
  }

  method CountProtectedWallets(wallets: map<WalletId, Wallet>, count: nat) returns (n: nat)
    ensures n == CountProtected(wallets, count)
  {
    n := 0;
    var w := 0;
    while w < count
      invariant 0 <= w <= count && n == CountProtected(wallets, w)
    {
      if w in wallets && wallets[w].ownerEmail == PROTECTED_EMAIL { n := n + 1; }
      w := w + 1;
    }
  }

  class CleanupScript {
    const db: Store
    var users: set<string>
    var prefs: map<string, Option<WalletId>>

    constructor (db: Store, users: set<string>, prefs: map<string, Option<WalletId>>)
      ensures this.db == db && this.users == users && this.prefs == prefs
    {
      this.db, this.users, this.prefs := db, users, prefs;
    }

    ghost predicate Valid()
      reads this, db
    {
      && db.Valid()
      && (forall w :: w in db.wallets ==> db.wallets[w].ownerEmail in users)
      && prefs.Keys <= users
    }

    method Elsewhere(m: Meanwhile)
      requires Valid()
      modifies this, db
      ensures Valid() && old(db.trace) <= db.trace
      ensures m.Quiet? ==> db.View() == old(db.View()) && users == old(users) && prefs == old(prefs) && db.trace == old(db.trace)
    {
      if m.Quiet? { return; }
      hide Run, Step;
      var i := 0;
      while i < |m.acts|
        invariant 0 <= i <= |m.acts| && db.Valid() && old(db.trace) <= db.trace
      {
        db.Become(Step(db.View(), m.acts[i]), m.acts[i]);
        i := i + 1;
      }
      users := m.users + (set w | w in db.wallets :: db.wallets[w].ownerEmail);
      prefs := map e | e in m.prefs && e in users :: m.prefs[e];
    }

    /** Whether the inventory describes the tables as they are. */
    ghost predicate Fresh(inv: Inventory)
      reads this, db
    {
      && (forall w :: w in inv.targets <==> IsTarget(db.wallets, w))
      && (forall i, j :: 0 <= i < j < |inv.targets| ==> inv.targets[i] != inv.targets[j])
      && (forall i :: 0 <= i < |inv.targets| && inv.targets[i] in db.wallets ==> db.wallets[inv.targets[i]].ownerEmail in inv.owners)
      && (forall e :: e in inv.owners ==> exists w :: w in inv.targets && w in db.wallets && db.wallets[w].ownerEmail == e)
      && (forall e :: e in inv.prefs <==>
            e in prefs && e != "test@test.com" && prefs[e].Some? && prefs[e].value in inv.targets)
      && "" !in inv.prefs
      && inv.protectedCount == CountProtected(db.wallets, db.nextWallet)
      && (inv.blocked <==> exists r :: 0 <= r < |db.cells| && Busy(db.cells[r], Ids(inv.targets)))
    }

    method CollectInventory() returns (inv: Option<Inventory>)
      requires Valid()
      ensures inv.Some? ==> Fresh(inv.value)
      ensures inv.None? <==> NamelessOwner(db.wallets) || PointsInto(prefs, "", TargetIds(db.wallets))
    {
      hide Run, CountProtected, Busy;
      KeysBounded(db.trace);
      var targets, owners, protectedCount := CollectTargets(db.wallets, db.nextWallet);
      if targets.None? { return None; }
      var ids := Ids(targets.value);
      assert ids == TargetIds(db.wallets);
      var pointing := set e | e in prefs && PointsInto(prefs, e, ids);
      if "" in pointing { return None; }
      var blocked := AnyBusy(db.cells, ids);
      inv := Some(Inventory(targets.value, owners, pointing, protectedCount, blocked));
    }

    /** The checks inside the transaction. */
    method CheckInside(inv: Inventory) returns (ok: bool)
      ensures ok <==>
                && (forall e :: e in inv.prefs && e in prefs ==>
                      e != "" && e != "test@test.com" && prefs[e].Some? && prefs[e].value in inv.targets)
                && (forall i :: 0 <= i < |inv.targets| ==> IsTarget(db.wallets, inv.targets[i]) && db.wallets[inv.targets[i]].ownerEmail != "")
                && !(exists r :: 0 <= r < |db.cells| && Busy(db.cells[r], Ids(inv.targets)))
    {
      hide Busy, IsTarget;
      var stray := set e | e in inv.prefs && e in prefs && (e == "" || !PointsInto(prefs, e, Ids(inv.targets)));
      if stray != {} {
        assert exists e :: e in stray;
        return false;
      }
      assert forall e :: e in inv.prefs && e in prefs && (e == "" || !PointsInto(prefs, e, Ids(inv.targets))) ==> e in stray;
      ok := Revalidate(db.wallets, inv.targets);
      if ok {
        var busy := AnyBusy(db.cells, Ids(inv.targets));
        ok := !busy;
      }
    }

    /** The transaction: it nulls the preferences and deletes the wallets, and everything below them, when everything
      * that the inventory found still holds; otherwise it changes nothing. */
    method Transaction(inv: Inventory) returns (committed: bool)
      requires Valid()
      modifies this, db
      ensures Valid() && users == old(users)
      ensures committed <==>
                && (forall e :: e in inv.prefs && e in old(prefs) ==>
                      e != "" && e != "test@test.com" && old(prefs)[e].Some? && old(prefs)[e].value in inv.targets)
                && (forall i :: 0 <= i < |inv.targets| ==> IsTarget(old(db.wallets), inv.targets[i]) && old(db.wallets)[inv.targets[i]].ownerEmail != "")
                && !(exists r :: 0 <= r < |old(db.cells)| && Busy(old(db.cells)[r], Ids(inv.targets)))
      ensures committed ==>
                && old(CleanupAllowed(db.View(), Ids(inv.targets)))
                && db.trace == old(db.trace) + [Cleanup(Ids(inv.targets))] && db.View() == DropAll(old(db.View()), Ids(inv.targets))
                && prefs.Keys == old(prefs).Keys
                && forall e :: e in prefs ==> prefs[e] == if e in inv.prefs then None else old(prefs)[e]
      ensures !committed ==> db.View() == old(db.View()) && db.trace == old(db.trace) && prefs == old(prefs)
    {
      hide Run;
      committed := CheckInside(inv);
      if committed {
        var ids := Ids(inv.targets);
        assert CleanupAllowed(db.View(), ids);
        prefs := Nulled(prefs, inv.prefs);
        DeleteMany(ids);
      }
    }

    /** wallet.deleteMany, with the rows that cascade. */
    method DeleteMany(ids: set<WalletId>)
      requires Valid() && CleanupAllowed(db.View(), ids)
      modifies db
      ensures Valid() && db.trace == old(db.trace) + [Cleanup(ids)] && db.View() == DropAll(old(db.View()), ids)
    {
      var deletable := set w | w in ids && IsTarget(db.wallets, w);
      assert deletable == ids;
      Extended(db.trace, Cleanup(ids));
      hide Run;
      db.wallets := db.wallets - deletable;
      db.cells := seq(|db.cells|, r requires 0 <= r < |db.cells| reads db => Drop(db.cells[r], ids));
      db.trace := db.trace + [Cleanup(ids)];
    }

    /** The checks on the wallet table after the deletion. */
    method CheckWallets(inv: Inventory, m: nat -> Meanwhile) returns (failed: Option<Check>)
      requires Valid()
      modifies this, db
      ensures Valid() && old(db.trace) <= db.trace
      ensures (forall k: nat :: m(k).Quiet?) ==>
                && db.View() == old(db.View()) && users == old(users) && prefs == old(prefs)
                && (failed.None? <==>
                      && PROTECTED_EMAIL in users && CountProtected(db.wallets, db.nextWallet) == inv.protectedCount
                      && (forall w :: w in inv.targets ==> w !in db.wallets))
    {
      hide Run, CountProtected;
      Elsewhere(m(4));
      if PROTECTED_EMAIL !in users { return Some(ProtectedUserGone); }
      Elsewhere(m(5));
      var n := CountProtectedWallets(db.wallets, db.nextWallet);
      if n != inv.protectedCount { return Some(ProtectedCountChanged); }
      Elsewhere(m(6));
      var remaining := set w | w in inv.targets && w in db.wallets;
      assert forall w :: w in inv.targets && w in db.wallets ==> w in remaining;
      failed := if remaining == {} then None else Some(TargetsRemain);
      assert remaining != {} ==> exists w :: w in remaining;
    }

    /** And on the other two. */
    method CheckUsers(inv: Inventory, m: nat -> Meanwhile) returns (failed: Option<Check>)
      requires Valid()
      modifies this, db
      ensures Valid() && old(db.trace) <= db.trace
      ensures (forall k: nat :: m(k).Quiet?) ==>
                && db.View() == old(db.View()) && users == old(users) && prefs == old(prefs)
                && (failed.None? <==> (forall e :: e in inv.prefs && e in prefs ==> prefs[e].None?) && inv.owners <= users)
    {
      hide Run;
      Elsewhere(m(7));
      var pointing := set e | e in inv.prefs && e in prefs && prefs[e].Some?;
      assert forall e :: e in inv.prefs && e in prefs && prefs[e].Some? ==> e in pointing;
      if pointing != {} {
        assert exists e :: e in pointing;
        return Some(PreferencesRemain);
      }
      Elsewhere(m(8));
      var present := inv.owners * users;
      failed := if |present| == |inv.owners| then None else Some(UsersGone);
      assert inv.owners <= users ==> present == inv.owners;
      if failed.None? { SameSize(present, inv.owners); }
    }

    /** All of them in their order; the first that fails ends the script. */
    method PostChecks(inv: Inventory, m: nat -> Meanwhile) returns (end: CleanupEnd)
      requires Valid()
      modifies this, db
      ensures Valid() && Deleted(end) && old(db.trace) <= db.trace
      ensures (forall k: nat :: m(k).Quiet?) ==> db.View() == old(db.View()) && users == old(users) && prefs == old(prefs)
      ensures (forall k: nat :: m(k).Quiet?) ==>
                (end.Complete? <==>
                  && PROTECTED_EMAIL in users && CountProtected(db.wallets, db.nextWallet) == inv.protectedCount
                  && (forall w :: w in inv.targets ==> w !in db.wallets)
                  && (forall e :: e in inv.prefs && e in prefs ==> prefs[e].None?)
                  && inv.owners <= users)
    {
      hide Run, CountProtected;
      var failed := CheckWallets(inv, m);
      if failed.None? { failed := CheckUsers(inv, m); }
      end := if failed.None? then Complete else PostCheckFailed(failed.value);
    }

    /** executeCleanup. Whatever others write in between: it deletes the inventory's wallets in one step that spares
      * all live work and the protected owner, or deletes nothing. When nobody else writes, a fresh inventory that
      * is not blocked is deleted, and all checks after it hold exactly if the protected user exists. */
    method ExecuteCleanup(inv: Inventory, m: nat -> Meanwhile) returns (end: CleanupEnd, ghost before: seq<Action>)
      requires Valid()
      modifies this, db
      ensures Valid() && old(db.trace) <= db.trace && !end.Blocked?
      ensures Deleted(end) ==> before + [Cleanup(Ids(inv.targets))] <= db.trace && CleanupAllowed(Run(Initial, before), Ids(inv.targets))
      ensures end.NothingToDelete? <==> inv.targets == []
      ensures (forall k: nat :: m(k).Quiet?) && !Deleted(end) ==> db.View() == old(db.View()) && prefs == old(prefs)
      ensures (forall k: nat :: m(k).Quiet?) && Deleted(end) ==> db.wallets == old(db.wallets) - Ids(inv.targets)
      ensures (forall k: nat :: m(k).Quiet?) && old(Fresh(inv)) && inv.targets != [] ==>
                && (Deleted(end) <==> !inv.blocked && !(exists w :: w in inv.targets && old(db.wallets)[w].ownerEmail == ""))
                && (Deleted(end) ==> (end.Complete? <==> PROTECTED_EMAIL in old(users)))
    {
      hide Run, Step, CleanupAllowed, CountProtected, Busy, InFlight, OnWallet, PointsInto, Nulled;
      before := db.trace;
      if inv.targets == [] { return NothingToDelete, before; }
      Elsewhere(m(1));
      var ok := Revalidate(db.wallets, inv.targets);
      if !ok { return Aborted, before; }
      Elsewhere(m(2));
      var busy := AnyBusy(db.cells, Ids(inv.targets));
      if busy { return Aborted, before; }
      Elsewhere(m(3));
      before := db.trace;
      var committed := Transaction(inv);
      if !committed { return Aborted, before; }
      ghost var nobody := forall k: nat :: m(k).Quiet?;
      if nobody && old(Fresh(inv)) { CountKept(old(db.wallets), Ids(inv.targets), old(db.nextWallet)); }
      end := PostChecks(inv, m);
    }

    /** The script in execute mode, from the inventory on. When nobody else writes, it completes exactly when it is
      * confirmed, there is something to delete, every owner concerned has an email, no work is in flight on the wallets
      * to delete, and the protected user exists; then all wallets that are left are the protected owner's, as before. */
    method Execute(confirmed: bool, m: nat -> Meanwhile) returns (end: CleanupEnd)
      requires Valid()
      modifies this, db
      ensures Valid() && old(db.trace) <= db.trace
      ensures (forall k: nat :: m(k).Quiet?) ==>
                (end.Complete? <==>
                  && confirmed && old(TargetIds(db.wallets)) != {} && !old(NamelessOwner(db.wallets))
                  && !old(PointsInto(prefs, "", TargetIds(db.wallets)))
                  && !old(exists r :: 0 <= r < |db.cells| && Busy(db.cells[r], TargetIds(db.wallets)))
                  && "test@test.com" in old(users))
      ensures (forall k: nat :: m(k).Quiet?) && !Deleted(end) ==> db.View() == old(db.View()) && prefs == old(prefs)
      ensures (forall k: nat :: m(k).Quiet?) && Deleted(end) ==>
                && db.wallets == old(db.wallets) - old(TargetIds(db.wallets))
                && forall w :: w in db.wallets ==> db.wallets[w].ownerEmail == "test@test.com"
    {
      hide Run, CleanupAllowed, PointsInto, Busy;
      if !confirmed { return NotConfirmed; }
      var inv := CollectInventory();
      if inv.None? { return Aborted; }
      TargetsAre(db.wallets, inv.value.targets);
      Elsewhere(m(0));
      if inv.value.blocked { return Blocked; }
      ghost var before;
      end, before := ExecuteCleanup(inv.value, m);
    }
  }

  lemma TargetsAre(wallets: map<WalletId, Wallet>, targets: seq<WalletId>)
    requires forall w :: w in targets <==> IsTarget(wallets, w)
    ensures Ids(targets) == TargetIds(wallets) && (targets == [] <==> TargetIds(wallets) == {})
  {
    if targets != [] {
      assert targets[0] in targets;
      assert targets[0] in TargetIds(wallets);
    }
  }

  lemma SameSize(a: set<string>, b: set<string>)
    requires a <= b && |a| == |b|
    ensures a == b
  {
    assert |b - a| == 0;
  }
}
