/**
 * What the COLO NIC registry promises: configure_one_nic's idempotent, asymmetric
 * bring-up and tear-down of one entry, configure_nic's fail-fast and teardown_nic's
 * best-effort walks over the list, the add and remove rules, and the scripts each
 * side launches, in order.
 */
module NicProps {
  import opened Wrappers
  import opened ColoState
  import opened ColoNic

  /** The identities of the registered clients, in list order. */
  function Ids(devs: seq<NicDevice>): seq<nat>
  {
    seq(|devs|, j requires 0 <= j < |devs| => devs[j].client.id)
  }

  /** No identity occurs twice. */
  predicate Distinct(ids: seq<nat>)
  {
    forall i, j | 0 <= i < j < |ids| :: ids[i] != ids[j]
  }

  /** No client is registered twice. */
  predicate DistinctIds(devs: seq<NicDevice>)
  {
    Distinct(Ids(devs))
  }

  /** Two registries whose entries are for the same clients, position by position, have the same identities. */
  lemma SameIds(a: seq<NicDevice>, b: seq<NicDevice>)
    requires |a| == |b| && forall j | 0 <= j < |a| :: a[j].client == b[j].client
    ensures Ids(a) == Ids(b)
  {
    assert forall j | 0 <= j < |a| :: Ids(a)[j] == Ids(b)[j];
  }

  /** Two registries holding the same clients with the same callbacks, is_up aside. */
  predicate SameClients(a: seq<NicDevice>, b: seq<NicDevice>)
  {
    |a| == |b| && forall j | 0 <= j < |a| :: a[j].client == b[j].client && a[j].hasConfigure == b[j].hasConfigure
  }

  /**
   * The invariant the registry keeps: of the entries for one client, only the first can
   * be up, since configure_one_nic only ever changes the first (and an entry is added down).
   */
  predicate FirstOnlyUp(devs: seq<NicDevice>)
  {
    forall i, j | 0 <= i < j < |devs| && devs[i].client.id == devs[j].client.id :: !devs[j].isUp
  }

  /** A registry without duplicate clients keeps the invariant trivially. */
  lemma DistinctFirstOnlyUp(devs: seq<NicDevice>)
    requires DistinctIds(devs)
    ensures FirstOnlyUp(devs)
  {
    assert forall j | 0 <= j < |devs| :: Ids(devs)[j] == devs[j].client.id;
  }

  lemma FirstWithDistinct(devs: seq<NicDevice>, i: nat)
    requires DistinctIds(devs) && i < |devs|
    ensures FirstWith(devs, devs[i].client.id) == Some(i)
  {
    assert forall j | 0 <= j < |devs| :: Ids(devs)[j] == devs[j].client.id;
  }

  lemma FirstWithSameClients(a: seq<NicDevice>, b: seq<NicDevice>, id: nat)
    requires SameClients(a, b)
    ensures FirstWith(a, id) == FirstWith(b, id)
  {
  }

  // ---------------------------------------------------------------
  // configure_one_nic
  // ---------------------------------------------------------------

  /**
   * configure_one_nic: -1 with nothing changed and nothing launched for a client not
   * in the list; otherwise only the first entry for it changes, and only its is_up.
   * It returns 0 exactly when that entry ends in the requested state: a failed
   * bring-up or a missing callback leaves is_up as it was, while a bring-down with a
   * callback always succeeds. Nothing is launched when the entry is already in the
   * requested state or has no callback.
   */
  lemma ConfigureOneEffect(devs: seq<NicDevice>, id: nat, up: bool, side: ColoMode, index: int, ok: Launcher)
    ensures ConfigureOne(devs, id, up, side, index, ok).ret in {0, -1}
    ensures FirstWith(devs, id).None? ==> ConfigureOne(devs, id, up, side, index, ok) == Outcome(-1, devs, [])
    ensures FirstWith(devs, id).Some? ==>
              var k := FirstWith(devs, id).value;
              var r := ConfigureOne(devs, id, up, side, index, ok);
              r.devs == devs[k := devs[k].(isUp := r.devs[k].isUp)] &&
              (r.ret == 0 <==> r.devs[k].isUp == up) &&
              (r.ret != 0 ==> r.devs == devs) &&
              (devs[k].isUp == up || !devs[k].hasConfigure ==> r.runs == [] && r.devs == devs) &&
              (!up && devs[k].hasConfigure ==> r.ret == 0)
  {
    var r := ConfigureOne(devs, id, up, side, index, ok);
    match FirstWith(devs, id)
    case None =>
    case Some(k) =>
      if devs[k].isUp != up && devs[k].hasConfigure {
        var ran := NicConfigure(devs[k].client, up, side, index, ok);
        if !(ran.ret != 0 && up) {
          assert r.devs == devs[k := devs[k].(isUp := up)];
        }
      }
  }

  /** configure_one_nic keeps the list's clients and callbacks. */
  lemma ConfigureOneKeepsClients(devs: seq<NicDevice>, id: nat, up: bool, side: ColoMode, index: int, ok: Launcher)
    ensures SameClients(ConfigureOne(devs, id, up, side, index, ok).devs, devs)
  {
    ConfigureOneEffect(devs, id, up, side, index, ok);
  }

  /** configure_one_nic is idempotent: once it has succeeded, asking again returns 0 and launches nothing. */
  lemma ConfigureOneIdempotent(devs: seq<NicDevice>, id: nat, up: bool, side: ColoMode, index: int, ok: Launcher)
    requires ConfigureOne(devs, id, up, side, index, ok).ret == 0
    ensures var r := ConfigureOne(devs, id, up, side, index, ok);
      ConfigureOne(r.devs, id, up, side, index, ok) == Outcome(0, r.devs, [])
  {
    var r := ConfigureOne(devs, id, up, side, index, ok);
    ConfigureOneEffect(devs, id, up, side, index, ok);
    ConfigureOneKeepsClients(devs, id, up, side, index, ok);
    FirstWithSameClients(r.devs, devs, id);
  }

  // ---------------------------------------------------------------
  // configure_nic and teardown_nic
  // ---------------------------------------------------------------

  lemma {:induction false} ConfigureFromEffect(devs: seq<NicDevice>, i: nat, side: ColoMode, index: int, ok: Launcher)
    requires DistinctIds(devs) && i <= |devs|
    ensures var r := ConfigureFrom(devs, i, side, index, ok);
      WalkedFrom(devs, i, r.ret, r.devs)
    decreases |devs| - i
  {
    if i < |devs| {
      var up := devs[i := devs[i].(isUp := true)];
      SameIds(up, devs);
      ConfigureFromEffect(up, i + 1, side, index, ok);
      WalkStep(devs, i, side, index, ok);
    } else {
      WalkEnds(devs, i, side, index, ok);
    }
  }

  /** At the end of the list configure_nic's walk is 0 with nothing changed. */
  lemma WalkEnds(devs: seq<NicDevice>, i: nat, side: ColoMode, index: int, ok: Launcher)
    requires i == |devs|
    ensures var r := ConfigureFrom(devs, i, side, index, ok);
      WalkedFrom(devs, i, r.ret, r.devs)
  {
    assert ConfigureFrom(devs, i, side, index, ok) == Outcome(0, devs, []);
  }

  /** configure_nic's walk from i, given what the walk from i + 1 over the list with entry i up does. */
  lemma WalkStep(devs: seq<NicDevice>, i: nat, side: ColoMode, index: int, ok: Launcher)
    requires DistinctIds(devs) && i < |devs|
    requires var up := devs[i := devs[i].(isUp := true)];
      var rest := ConfigureFrom(up, i + 1, side, index, ok);
      WalkedFrom(up, i + 1, rest.ret, rest.devs)
    ensures var r := ConfigureFrom(devs, i, side, index, ok);
      WalkedFrom(devs, i, r.ret, r.devs)
  {
    var up := devs[i := devs[i].(isUp := true)];
    BringUpStep(devs, i, side, index, ok);
    var r := ConfigureFrom(devs, i, side, index, ok);
    if r.ret == -1 && r.devs == devs && !devs[i].isUp {
      FailsAtOnce(devs, i);
    } else {
      LiftWalk(devs, up, i, r.ret, r.devs);
    }
  }

  /**
   * What configure_nic's walk from i did to the list: the entries before i are as they
   * were, and either every entry from i on was brought up (0), or the walk failed (-1)
   * at an entry that was down.
   */
  predicate WalkedFrom(devs: seq<NicDevice>, i: nat, ret: int, after: seq<NicDevice>)
    requires i <= |devs|
  {
    |after| == |devs| && ret in {0, -1} &&
    (forall j | 0 <= j < i :: after[j] == devs[j]) &&
    (ret == 0 ==> forall j | i <= j < |devs| :: after[j] == devs[j].(isUp := true)) &&
    (ret != 0 ==> exists k | i <= k < |devs| :: FailedAt(devs, after, i, k))
  }

  /** A walk that fails at its first entry, which was down, leaves the list as it was. */
  lemma FailsAtOnce(devs: seq<NicDevice>, i: nat)
    requires i < |devs| && !devs[i].isUp
    ensures WalkedFrom(devs, i, -1, devs)
  {
    assert FailedAt(devs, devs, i, i);
  }

  /** A walk from i + 1 over the list with entry i brought up is a walk from i over the list. */
  lemma LiftWalk(devs: seq<NicDevice>, mid: seq<NicDevice>, i: nat, ret: int, after: seq<NicDevice>)
    requires i < |devs| && mid == devs[i := devs[i].(isUp := true)]
    requires WalkedFrom(mid, i + 1, ret, after)
    ensures WalkedFrom(devs, i, ret, after)
  {
    if ret != 0 {
      var k :| i + 1 <= k < |mid| && FailedAt(mid, after, i + 1, k);
      assert FailedAt(devs, after, i, k);
    }
  }

  /**
   * configure_nic's step at entry i: either the entry comes up and the walk goes on
   * over the list with it up, or the entry was down, stays down, and the walk fails
   * with the list unchanged.
   */
  lemma BringUpStep(devs: seq<NicDevice>, i: nat, side: ColoMode, index: int, ok: Launcher)
    requires DistinctIds(devs) && i < |devs|
    ensures var up := devs[i := devs[i].(isUp := true)];
      var r := ConfigureFrom(devs, i, side, index, ok);
      Ids(up) == Ids(devs) &&
      ((r.ret == ConfigureFrom(up, i + 1, side, index, ok).ret &&
        r.devs == ConfigureFrom(up, i + 1, side, index, ok).devs) ||
       (r.ret == -1 && r.devs == devs && !devs[i].isUp))
  {
    var id := devs[i].client.id;
    var st := ConfigureOne(devs, id, true, side, index, ok);
    FirstWithDistinct(devs, i);
    ConfigureOneEffect(devs, id, true, side, index, ok);
    SameIds(devs[i := devs[i].(isUp := true)], devs);
    if st.ret == 0 {
      assert st.devs == devs[i := devs[i].(isUp := true)];
    }
  }

  /**
   * The walk from i failed at entry k: the entries from i before k were brought up,
   * entry k was down and is left as it was, and the entries after it are untouched.
   */
  predicate FailedAt(devs: seq<NicDevice>, after: seq<NicDevice>, i: nat, k: nat)
    requires |after| == |devs| && i <= k < |devs|
  {
    !devs[k].isUp && after[k] == devs[k] &&
    (forall j | i <= j < k :: after[j] == devs[j].(isUp := true)) &&
    (forall j | k < j < |devs| :: after[j] == devs[j])
  }

  /**
   * configure_nic on an empty list is -1 and launches nothing; on success every
   * listed device is up and nothing else in the list has changed.
   */
  lemma ConfigureNicAllUp(devs: seq<NicDevice>, side: ColoMode, index: int, ok: Launcher)
    requires DistinctIds(devs)
    ensures |devs| == 0 ==> ConfigureNic(devs, side, index, ok) == Outcome(-1, devs, [])
    ensures var r := ConfigureNic(devs, side, index, ok);
      r.ret == 0 ==> |r.devs| == |devs| && forall j | 0 <= j < |devs| :: r.devs[j] == devs[j].(isUp := true)
  {
    if |devs| > 0 {
      ConfigureFromEffect(devs, 0, side, index, ok);
    }
  }

  /**
   * configure_nic is fail-fast: a failure is -1 at some entry that was down and stays
   * down; the entries before it were brought up and those after it are untouched.
   */
  lemma ConfigureNicFailFast(devs: seq<NicDevice>, side: ColoMode, index: int, ok: Launcher)
    requires DistinctIds(devs) && |devs| > 0
    ensures var r := ConfigureNic(devs, side, index, ok);
      r.ret in {0, -1} && |r.devs| == |devs| &&
      (r.ret != 0 ==> exists k | 0 <= k < |devs| :: FailedAt(devs, r.devs, 0, k))
  {
    ConfigureFromEffect(devs, 0, side, index, ok);
  }

  lemma {:induction false} TeardownFromEffect(devs: seq<NicDevice>, i: nat, side: ColoMode, index: int, ok: Launcher)
    requires FirstOnlyUp(devs) && i <= |devs|
    requires forall j | 0 <= j < i :: Down(devs[j]) == devs[j]
    ensures TeardownFrom(devs, i, side, index, ok).ret == 0
    ensures TornDownFrom(devs, i, TeardownFrom(devs, i, side, index, ok).devs)
    decreases |devs| - i
  {
    if i < |devs| {
      var down := devs[i := Down(devs[i])];
      TearDownStep(devs, i, side, index, ok);
      TeardownFromEffect(down, i + 1, side, index, ok);
      LiftTornDown(devs, down, i, TeardownFrom(down, i + 1, side, index, ok).devs);
    }
  }

  /** An entry as teardown_nic leaves it: down if it has a callback, as it was otherwise. */
  function Down(d: NicDevice): NicDevice
  {
    d.(isUp := d.isUp && !d.hasConfigure)
  }

  /** What teardown_nic's walk from i did to the list: the entries before i as they were, every entry from i on brought down. */
  predicate TornDownFrom(devs: seq<NicDevice>, i: nat, after: seq<NicDevice>)
    requires i <= |devs|
  {
    |after| == |devs| &&
    (forall j | 0 <= j < i :: after[j] == devs[j]) &&
    (forall j | i <= j < |devs| :: after[j] == Down(devs[j]))
  }

  /** A teardown walk from i + 1 over the list with entry i brought down is a walk from i over the list. */
  lemma LiftTornDown(devs: seq<NicDevice>, mid: seq<NicDevice>, i: nat, after: seq<NicDevice>)
    requires i < |devs| && mid == devs[i := Down(devs[i])]
    requires TornDownFrom(mid, i + 1, after)
    ensures TornDownFrom(devs, i, after)
  {
  }

  /** Lowering some is_up flags, the clients unchanged, keeps the invariant. */
  lemma LoweredFirstOnlyUp(devs: seq<NicDevice>, lower: seq<NicDevice>)
    requires FirstOnlyUp(devs) && |lower| == |devs|
    requires forall j | 0 <= j < |devs| :: lower[j].client == devs[j].client && (lower[j].isUp ==> devs[j].isUp)
    ensures FirstOnlyUp(lower)
  {
  }

  /**
   * teardown_nic's step at entry i, the entries before it already torn down: the entry
   * goes down if it has a callback and the walk goes on. When an earlier entry is the
   * first for the same client, configure_one_nic acts on that one, which is already
   * down or has no callback, and entry i is down by the invariant.
   */
  lemma TearDownStep(devs: seq<NicDevice>, i: nat, side: ColoMode, index: int, ok: Launcher)
    requires FirstOnlyUp(devs) && i < |devs|
    requires forall j | 0 <= j < i :: Down(devs[j]) == devs[j]
    ensures var down := devs[i := Down(devs[i])];
      FirstOnlyUp(down) && (forall j | 0 <= j < i + 1 :: Down(down[j]) == down[j]) &&
      TeardownFrom(devs, i, side, index, ok).devs == TeardownFrom(down, i + 1, side, index, ok).devs &&
      TeardownFrom(devs, i, side, index, ok).ret == 0
  {
    var id := devs[i].client.id;
    var st := ConfigureOne(devs, id, false, side, index, ok);
    ConfigureOneEffect(devs, id, false, side, index, ok);
    var k := FirstWith(devs, id).value;
    var down := devs[i := Down(devs[i])];
    if k == i && devs[i].isUp && devs[i].hasConfigure {
      assert st.devs == down;
    } else {
      assert down == devs;
      assert st.devs == devs;
    }
    LoweredFirstOnlyUp(devs, down);
  }

  /**
   * teardown_nic visits every entry whatever the outcomes: in a registry where only the
   * first entry for a client is ever up, each entry with a callback ends down, one
   * without keeps its is_up, and nothing else changes.
   */
  lemma TeardownAllDown(devs: seq<NicDevice>, side: ColoMode, index: int, ok: Launcher)
    requires FirstOnlyUp(devs)
    ensures var r := TeardownFrom(devs, 0, side, index, ok);
      |r.devs| == |devs| &&
      forall j | 0 <= j < |devs| :: r.devs[j] == devs[j].(isUp := devs[j].isUp && !devs[j].hasConfigure)
  {
    TeardownFromEffect(devs, 0, side, index, ok);
  }

  /**
   * With a duplicate entry up, which the registry never produces, teardown_nic leaves it
   * up (here the whole list is left as it was): configure_one_nic only reaches the
   * first entry for a client.
   */
  lemma TeardownMissesUpDuplicate(c: NetClient, side: ColoMode, index: int, ok: Launcher)
    ensures var devs := [NicDevice(c, true, false), NicDevice(c, true, true)];
      !FirstOnlyUp(devs) && TeardownFrom(devs, 0, side, index, ok).devs == devs
  {
    var devs := [NicDevice(c, true, false), NicDevice(c, true, true)];
    assert !FirstOnlyUp(devs) by {
      assert devs[0].client.id == devs[1].client.id && devs[1].isUp;
    }
    assert FirstWith(devs, c.id) == Some(0);
    // the first entry is up without a callback, so each visit leaves the list alone
    assert ConfigureOne(devs, c.id, false, side, index, ok).devs == devs;
    assert TeardownFrom(devs, 2, side, index, ok).devs == devs;
    assert TeardownFrom(devs, 1, side, index, ok).devs == devs;
    assert TeardownFrom(devs, 0, side, index, ok).devs == devs;
  }

  // ---------------------------------------------------------------
  // The invariant FirstOnlyUp
  // ---------------------------------------------------------------

  /** configure_one_nic keeps the invariant: it only changes the first entry for the client. */
  lemma ConfigureOneKeepsFirstOnlyUp(devs: seq<NicDevice>, id: nat, up: bool, side: ColoMode, index: int, ok: Launcher)
    requires FirstOnlyUp(devs)
    ensures FirstOnlyUp(ConfigureOne(devs, id, up, side, index, ok).devs)
  {
    var r := ConfigureOne(devs, id, up, side, index, ok);
    ConfigureOneEffect(devs, id, up, side, index, ok);
    if FirstWith(devs, id).Some? {
      var k := FirstWith(devs, id).value;
      forall i, j | 0 <= i < j < |r.devs| && r.devs[i].client.id == r.devs[j].client.id
        ensures !r.devs[j].isUp
      {
        if j != k {
          assert r.devs[j] == devs[j] && r.devs[i].client == devs[i].client;
        }
      }
    }
  }

  /** configure_nic keeps the invariant, however far it gets. */
  lemma {:induction false} ConfigureFromKeepsFirstOnlyUp(devs: seq<NicDevice>, i: nat, side: ColoMode, index: int, ok: Launcher)
    requires FirstOnlyUp(devs)
    ensures FirstOnlyUp(ConfigureFrom(devs, i, side, index, ok).devs)
    decreases |devs| - i
  {
    if i < |devs| {
      var st := ConfigureOne(devs, devs[i].client.id, true, side, index, ok);
      ConfigureOneKeepsFirstOnlyUp(devs, devs[i].client.id, true, side, index, ok);
      if st.ret == 0 {
        ConfigureFromKeepsFirstOnlyUp(st.devs, i + 1, side, index, ok);
      }
    }
  }

  /** teardown_nic keeps the invariant. */
  lemma {:induction false} TeardownFromKeepsFirstOnlyUp(devs: seq<NicDevice>, i: nat, side: ColoMode, index: int, ok: Launcher)
    requires FirstOnlyUp(devs)
    ensures FirstOnlyUp(TeardownFrom(devs, i, side, index, ok).devs)
    decreases |devs| - i
  {
    if i < |devs| {
      var st := ConfigureOne(devs, devs[i].client.id, false, side, index, ok);
      ConfigureOneKeepsFirstOnlyUp(devs, devs[i].client.id, false, side, index, ok);
      TeardownFromKeepsFirstOnlyUp(st.devs, i + 1, side, index, ok);
    }
  }

  /** colo_add_nic_devices keeps the invariant: the entry it appends is down. */
  lemma AddNicKeepsFirstOnlyUp(devs: seq<NicDevice>, c: NetClient)
    requires FirstOnlyUp(devs)
    ensures FirstOnlyUp(AddNic(devs, c))
  {
    AddNicEffect(devs, c);
  }

  /** Dropping a client's entries keeps the invariant. */
  lemma {:induction false} WithoutKeepsFirstOnlyUp(devs: seq<NicDevice>, id: nat)
    requires FirstOnlyUp(devs)
    ensures FirstOnlyUp(Without(devs, id))
  {
    if |devs| > 0 {
      var tail := devs[1..];
      assert FirstOnlyUp(tail) by {
        forall i, j | 0 <= i < j < |tail| && tail[i].client.id == tail[j].client.id
          ensures !tail[j].isUp
        {
          assert tail[i] == devs[i + 1] && tail[j] == devs[j + 1];
        }
      }
      WithoutKeepsFirstOnlyUp(tail, id);
      WithoutMembers(tail, id);
      var w := Without(tail, id);
      if devs[0].client.id != id {
        var r := [devs[0]] + w;
        forall i, j | 0 <= i < j < |r| && r[i].client.id == r[j].client.id
          ensures !r[j].isUp
        {
          if i == 0 {
            assert r[j] == w[j - 1] && r[j] in tail;
            var m :| 0 <= m < |tail| && tail[m] == r[j];
            assert devs[m + 1] == r[j];
          } else {
            assert r[i] == w[i - 1] && r[j] == w[j - 1];
          }
        }
      }
    }
  }

  /** colo_remove_nic_devices keeps the invariant. */
  lemma RemoveKeepsFirstOnlyUp(devs: seq<NicDevice>, id: nat, side: ColoMode, index: int, ok: Launcher)
    requires FirstOnlyUp(devs)
    ensures FirstOnlyUp(RemoveFrom(devs, 0, id, side, index, ok).devs)
  {
    RemoveFromEffect(devs, 0, id, side, index, ok);
    WithoutKeepsFirstOnlyUp(devs, id);
  }

  /**
   * colo_proxy_init followed by colo_proxy_destroy: a registry whose entries all have
   * their callback and start down is back where it was, whether the bring-up succeeded
   * or failed part-way.
   */
  lemma InitThenDestroy(devs: seq<NicDevice>, mode: ColoMode, pid: int, ok: Launcher)
    requires DistinctIds(devs)
    requires forall j | 0 <= j < |devs| :: devs[j].hasConfigure && !devs[j].isUp
    ensures TeardownFrom(ConfigureNic(devs, mode, pid, ok).devs, 0, mode, pid, ok).devs == devs
  {
    var mid := ConfigureNic(devs, mode, pid, ok).devs;
    if |devs| > 0 {
      ConfigureFromEffect(devs, 0, mode, pid, ok);
    }
    assert SameClients(mid, devs) by {
      if |devs| > 0 {
        var r := ConfigureFrom(devs, 0, mode, pid, ok);
        if r.ret != 0 {
          var k :| 0 <= k < |devs| && FailedAt(devs, r.devs, 0, k);
        }
      }
    }
    SameIds(mid, devs);
    DistinctFirstOnlyUp(mid);
    TeardownFromEffect(mid, 0, mode, pid, ok);
    var t := TeardownFrom(mid, 0, mode, pid, ok).devs;
    forall j | 0 <= j < |devs| ensures t[j] == devs[j] {
      assert t[j] == mid[j].(isUp := false);
    }
  }

  // ---------------------------------------------------------------
  // colo_add_nic_devices and colo_remove_nic_devices
  // ---------------------------------------------------------------

  /**
   * colo_add_nic_devices: a hub port, a guest NIC or a client peered with a listed one
   * leaves the list as it is; any other client is appended at the tail, down and with
   * the configure callback, the existing entries unchanged.
   */
  lemma AddNicEffect(devs: seq<NicDevice>, c: NetClient)
    ensures var r := AddNic(devs, c);
      |r| == |devs| + 1 <==> c.kind != HubPort && c.kind != Nic && forall j | 0 <= j < |devs| :: !Peered(devs[j].client, c)
    ensures var r := AddNic(devs, c);
      r[..|devs|] == devs && (|r| == |devs| || r == devs + [NicDevice(c, true, false)])
  {
    var r := AddNic(devs, c);
    if |r| != |devs| {
      assert r[..|devs|] == devs;
    }
  }

  /** The entries for other clients than id, in list order. */
  function Without(devs: seq<NicDevice>, id: nat): (r: seq<NicDevice>)
    ensures |r| <= |devs|
  {
    if |devs| == 0 then []
    else (if devs[0].client.id == id then [] else [devs[0]]) + Without(devs[1..], id)
  }

  /** Without keeps exactly the entries for other clients. */
  lemma {:induction false} WithoutMembers(devs: seq<NicDevice>, id: nat)
    ensures forall d :: d in Without(devs, id) <==> d in devs && d.client.id != id
  {
    if |devs| > 0 {
      WithoutMembers(devs[1..], id);
      assert devs == [devs[0]] + devs[1..];
    }
  }

  lemma {:induction false} WithoutAppend(a: seq<NicDevice>, b: seq<NicDevice>, id: nat)
    ensures Without(a + b, id) == Without(a, id) + Without(b, id)
  {
    if |a| == 0 {
      assert a + b == b;
    } else {
      var h := if a[0].client.id == id then [] else [a[0]];
      calc {
        Without(a + b, id);
      == { assert (a + b)[0] == a[0]; assert (a + b)[1..] == a[1..] + b; }
        h + Without(a[1..] + b, id);
      == { WithoutAppend(a[1..], b, id); }
        h + (Without(a[1..], id) + Without(b, id));
      ==
        (h + Without(a[1..], id)) + Without(b, id);
      }
    }
  }

  lemma {:induction false} WithoutNone(a: seq<NicDevice>, id: nat)
    requires forall j | 0 <= j < |a| :: a[j].client.id != id
    ensures Without(a, id) == a
  {
    if |a| > 0 {
      WithoutNone(a[1..], id);
    }
  }

  lemma {:induction false} RemoveFromEffect(devs: seq<NicDevice>, i: nat, id: nat, side: ColoMode, index: int, ok: Launcher)
    requires i <= |devs| && forall j | 0 <= j < i :: devs[j].client.id != id
    ensures RemoveFrom(devs, i, id, side, index, ok).ret == 0
    ensures RemoveFrom(devs, i, id, side, index, ok).devs == Without(devs, id)
    decreases |devs| - i
  {
    if i == |devs| {
      WithoutNone(devs, id);
    } else if devs[i].client.id == id {
      var rest := devs[..i] + devs[i + 1..];
      RemoveStep(devs, i, id, side, index, ok);
      RemoveFromEffect(rest, i, id, side, index, ok);
      WithoutDrop(devs, i, id);
    } else {
      RemoveFromEffect(devs, i + 1, id, side, index, ok);
    }
  }

  /** The entry at i, the first for the client, is torn down and unlinked: the walk goes on over the others. */
  lemma RemoveStep(devs: seq<NicDevice>, i: nat, id: nat, side: ColoMode, index: int, ok: Launcher)
    requires i < |devs| && devs[i].client.id == id && forall j | 0 <= j < i :: devs[j].client.id != id
    ensures var rest := RemoveFrom(devs[..i] + devs[i + 1..], i, id, side, index, ok);
      RemoveFrom(devs, i, id, side, index, ok).ret == 0 &&
      RemoveFrom(devs, i, id, side, index, ok).devs == rest.devs
  {
    var st := ConfigureOne(devs, id, false, side, index, ok);
    ConfigureOneEffect(devs, id, false, side, index, ok);
    assert FirstWith(devs, id) == Some(i);
    assert st.devs[..i] + st.devs[i + 1..] == devs[..i] + devs[i + 1..];
  }

  lemma WithoutDrop(devs: seq<NicDevice>, i: nat, id: nat)
    requires i < |devs| && devs[i].client.id == id
    ensures Without(devs[..i] + devs[i + 1..], id) == Without(devs, id)
  {
    assert devs == devs[..i] + ([devs[i]] + devs[i + 1..]);
    WithoutAppend(devs[..i], [devs[i]] + devs[i + 1..], id);
    WithoutAppend([devs[i]], devs[i + 1..], id);
    WithoutAppend(devs[..i], devs[i + 1..], id);
    assert Without([devs[i]], id) == [];
  }

  /**
   * colo_remove_nic_devices drops every entry for the client and keeps the other
   * entries in their order.
   */
  lemma RemoveKeepsOthers(devs: seq<NicDevice>, id: nat, side: ColoMode, index: int, ok: Launcher)
    ensures RemoveFrom(devs, 0, id, side, index, ok).devs == Without(devs, id)
    ensures forall d :: d in RemoveFrom(devs, 0, id, side, index, ok).devs <==> d in devs && d.client.id != id
  {
    RemoveFromEffect(devs, 0, id, side, index, ok);
    WithoutMembers(devs, id);
  }

  lemma {:induction false} RemoveFromSkips(devs: seq<NicDevice>, i: nat, k: nat, id: nat, side: ColoMode, index: int, ok: Launcher)
    requires i <= k <= |devs| && forall j | i <= j < k :: devs[j].client.id != id
    ensures RemoveFrom(devs, i, id, side, index, ok) == RemoveFrom(devs, k, id, side, index, ok)
    decreases k - i
  {
    if i < k {
      RemoveFromSkips(devs, i + 1, k, id, side, index, ok);
    }
  }

  /**
   * Adding a client that is not listed and then removing it leaves the registry as it
   * was and launches nothing: the entry added is down, so its tear-down has nothing to do.
   */
  lemma AddThenRemove(devs: seq<NicDevice>, c: NetClient, side: ColoMode, index: int, ok: Launcher)
    requires forall j | 0 <= j < |devs| :: devs[j].client.id != c.id
    ensures RemoveFrom(AddNic(devs, c), 0, c.id, side, index, ok) == Outcome(0, devs, [])
  {
    var added := AddNic(devs, c);
    AddNicEffect(devs, c);
    RemoveFromSkips(added, 0, |devs|, c.id, side, index, ok);
    if |added| == |devs| {
      assert added == devs;
    } else {
      assert added == devs + [NicDevice(c, true, false)];
      assert FirstWith(added, c.id) == Some(|devs|);
      assert added[..|devs|] + added[|devs| + 1..] == devs;
    }
  }

  // ---------------------------------------------------------------
  // The scripts
  // ---------------------------------------------------------------

  lemma {:induction false} NatStringParses(n: nat)
    ensures ParseNat(NatString(n)) == n
    decreases n
  {
    var s := NatString(n);
    if n < 10 {
      assert s[..|s| - 1] == [];
    } else {
      assert s[..|s| - 1] == NatString(n / 10);
      NatStringParses(n / 10);
    }
  }

  /**
   * The argument vector of launch_colo_script: the script first, the side named
   * "secondary" exactly on the secondary, "install" exactly on the way up, then
   * the forwarding device, the tap, and the index in decimal, which reads back as
   * the index.
   */
  lemma ColoScriptArgvShape(c: NetClient, up: bool, side: ColoMode, index: int)
    ensures var argv := ColoScriptArgv(c, up, side, index);
      |argv| == 6 && argv[0] == c.script && argv[3] == c.nicname && argv[4] == c.ifname &&
      (argv[1] == "secondary" <==> side == SecondaryMode) && (argv[1] != "secondary" ==> argv[1] == "primary") &&
      (argv[2] == "install" <==> up) && (!up ==> argv[2] == "uninstall") &&
      (index >= 0 ==> ParseNat(argv[5]) == index)
  {
    if index >= 0 {
      NatStringParses(index);
    }
  }

  /**
   * launch_colo_script launches nothing and returns -1 exactly when the script, the
   * forwarding device or the tap name is empty (the side, action and index never are);
   * otherwise it launches its argument vector once and returns 0 exactly when that succeeds.
   */
  lemma ColoScriptChecksArgs(c: NetClient, up: bool, side: ColoMode, index: int, ok: Launcher)
    ensures var r := ColoScript(c, up, side, index, ok);
      (r.runs == [] <==> c.script == "" || c.nicname == "" || c.ifname == "") &&
      (r.runs == [] ==> r.ret == -1) &&
      (r.runs != [] ==> r.runs == [ColoScriptArgv(c, up, side, index)] &&
                         (r.ret == 0 <==> ok(ColoScriptArgv(c, up, side, index))))
  {
    var argv := ColoScriptArgv(c, up, side, index);
    assert argv[1] != "" && argv[2] != "" && argv[5] != "";
    if c.script == "" {
      assert argv[0] == "";
    } else if c.nicname == "" {
      assert argv[3] == "";
    } else if c.ifname == "" {
      assert argv[4] == "";
    }
  }

  /**
   * colo_nic_configure: the primary launches the COLO script alone; the secondary needs
   * its own ifup and ifdown scripts and on the way up launches its ifdown before the
   * COLO script, on the way down the COLO script before its ifup, stopping at the first
   * failure; any other side fails without launching. It returns 0 or -1, and 0 only
   * when every launch succeeded.
   */
  lemma NicConfigureSequence(c: NetClient, up: bool, side: ColoMode, index: int, ok: Launcher)
    ensures var r := NicConfigure(c, up, side, index, ok);
      r.ret in {0, -1} && (r.ret == 0 ==> forall a | a in r.runs :: ok(a))
    ensures side == PrimaryMode ==> NicConfigure(c, up, side, index, ok) == ColoScript(c, up, side, index, ok)
    ensures side == Unprotected || (side == SecondaryMode && (c.qemuIfup == "" || c.qemuIfdown == "")) ==>
              NicConfigure(c, up, side, index, ok) == Ran(-1, [])
    ensures var r := NicConfigure(c, up, side, index, ok);
      var colo := ColoScriptArgv(c, up, side, index);
      side == SecondaryMode ==>
        (up ==> r.runs <= [[c.qemuIfdown, c.ifname], colo]) &&
        (!up ==> r.runs <= [colo, [c.qemuIfup, c.ifname]]) &&
        (r.ret == 0 ==> |r.runs| == 2)
  {
    ColoScriptChecksArgs(c, up, side, index, ok);
  }
}
