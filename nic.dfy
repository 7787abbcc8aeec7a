/**
 * The COLO NIC registry of net/colo-nic.c: the list of network clients whose
 * forwarding the COLO proxy scripts set up and tear down, the bring-up and
 * tear-down of one entry and of the whole list, and the scripts each side runs.
 * launch_script is an oracle from the argument vector to success; every launch
 * is recorded, in order.
 */
module ColoNic {
  import opened Wrappers
  import opened ColoState

  /** NetClientOptionsKind, as far as the registry distinguishes it. */
  datatype ClientKind = Nic | HubPort | Tap | Other

  /**
   * A network client with its COLONicState: its identity (the pointer the registry
   * compares), its kind, the identity of its peer if it has one, and its strings.
   */
  datatype NetClient = NetClient(
    id: nat,
    kind: ClientKind,
    peer: Option<nat>,
    nicname: string,            // the forwarding device
    script: string,             // the COLO proxy script
    ifname: string,             // the tap name
    qemuIfup: string,           // the client's own ifup script ("" when unset)
    qemuIfdown: string)         // the client's own ifdown script ("" when unset)

  /** One registry entry: the client, whether it has a configure callback, and is_up. */
  datatype NicDevice = NicDevice(client: NetClient, hasConfigure: bool, isUp: bool)

  /** launch_script: whether running this argument vector succeeds. */
  type Launcher = seq<string> -> bool

  /** What a script step returns, and the scripts it launched in order. */
  datatype Ran = Ran(ret: int, runs: seq<seq<string>>)

  /** What a registry operation returns, the registry after it, and the scripts it launched in order. */
  datatype Outcome = Outcome(ret: int, devs: seq<NicDevice>, runs: seq<seq<string>>)

  // ---------------------------------------------------------------
  // The scripts
  // ---------------------------------------------------------------

  /** A decimal digit. */
  function Digit(d: nat): (c: char)
    requires d < 10
    ensures '0' <= c <= '9' && c as int - '0' as int == d
  {
    ('0' as int + d) as char
  }

  /** The decimal digits of n, most significant first, without leading zeros. */
  function NatString(n: nat): (r: string)
    ensures |r| > 0
    ensures forall i | 0 <= i < |r| :: '0' <= r[i] <= '9'
    decreases n
  {
    if n < 10 then [Digit(n)] else NatString(n / 10) + [Digit(n % 10)]
  }

  /** sprintf("%d", index). */
  function DecimalString(i: int): (r: string)
    ensures |r| > 0
  {
    if i < 0 then "-" + NatString(-i) else NatString(i)
  }

  /** The value of a string of decimal digits. */
  function ParseNat(s: string): nat
  {
    if |s| == 0 then 0
    else
      var d := s[|s| - 1] as int - '0' as int;
      ParseNat(s[..|s| - 1]) * 10 + (if 0 <= d then d else 0)
  }

  /** The six arguments launch_colo_script passes: script, side, action, nicname, ifname, index. */
  function ColoScriptArgv(c: NetClient, up: bool, side: ColoMode, index: int): (argv: seq<string>)
  {
    [c.script, if side == SecondaryMode then "secondary" else "primary",
     if up then "install" else "uninstall", c.nicname, c.ifname, DecimalString(index)]
  }

  /** launch_colo_script: -1 without launching when an argument is empty, otherwise the launch's outcome. */
  function ColoScript(c: NetClient, up: bool, side: ColoMode, index: int, ok: Launcher): Ran
  {
    var argv := ColoScriptArgv(c, up, side, index);
    if "" in argv then Ran(-1, [])
    else Ran(if ok(argv) then 0 else -1, [argv])
  }

  /** handle_old_nic_configure: the client's own ifdown (cleanup) or ifup script on its tap. */
  function OldConfigure(c: NetClient, cleanup: bool, ok: Launcher): Ran
  {
    var args := [if cleanup then c.qemuIfdown else c.qemuIfup, c.ifname];
    Ran(if ok(args) then 0 else -1, [args])
  }

  /**
   * colo_nic_configure: the primary runs the COLO script; the secondary needs its own
   * ifup and ifdown scripts, and on the way up cleans its old configuration before the
   * COLO script, on the way down restores it after; any other side fails.
   */
  function NicConfigure(c: NetClient, up: bool, side: ColoMode, index: int, ok: Launcher): Ran
  {
    match side
    case PrimaryMode => ColoScript(c, up, side, index, ok)
    case SecondaryMode =>
      if c.qemuIfup == "" || c.qemuIfdown == "" then Ran(-1, [])
      else if up then
        var prev := OldConfigure(c, true, ok);
        if prev.ret < 0 then prev
        else
          var colo := ColoScript(c, up, side, index, ok);
          Ran(colo.ret, prev.runs + colo.runs)
      else
        var colo := ColoScript(c, up, side, index, ok);
        if colo.ret < 0 then colo
        else
          var prev := OldConfigure(c, false, ok);
          Ran(prev.ret, colo.runs + prev.runs)
    case Unprotected => Ran(-1, [])
  }

  // ---------------------------------------------------------------
  // The registry
  // ---------------------------------------------------------------

  /** The position of the first entry for the client with this identity. */
  function FirstWith(devs: seq<NicDevice>, id: nat): (r: Option<nat>)
    ensures r.Some? ==> r.value < |devs| && devs[r.value].client.id == id
    ensures r.Some? ==> forall j | 0 <= j < r.value :: devs[j].client.id != id
    ensures r.None? <==> forall j | 0 <= j < |devs| :: devs[j].client.id != id
  {
    if |devs| == 0 then None
    else if devs[0].client.id == id then Some(0)
    else
      match FirstWith(devs[1..], id)
      case None => None
      case Some(k) => Some(k + 1)
  }

  /**
   * configure_one_nic: on the first entry for the client, nothing to do when it is
   * already in the requested state; otherwise its configure callback runs, and is_up
   * takes the new state unless bringing it up failed. A missing entry or callback is -1.
   */
  function ConfigureOne(devs: seq<NicDevice>, id: nat, up: bool, side: ColoMode, index: int, ok: Launcher): (r: Outcome)
    ensures |r.devs| == |devs|
    ensures FirstWith(devs, id).None? ==> r.devs == devs
  {
    match FirstWith(devs, id)
    case None => Outcome(-1, devs, [])
    case Some(k) =>
      var nic := devs[k];
      if up == nic.isUp then Outcome(0, devs, [])
      else if !nic.hasConfigure then Outcome(-1, devs, [])
      else
        var ran := NicConfigure(nic.client, up, side, index, ok);
        // a failed bring-down still counts as down
        if ran.ret != 0 && up then Outcome(-1, devs, ran.runs)
        else Outcome(0, devs[k := nic.(isUp := up)], ran.runs)
  }

  /** configure_nic from position i on: each entry brought up in turn, stopping at the first failure. */
  function ConfigureFrom(devs: seq<NicDevice>, i: nat, side: ColoMode, index: int, ok: Launcher): Outcome
    decreases |devs| - i
  {
    if i >= |devs| then Outcome(0, devs, [])
    else
      var st := ConfigureOne(devs, devs[i].client.id, true, side, index, ok);
      if st.ret != 0 then Outcome(-1, st.devs, st.runs)
      else
        var rest := ConfigureFrom(st.devs, i + 1, side, index, ok);
        Outcome(rest.ret, rest.devs, st.runs + rest.runs)
  }

  /** configure_nic: -1 on an empty registry, otherwise every entry brought up in list order. */
  function ConfigureNic(devs: seq<NicDevice>, side: ColoMode, index: int, ok: Launcher): Outcome
  {
    if |devs| == 0 then Outcome(-1, devs, []) else ConfigureFrom(devs, 0, side, index, ok)
  }

  /** teardown_nic from position i on: every entry brought down, whatever the outcomes. */
  function TeardownFrom(devs: seq<NicDevice>, i: nat, side: ColoMode, index: int, ok: Launcher): Outcome
    decreases |devs| - i
  {
    if i >= |devs| then Outcome(0, devs, [])
    else
      var st := ConfigureOne(devs, devs[i].client.id, false, side, index, ok);
      var rest := TeardownFrom(st.devs, i + 1, side, index, ok);
      Outcome(0, rest.devs, st.runs + rest.runs)
  }

  /** One step of configure_nic, with the launches so far in front of the rest. */
  lemma ConfigureFromStep(devs: seq<NicDevice>, i: nat, side: ColoMode, index: int, ok: Launcher, before: seq<seq<string>>)
    requires i < |devs|
    ensures var st := ConfigureOne(devs, devs[i].client.id, true, side, index, ok);
      var r := ConfigureFrom(devs, i, side, index, ok);
      st.ret != 0 ==> r.ret == -1 && r.devs == st.devs && before + r.runs == before + st.runs + []
    ensures var st := ConfigureOne(devs, devs[i].client.id, true, side, index, ok);
      var r := ConfigureFrom(devs, i, side, index, ok);
      var rest := ConfigureFrom(st.devs, i + 1, side, index, ok);
      st.ret == 0 ==> r.ret == rest.ret && r.devs == rest.devs && before + r.runs == before + st.runs + rest.runs
  {
    var st := ConfigureOne(devs, devs[i].client.id, true, side, index, ok);
    var rest := ConfigureFrom(st.devs, i + 1, side, index, ok);
    assert before + (st.runs + rest.runs) == before + st.runs + rest.runs;
    assert before + st.runs + [] == before + st.runs;
  }

  /** One step of teardown_nic, with the launches so far in front of the rest. */
  lemma TeardownFromStep(devs: seq<NicDevice>, i: nat, side: ColoMode, index: int, ok: Launcher, before: seq<seq<string>>)
    requires i < |devs|
    ensures var st := ConfigureOne(devs, devs[i].client.id, false, side, index, ok);
      var rest := TeardownFrom(st.devs, i + 1, side, index, ok);
      var r := TeardownFrom(devs, i, side, index, ok);
      r.devs == rest.devs && before + r.runs == before + st.runs + rest.runs
  {
    var st := ConfigureOne(devs, devs[i].client.id, false, side, index, ok);
    var rest := TeardownFrom(st.devs, i + 1, side, index, ok);
    assert before + (st.runs + rest.runs) == before + st.runs + rest.runs;
  }

  /** Two clients peered with each other, as colo_add_nic_devices tests it in either direction. */
  predicate Peered(listed: NetClient, c: NetClient)
  {
    listed.peer == Some(c.id) || c.peer == Some(listed.id)
  }

  /**
   * colo_add_nic_devices: hub ports and guest NICs are not registered, nor a client
   * peered with a registered one; any other client is appended, down, with the
   * colo_nic_configure callback.
   */
  function AddNic(devs: seq<NicDevice>, c: NetClient): seq<NicDevice>
  {
    if c.kind == HubPort || c.kind == Nic then devs
    else if exists j | 0 <= j < |devs| :: Peered(devs[j].client, c) then devs
    else devs + [NicDevice(c, true, false)]
  }

  /** colo_remove_nic_devices from position i on: each entry for the client brought down and unlinked. */
  function RemoveFrom(devs: seq<NicDevice>, i: nat, id: nat, side: ColoMode, index: int, ok: Launcher): Outcome
    decreases |devs| - i
  {
    if i >= |devs| then Outcome(0, devs, [])
    else if devs[i].client.id == id then
      var st := ConfigureOne(devs, id, false, side, index, ok);
      var rest := RemoveFrom(st.devs[..i] + st.devs[i + 1..], i, id, side, index, ok);
      Outcome(0, rest.devs, st.runs + rest.runs)
    else RemoveFrom(devs, i + 1, id, side, index, ok)
  }

  /** The process's registry and the scripts it has launched. */
  class NicRegistry {
    var devices: seq<NicDevice>
    var launched: seq<seq<string>>

    constructor ()
      ensures devices == [] && launched == []
    {
      devices := [];
      launched := [];
    }

    method LaunchColoScript(c: NetClient, up: bool, side: ColoMode, index: int, ok: Launcher) returns (ret: int)
      modifies this
      ensures ret == ColoScript(c, up, side, index, ok).ret
      ensures launched == old(launched) + ColoScript(c, up, side, index, ok).runs && devices == old(devices)
    {
      var argv := ColoScriptArgv(c, up, side, index);
      var i := 0;
      while i < |argv|
        invariant 0 <= i <= |argv|
        invariant forall j | 0 <= j < i :: argv[j] != ""
      {
        if argv[i] == "" {
          // a missing argument: nothing is launched
          return -1;
        }
        i := i + 1;
      }
      launched := launched + [argv];
      ret := if ok(argv) then 0 else -1;
    }

    method HandleOldNicConfigure(c: NetClient, cleanup: bool, ok: Launcher) returns (ret: int)
      modifies this
      ensures ret == OldConfigure(c, cleanup, ok).ret
      ensures launched == old(launched) + OldConfigure(c, cleanup, ok).runs && devices == old(devices)
    {
      var args := [if cleanup then c.qemuIfdown else c.qemuIfup, c.ifname];
      launched := launched + [args];
      ret := if ok(args) then 0 else -1;
    }

    method ColoNicConfigure(c: NetClient, up: bool, side: ColoMode, index: int, ok: Launcher) returns (ret: int)
      modifies this
      ensures ret == NicConfigure(c, up, side, index, ok).ret
      ensures launched == old(launched) + NicConfigure(c, up, side, index, ok).runs && devices == old(devices)
    {
      match side {
        case PrimaryMode =>
          ret := LaunchColoScript(c, up, side, index, ok);
        case SecondaryMode =>
          if c.qemuIfup == "" || c.qemuIfdown == "" {
            return -1;
          }
          if up {
            ret := HandleOldNicConfigure(c, true, ok);
            if ret < 0 {
              return;
            }
            ret := LaunchColoScript(c, up, side, index, ok);
          } else {
            ret := LaunchColoScript(c, up, side, index, ok);
            if ret < 0 {
              return;
            }
            ret := HandleOldNicConfigure(c, false, ok);
          }
        case Unprotected =>
          ret := -1;
      }
    }

    method ConfigureOneNic(id: nat, up: bool, side: ColoMode, index: int, ok: Launcher) returns (ret: int)
      modifies this
      ensures var r := ConfigureOne(old(devices), id, up, side, index, ok);
        ret == r.ret && devices == r.devs && launched == old(launched) + r.runs
    {
      var k := 0;
      while k < |devices| && devices[k].client.id != id
        invariant 0 <= k <= |devices|
        invariant forall j | 0 <= j < k :: devices[j].client.id != id
      {
        k := k + 1;
      }
      if k == |devices| {
        return -1;
      }
      assert FirstWith(devices, id) == Some(k);
      var nic := devices[k];
      if up == nic.isUp {
        return 0;
      }
      if !nic.hasConfigure {
        return -1;
      }
      var r := ColoNicConfigure(nic.client, up, side, index, ok);
      if r != 0 && up {
        return -1;
      }
      devices := devices[k := nic.(isUp := up)];
      return 0;
    }

    method ConfigureNics(side: ColoMode, index: int, ok: Launcher) returns (ret: int)
      modifies this
      ensures var r := ConfigureNic(old(devices), side, index, ok);
        ret == r.ret && devices == r.devs && launched == old(launched) + r.runs
    {
      if |devices| == 0 {
        return -1;
      }
      ghost var total := ConfigureFrom(devices, 0, side, index, ok);
      ghost var start := launched;
      var i := 0;
      while i < |devices|
        invariant 0 <= i <= |devices|
        invariant total.ret == ConfigureFrom(devices, i, side, index, ok).ret
        invariant total.devs == ConfigureFrom(devices, i, side, index, ok).devs
        invariant start + total.runs == launched + ConfigureFrom(devices, i, side, index, ok).runs
        decreases |devices| - i
      {
        ConfigureFromStep(devices, i, side, index, ok, launched);
        var r := ConfigureOneNic(devices[i].client.id, true, side, index, ok);
        if r != 0 {
          return -1;
        }
        i := i + 1;
      }
      assert launched + [] == launched;
      return 0;
    }

    method TeardownNics(side: ColoMode, index: int, ok: Launcher)
      modifies this
      ensures var r := TeardownFrom(old(devices), 0, side, index, ok);
        devices == r.devs && launched == old(launched) + r.runs
    {
      ghost var total := TeardownFrom(devices, 0, side, index, ok);
      ghost var start := launched;
      var i := 0;
      while i < |devices|
        invariant 0 <= i <= |devices|
        invariant total.devs == TeardownFrom(devices, i, side, index, ok).devs
        invariant start + total.runs == launched + TeardownFrom(devices, i, side, index, ok).runs
        decreases |devices| - i
      {
        TeardownFromStep(devices, i, side, index, ok, launched);
        var _ := ConfigureOneNic(devices[i].client.id, false, side, index, ok);
        i := i + 1;
      }
      assert launched + [] == launched;
    }

    method AddNicDevice(c: NetClient)
      modifies this
      ensures devices == AddNic(old(devices), c) && launched == old(launched)
    {
      if c.kind == HubPort || c.kind == Nic {
        return;
      }
      var i := 0;
      while i < |devices|
        invariant 0 <= i <= |devices|
        invariant forall j | 0 <= j < i :: !Peered(devices[j].client, c)
      {
        if Peered(devices[i].client, c) {
          return;
        }
        i := i + 1;
      }
      devices := devices + [NicDevice(c, true, false)];
    }

    method RemoveNicDevices(id: nat, side: ColoMode, index: int, ok: Launcher)
      modifies this
      ensures var r := RemoveFrom(old(devices), 0, id, side, index, ok);
        devices == r.devs && launched == old(launched) + r.runs
    {
      ghost var total := RemoveFrom(devices, 0, id, side, index, ok);
      ghost var start := launched;
      var i := 0;
      while i < |devices|
        invariant 0 <= i <= |devices|
        invariant total.devs == RemoveFrom(devices, i, id, side, index, ok).devs
        invariant start + total.runs == launched + RemoveFrom(devices, i, id, side, index, ok).runs
        decreases |devices| - i
      {
        if devices[i].client.id == id {
          ghost var before := launched;
          ghost var st := ConfigureOne(devices, id, false, side, index, ok);
          ghost var rest := RemoveFrom(st.devs[..i] + st.devs[i + 1..], i, id, side, index, ok);
          var _ := ConfigureOneNic(id, false, side, index, ok);
          devices := devices[..i] + devices[i + 1..];
          assert before + (st.runs + rest.runs) == before + st.runs + rest.runs;
        } else {
          i := i + 1;
        }
      }
      assert launched + [] == launched;
    }

    /** colo_proxy_init: every registered client brought up for this side. */
    method ProxyInit(mode: ColoMode, pid: int, ok: Launcher) returns (ret: int)
      modifies this
      ensures var r := ConfigureNic(old(devices), mode, pid, ok);
        ret == r.ret && devices == r.devs && launched == old(launched) + r.runs
    {
      ret := ConfigureNics(mode, pid, ok);
    }

    /** colo_proxy_destroy: every registered client brought down. */
    method ProxyDestroy(mode: ColoMode, pid: int, ok: Launcher)
      modifies this
      ensures var r := TeardownFrom(old(devices), 0, mode, pid, ok);
        devices == r.devs && launched == old(launched) + r.runs
    {
      TeardownNics(mode, pid, ok);
    }
  }
}
