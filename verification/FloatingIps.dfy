/** Floating IP addresses of IBM Z instances: pkg/ibm/ibmz_helpers.go:202-330. */
module FloatingIps {
  import opened Collections

  datatype Status = Deleting | Failed | Pending | Restarting | Starting | Stopped | Stopping | Running

  /** The floating IP addresses of the resource group in the order they are listed, which of them are attached to
      which instance, and the instances that exist. */
  datatype Region = Region(ips: seq<string>, attached: set<(string, string)>, live: set<string>)

  datatype Calls = Calls(
    interfaceFails: bool,      // listing the addresses of the instance's network interface
    listFails: bool,           // listing all floating addresses
    attachFails: bool,         // attaching an available address
    createFails: bool,
    created: string,           // the address that is created
    newAttachFails: bool)      // attaching the created address

  /** "" stands for an address that is not there yet. */
  datatype Answer = Address(text: string) | Problem

  predicate Available(r: Region, ip: string) {
    forall p :: p in r.attached ==> p.0 != ip
  }

  /** The addresses attached to `inst`, in the order they are listed. */
  function OwnIps(r: Region, inst: string): seq<string> {
    Owned(r.ips, r.attached, inst)
  }

  function Owned(ips: seq<string>, attached: set<(string, string)>, inst: string): (own: seq<string>)
    ensures forall ip :: ip in own <==> ip in ips && (ip, inst) in attached
  {
    if ips == [] then []
    else (if (ips[0], inst) in attached then [ips[0]] else []) + Owned(ips[1..], attached, inst)
  }

  function Attach(r: Region, ip: string, inst: string): Region {
    r.(attached := r.attached + {(ip, inst)})
  }

  // ---- assignIPToInstance -----------------------------------------------------------------------

  predicate Exhausted(r: Region) {
    forall i :: 0 <= i < |r.ips| ==> !Available(r, r.ips[i])
  }

  /** The first available address of the list. */
  function FirstAvailable(r: Region, n: nat): (i: nat)
    requires n <= |r.ips| && exists k :: n <= k < |r.ips| && Available(r, r.ips[k])
    ensures n <= i < |r.ips| && Available(r, r.ips[i])
    ensures forall k :: n <= k < i ==> !Available(r, r.ips[k])
    decreases |r.ips| - n
  {
    if Available(r, r.ips[n]) then n else FirstAvailable(r, n + 1)
  }

  function Reuse(r: Region, inst: string, c: Calls): (Region, Answer) {
    if c.listFails then (r, Problem)
    else if Exhausted(r) then (r, Address(""))
    else
      var ip := r.ips[FirstAvailable(r, 0)];
      if c.attachFails then (r, Problem) else (Attach(r, ip, inst), Address(ip))
  }

  function Create(r: Region, inst: string, c: Calls): (Region, Answer) {
    if c.createFails then (r, Problem)
    else
      var r' := r.(ips := r.ips + [c.created]);
      if c.newAttachFails then (r', Problem) else (Attach(r', c.created, inst), Address(c.created))
  }

  function Assign(r: Region, inst: string, status: Status, c: Calls): (Region, Answer) {
    if !c.interfaceFails && OwnIps(r, inst) != [] then (r, Address(OwnIps(r, inst)[0]))
    else
      match status
      case Deleting => (r, Problem)
      case Failed => (r, Problem)
      case Stopped => (r, Problem)
      case Stopping => (r, Problem)
      case Pending => (r, Address(""))
      case Restarting => (r, Address(""))
      case Starting => (r, Address(""))
      case Running =>
        var (r', a) := Reuse(r, inst, c);
        if a != Address("") then (r', a) else Create(r', inst, c)
  }

  class Vpc {
    var region: Region

    constructor (r: Region)
      ensures region == r
    {
      region := r;
    }

    method AssignFloatingIp(inst: string, c: Calls) returns (a: Answer)
      modifies this
      ensures (region, a) == Reuse(old(region), inst, c)
    {
      if c.listFails {
        return Problem;
      }
      var listed := region.ips;
      for i := 0 to |listed|
        invariant region == old(region)
        invariant forall k :: 0 <= k < i ==> !Available(region, listed[k])
      {
        if Available(region, listed[i]) {
          assert !Exhausted(region);
          assert FirstAvailable(region, 0) == i;
          if c.attachFails {
            return Problem;
          }
          region := Attach(region, listed[i], inst);
          return Address(listed[i]);
        }
      }
      return Address("");
    }

    method AssignNewlyAllocatedIp(inst: string, c: Calls) returns (a: Answer)
      modifies this
      ensures (region, a) == Create(old(region), inst, c)
    {
      if c.createFails {
        return Problem;
      }
      region := region.(ips := region.ips + [c.created]);
      if c.newAttachFails {
        return Problem;
      }
      region := Attach(region, c.created, inst);
      return Address(c.created);
    }

    method AssignIpToInstance(inst: string, status: Status, c: Calls) returns (a: Answer)
      modifies this
      ensures (region, a) == Assign(old(region), inst, status, c)
    {
      if !c.interfaceFails {
        var own := OwnIps(region, inst);
        if |own| > 0 {
          return Address(own[0]);
        }
      }
      if status.Deleting? || status.Failed? || status.Stopped? || status.Stopping? {
        return Problem;
      }
      if !status.Running? {
        return Address("");
      }
      a := AssignFloatingIp(inst, c);
      if a != Address("") {
        return;
      }
      a := AssignNewlyAllocatedIp(inst, c);
    }
  }

  // ---- one address per instance, one instance per address --------------------------------------------

  ghost predicate Known(r: Region) {
    && Distinct(r.ips) && "" !in r.ips
    && forall p :: p in r.attached ==> p.0 in r.ips && p.1 in r.live
  }

  ghost predicate OneInstancePerIp(r: Region) {
    forall p, q :: p in r.attached && q in r.attached && p.0 == q.0 ==> p == q
  }

  ghost predicate OneIpPerInstance(r: Region) {
    forall p, q :: p in r.attached && q in r.attached && p.1 == q.1 ==> p == q
  }

  ghost predicate Sane(r: Region) {
    Known(r) && OneInstancePerIp(r) && OneIpPerInstance(r)
  }

  /** The call attaches an address if it gets as far as looking for one. */
  predicate Attaches(r: Region, c: Calls) {
    !c.listFails && if Exhausted(r) then !c.createFails && !c.newAttachFails else !c.attachFails
  }

  /** The instance has an address, which the failed list call hides, and gets another one. */
  predicate Blind(r: Region, inst: string, status: Status, c: Calls) {
    c.interfaceFails && OwnIps(r, inst) != [] && status.Running? && Attaches(r, c)
  }

  predicate Fresh(r: Region, c: Calls) {
    c.created !in r.ips && c.created != ""
  }

  lemma AttachKeeps(r: Region, ip: string, inst: string)
    requires Sane(r) && ip in r.ips && Available(r, ip) && inst in r.live
    ensures var r' := Attach(r, ip, inst); Known(r') && OneInstancePerIp(r')
    ensures OneIpPerInstance(Attach(r, ip, inst)) <==> OwnIps(r, inst) == []
  {
    var r' := Attach(r, ip, inst);
    var own := OwnIps(r, inst);
    if own != [] {
      assert own[0] in own;
      var p, q := (own[0], inst), (ip, inst);
      assert p in r.attached && p in r'.attached && q in r'.attached;
      assert p.0 != ip;
      assert p.1 == q.1 && p != q;
    } else {
      forall p | p in r.attached ensures p.1 != inst {
        assert p.0 in own <==> p.0 in r.ips && (p.0, inst) in r.attached;
        assert p == (p.0, p.1);
      }
    }
  }

  lemma CreatedIsAvailable(r: Region, c: Calls)
    requires Known(r) && Fresh(r, c)
    ensures var r' := r.(ips := r.ips + [c.created]);
      && Known(r') && (OneInstancePerIp(r) ==> OneInstancePerIp(r')) && (OneIpPerInstance(r) ==> OneIpPerInstance(r'))
      && Available(r', c.created) && c.created in r'.ips
  {
  }

  lemma CreatedOwns(r: Region, c: Calls, inst: string)
    requires Known(r) && Fresh(r, c)
    ensures OwnIps(r.(ips := r.ips + [c.created]), inst) == [] <==> OwnIps(r, inst) == []
  {
    var r' := r.(ips := r.ips + [c.created]);
    assert OwnIps(r', inst) != [] ==> OwnIps(r', inst)[0] in OwnIps(r', inst);
    assert OwnIps(r, inst) != [] ==> OwnIps(r, inst)[0] in OwnIps(r, inst);
    assert (c.created, inst) !in r.attached;
    forall ip | ip in r.ips ensures ip in OwnIps(r', inst) <==> ip in OwnIps(r, inst) {}
  }

  /** A call keeps every address on one instance, and keeps one address per instance exactly unless the list call that
      would have shown the instance's address failed and the instance is given another. */
  lemma AssignKeeps(r: Region, inst: string, status: Status, c: Calls)
    requires Sane(r) && inst in r.live && Fresh(r, c)
    ensures var r' := Assign(r, inst, status, c).0;
      Known(r') && OneInstancePerIp(r') && (OneIpPerInstance(r') <==> !Blind(r, inst, status, c))
  {
    if status.Running? && (c.interfaceFails || OwnIps(r, inst) == []) && !c.listFails {
      hide Sane, Known, OneInstancePerIp, OneIpPerInstance, OwnIps, Available;
      if Exhausted(r) {
        CreateKeeps(r, inst, c);
      } else {
        ReuseKeeps(r, inst, c);
      }
    }
  }

  lemma ReuseKeeps(r: Region, inst: string, c: Calls)
    requires Sane(r) && inst in r.live && !Exhausted(r) && !c.listFails
    ensures var (r', a) := Reuse(r, inst, c);
      && Known(r') && OneInstancePerIp(r') && (OneIpPerInstance(r') <==> c.attachFails || OwnIps(r, inst) == []) && a != Address("")
  {
    var ip := r.ips[FirstAvailable(r, 0)];
    AttachKeeps(r, ip, inst);
    hide Known, OneInstancePerIp, OneIpPerInstance, OwnIps;
    assert ip != "" by { assert Known(r); NoEmptyIp(r, ip); }
  }

  lemma NoEmptyIp(r: Region, ip: string)
    requires Known(r) && ip in r.ips
    ensures ip != ""
  {
  }

  lemma CreateKeeps(r: Region, inst: string, c: Calls)
    requires Sane(r) && inst in r.live && Fresh(r, c)
    ensures var r' := Create(r, inst, c).0;
      && Known(r') && OneInstancePerIp(r')
      && (OneIpPerInstance(r') <==> c.createFails || c.newAttachFails || OwnIps(r, inst) == [])
  {
    CreatedIsAvailable(r, c);
    CreatedOwns(r, c, inst);
    hide Known, OneInstancePerIp, OneIpPerInstance, OwnIps, Available;
    if !c.createFails && !c.newAttachFails {
      AttachKeeps(r.(ips := r.ips + [c.created]), c.created, inst);
    }
  }

  lemma OwnIsAttached(r: Region, inst: string)
    requires OwnIps(r, inst) != []
    ensures (OwnIps(r, inst)[0], inst) in r.attached
  {
    assert OwnIps(r, inst)[0] in OwnIps(r, inst);
  }

  /** What a call answers: an address that the instance has is found and nothing changes. Otherwise a running instance gets
      the first available address, or a new one if none is available, as soon as the calls succeed; one that is not running
      yet has none, and one that never will be is a problem. */
  lemma AssignAnswers(r: Region, inst: string, status: Status, c: Calls)
    requires "" !in r.ips && Fresh(r, c)
    ensures var (r', a) := Assign(r, inst, status, c);
      && (a.Address? && a.text != "" ==> (a.text, inst) in r'.attached)
      && (!c.interfaceFails && OwnIps(r, inst) != [] ==> a.Address? && a.text != "" && r' == r)
      && (c.interfaceFails || OwnIps(r, inst) == [] ==>
            && (status.Running? ==>
                  && (Attaches(r, c) <==> a.Address?)
                  && (a.Address? ==> a.text != "" && if Exhausted(r) then a.text == c.created && r'.ips == r.ips + [c.created] else a.text in r.ips && r'.ips == r.ips))
            && (status.Pending? || status.Restarting? || status.Starting? ==> (r', a) == (r, Address("")))
            && (status.Deleting? || status.Failed? || status.Stopped? || status.Stopping? ==> (r', a) == (r, Problem)))
  {
    if OwnIps(r, inst) != [] {
      OwnIsAttached(r, inst);
      assert OwnIps(r, inst)[0] in OwnIps(r, inst);
    }
    hide OwnIps, Available;
    if !Exhausted(r) {
      assert r.ips[FirstAvailable(r, 0)] in r.ips;
    }
  }

  /** Two addresses for one instance, after the list call for its network interface failed. */
  lemma BlindExample()
    ensures var r := Region(["a", "b"], {("a", "vm")}, {"vm"});
      var c := Calls(true, false, false, false, "c", false);
      Sane(r) && !OneIpPerInstance(Assign(r, "vm", Running, c).0)
  {
    var r := Region(["a", "b"], {("a", "vm")}, {"vm"});
    var c := Calls(true, false, false, false, "c", false);
    assert Sane(r);
    assert Available(r, r.ips[1]);
    assert OwnIps(r, "vm") != [] by {
      assert r.ips[0] == "a" && "a" in r.ips;
      assert "a" in OwnIps(r, "vm");
    }
    hide OwnIps;
    AssignKeeps(r, "vm", Running, c);
  }

  // ---- the number of addresses ------------------------------------------------------------------------

  datatype Event =
    | Requested(inst: string, status: Status, c: Calls)
    | Launched(inst: string)
    | Terminated(inst: string)      // the instance goes and its address becomes available
    | Released(ip: string)          // somebody gives an available address back

  ghost predicate Admissible(r: Region, e: Event) {
    match e
    case Requested(inst, _, c) => inst in r.live && Fresh(r, c) && !c.interfaceFails
    case Launched(inst) => inst !in r.live
    case Terminated(inst) => inst in r.live
    case Released(ip) => ip in r.ips && Available(r, ip)
  }

  function Removed(ips: seq<string>, ip: string): (rest: seq<string>)
    ensures |rest| <= |ips|
    ensures forall i :: i in rest <==> i in ips && i != ip
  {
    if ips == [] then [] else (if ips[0] == ip then [] else [ips[0]]) + Removed(ips[1..], ip)
  }

  function Step(r: Region, e: Event): Region {
    match e
    case Requested(inst, status, c) => Assign(r, inst, status, c).0
    case Launched(inst) => r.(live := r.live + {inst})
    case Terminated(inst) => r.(live := r.live - {inst}, attached := set p | p in r.attached && p.1 != inst)
    case Released(ip) => r.(ips := Removed(r.ips, ip))
  }

  lemma {:induction false} RemovedDistinct(ips: seq<string>, ip: string)
    requires Distinct(ips)
    ensures Distinct(Removed(ips, ip))
  {
    if ips != [] {
      assert forall i :: 0 < i < |ips| ==> ips[i] == ips[1..][i - 1];
      RemovedDistinct(ips[1..], ip);
      assert ips[0] !in ips[1..];
      var rest := Removed(ips[1..], ip);
      assert ips[0] !in rest;
      assert forall i :: 0 < i < |rest| + 1 ==> ([ips[0]] + rest)[i] == rest[i - 1];
    }
  }

  lemma StepKeeps(r: Region, e: Event)
    requires Sane(r) && Admissible(r, e)
    ensures Sane(Step(r, e))
  {
    match e
    case Requested(inst, status, c) => AssignKeeps(r, inst, status, c);
    case Released(ip) => RemovedDistinct(r.ips, ip);
    case _ =>
  }

  function Addresses(pairs: set<(string, string)>): set<string> {
    set p | p in pairs :: p.0
  }

  function Instances(pairs: set<(string, string)>): set<string> {
    set p | p in pairs :: p.1
  }

  lemma {:induction false} AddressesSize(pairs: set<(string, string)>)
    requires forall p, q :: p in pairs && q in pairs && p.0 == q.0 ==> p == q
    ensures |Addresses(pairs)| == |pairs|
  {
    if pairs != {} {
      var p :| p in pairs;
      var rest := pairs - {p};
      AddressesSize(rest);
      assert Addresses(pairs) == Addresses(rest) + {p.0};
      assert p.0 !in Addresses(rest);
    }
  }

  lemma {:induction false} InstancesSize(pairs: set<(string, string)>)
    requires forall p, q :: p in pairs && q in pairs && p.1 == q.1 ==> p == q
    ensures |Instances(pairs)| == |pairs|
  {
    if pairs != {} {
      var p :| p in pairs;
      var rest := pairs - {p};
      InstancesSize(rest);
      assert Instances(pairs) == Instances(rest) + {p.1};
      assert p.1 !in Instances(rest);
    }
  }

  /** If no address is available and `inst` has none, there are fewer addresses than instances. */
  lemma RoomForOneMore(r: Region, inst: string)
    requires Sane(r) && inst in r.live && Exhausted(r) && OwnIps(r, inst) == []
    ensures |r.ips| < |r.live|
  {
    var used, busy := Addresses(r.attached), Instances(r.attached);
    forall ip | ip in r.ips ensures ip in used {
      var i :| 0 <= i < |r.ips| && r.ips[i] == ip;
      assert !Available(r, r.ips[i]);
    }
    assert used == Elements(r.ips);
    DistinctSize(r.ips);
    AddressesSize(r.attached);
    InstancesSize(r.attached);
    assert busy <= r.live - {inst} by {
      forall p | p in r.attached ensures p.1 != inst {
        assert p == (p.0, p.1);
        assert p.1 == inst ==> p.0 in OwnIps(r, inst);
      }
    }
    hide *;
    SubsetSize(busy, r.live - {inst});
    assert |r.live - {inst}| == |r.live| - 1;
  }

  /** A step adds an address only where there are more instances than addresses. */
  lemma StepTotal(r: Region, e: Event)
    requires Sane(r) && Admissible(r, e)
    ensures |Step(r, e).ips| <= |r.ips| || |Step(r, e).ips| <= |Step(r, e).live|
  {
    if e.Requested? && OwnIps(r, e.inst) == [] && Exhausted(r) {
      RoomForOneMore(r, e.inst);
    }
    hide Sane, OwnIps;
  }

  ghost predicate Leads(r: Region, r': Region) {
    exists e :: Admissible(r, e) && r' == Step(r, e)
  }

  ghost predicate Run(rs: seq<Region>) {
    |rs| > 0 && Sane(rs[0]) && forall k :: 0 < k < |rs| ==> Leads(rs[k - 1], rs[k])
  }

  /** In every run in which the interface lists can be read, an address is on one instance and an instance has one address. */
  lemma {:induction false} RunIsSane(rs: seq<Region>, k: nat)
    requires Run(rs) && k < |rs|
    ensures Sane(rs[k])
  {
    if k > 0 {
      RunIsSane(rs, k - 1);
      assert Leads(rs[k - 1], rs[k]);
      var e :| Admissible(rs[k - 1], e) && rs[k] == Step(rs[k - 1], e);
      hide Sane, Admissible, Step;
      StepKeeps(rs[k - 1], e);
    }
  }

  /** The addresses are no more than at the start or than the instances at some time so far. */
  ghost predicate WithinPeak(rs: seq<Region>, k: nat)
    requires k < |rs|
  {
    |rs[k].ips| <= |rs[0].ips| || exists j :: 0 <= j <= k && |rs[k].ips| <= |rs[j].live|
  }

  lemma StepWithinPeak(rs: seq<Region>, k: nat)
    requires k + 1 < |rs| && WithinPeak(rs, k)
    requires |rs[k + 1].ips| <= |rs[k].ips| || |rs[k + 1].ips| <= |rs[k + 1].live|
    ensures WithinPeak(rs, k + 1)
  {
  }

  /** The addresses never outnumber the larger of the initial number and the peak number of instances, even where
      attaching a created address fails. */
  lemma {:induction false} TotalBounded(rs: seq<Region>, k: nat)
    requires Run(rs) && k < |rs|
    ensures WithinPeak(rs, k)
  {
    if k > 0 {
      TotalBounded(rs, k - 1);
      RunIsSane(rs, k - 1);
      assert Leads(rs[k - 1], rs[k]);
      var e :| Admissible(rs[k - 1], e) && rs[k] == Step(rs[k - 1], e);
      hide Sane, Admissible, Step, Run, WithinPeak;
      StepTotal(rs[k - 1], e);
      StepWithinPeak(rs, k - 1);
    }
  }
}
