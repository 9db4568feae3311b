/**
 * components/GeneralOnboardings.tsx: the registration wizards for clients,
 * property managers, fleets, enterprises, work crews and government
 * departments.  Each wizard keeps a `step` counter that Next raises by one
 * until the last step, where Next hands a PENDING record to `onRegister`
 * instead; Back lowers it, never below 1.  The handed-over record is the
 * `submitted` out-parameter here, since the caller's `onRegister` is not
 * part of these components.  The approval screen's "simulate" button hands
 * the same record back with only its status set to VERIFIED.
 *
 * `now` stands for `Date.now()`, and `parseInt` for the built-in of that
 * name (`None` is `NaN`).
 */
module GeneralOnboardings {
  import opened Wrappers
  import opened Strings
  import opened Types
  import EnterpriseView
  import PropertyView
  import Counters

  // -------------------------------------------------------------- client

  datatype ClientData = ClientData(name: string, phone: string, address: string)

  const ClientSteps: int := 2

  function NewClient(data: ClientData, now: nat): (p: ClientProfile)
    ensures p.id == "client-" + NatToString(now) && p.status == ProfileStatus.Pending
    ensures p.name == data.name && p.phone == data.phone && p.defaultAddress == Some(data.address)
  {
    ClientProfile("client-" + NatToString(now), data.name, data.phone, Some(data.address), ProfileStatus.Pending)
  }

  function ApprovedClient(p: ClientProfile): (r: ClientProfile)
    ensures r.status == Verified && r.(status := p.status) == p
  {
    p.(status := Verified)
  }

  class ClientWizard {
    var step: int
    var data: ClientData

    ghost predicate Valid()
      reads this
    {
      1 <= step <= ClientSteps
    }

    constructor ()
      ensures Valid() && step == 1 && data == ClientData("", "", "")
      ensures NextDisabled()
    {
      step := 1;
      data := ClientData("", "", "");
    }

    function NextDisabled(): bool
      reads this
    {
      if step == 1 then data.name == "" || data.phone == "" else data.address == ""
    }

    method Next(now: nat) returns (submitted: Option<ClientProfile>)
      requires Valid()
      modifies this`step
      ensures Valid()
      ensures old(step) < ClientSteps ==> step == old(step) + 1 && submitted.None?
      ensures old(step) == ClientSteps ==> step == old(step) && submitted == Some(NewClient(data, now))
    {
      if step == 1 {
        step := 2;
        submitted := None;
      } else {
        submitted := Some(NewClient(data, now));
      }
    }

    /** The client wizard's Back always returns to the first page. */
    method Back()
      modifies this`step
      ensures Valid() && step == 1
    {
      step := 1;
    }
  }

  // ------------------------------------------------------------ property

  datatype PropertyData = PropertyData(name: string, phone: string, communities: string)

  const PropertySteps: int := 3

  /** `communities.split(',').map(s => s.trim())`: one trimmed entry per comma-separated piece. */
  function Communities(s: string): (r: seq<string>)
    ensures |r| == Count(s, ',') + 1
    ensures forall k :: 0 <= k < |r| ==> r[k] == Trim(Split(s, ',')[k]) && Tight(r[k]) && ',' !in r[k]
  {
    var pieces := Split(s, ',');
    seq(|pieces|, k requires 0 <= k < |pieces| =>
      assert ',' !in pieces[k];
      assert forall c :: c in Trim(pieces[k]) ==> c in pieces[k] by {
        TrimWithin(pieces[k]);
      }
      Trim(pieces[k]))
  }

  /** Listing tidy community names with commas and reading them back gives the same list. */
  lemma CommunitiesRoundTrip(names: seq<string>)
    requires |names| >= 1
    requires forall k :: 0 <= k < |names| ==> ',' !in names[k] && Tight(names[k])
    ensures Communities(Join(names, ',')) == names
  {
    SplitJoin(names, ',');
    var r := Communities(Join(names, ','));
    forall k | 0 <= k < |names|
      ensures r[k] == names[k]
    {
      TrimTight(names[k]);
    }
  }

  /** A trimmed string's characters all come from the original. */
  lemma TrimWithin(s: string)
    ensures forall c :: c in Trim(s) ==> c in s
  {
    var t := TrimStart(s);
    assert t == s[|s| - |t|..];
    var u := TrimEnd(t);
    assert u == t[..|u|];
    assert Trim(s) == u;
    forall c | c in u
      ensures c in s
    {
      var i :| 0 <= i < |u| && u[i] == c;
      assert t[i] == c;
      assert s[|s| - |t| + i] == c;
    }
  }

  function NewProperty(data: PropertyData, now: nat): (p: PropertyProfile)
    ensures p.id == "prop-" + NatToString(now) && p.status == ProfileStatus.Pending
    ensures p.name == data.name && p.contactPhone == data.phone
    ensures p.managedCommunities == Communities(data.communities) && p.suppliers.None?
  {
    PropertyProfile("prop-" + NatToString(now), data.name, data.phone, Communities(data.communities),
                    ProfileStatus.Pending, None)
  }

  /**
   * A newly registered property manager has at least one community slot and,
   * with no supplier list of its own, works with the default fleets.
   */
  lemma NewPropertyDefaults(data: PropertyData, now: nat, loadTime: int)
    ensures |NewProperty(data, now).managedCommunities| >= 1
    ensures PropertyView.Suppliers(NewProperty(data, now), loadTime) == PropertyView.DefaultSuppliers(loadTime)
  {
  }

  function ApprovedProperty(p: PropertyProfile): (r: PropertyProfile)
    ensures r.status == Verified && r.(status := p.status) == p
  {
    p.(status := Verified)
  }

  class PropertyWizard {
    var step: int
    var data: PropertyData

    ghost predicate Valid()
      reads this
    {
      1 <= step <= PropertySteps
    }

    constructor ()
      ensures Valid() && step == 1 && data == PropertyData("", "", "")
      ensures NextDisabled()
    {
      step := 1;
      data := PropertyData("", "", "");
    }

    function NextDisabled(): bool
      reads this
    {
      if step == 1 then data.name == "" || data.phone == "" else if step == 2 then data.communities == "" else false
    }

    method Next(now: nat) returns (submitted: Option<PropertyProfile>)
      requires Valid()
      modifies this`step
      ensures Valid()
      ensures old(step) < PropertySteps ==> step == old(step) + 1 && submitted.None?
      ensures old(step) == PropertySteps ==> step == old(step) && submitted == Some(NewProperty(data, now))
    {
      if step == 1 {
        step := 2;
        submitted := None;
      } else if step == 2 {
        step := 3;
        submitted := None;
      } else {
        submitted := Some(NewProperty(data, now));
      }
    }

    method Back()
      requires Valid()
      modifies this`step
      ensures Valid() && step == Counters.Decrement(old(step))
    {
      step := Counters.Decrement(step);
    }
  }

  // --------------------------------------------------------------- fleet

  datatype FleetData = FleetData(name: string, manager: string, count: string)

  const FleetSteps: int := 3

  /** `parseInt(count) || 0`: `NaN` and zero both give 0. */
  function VehicleCount(parsed: Option<int>): (r: int)
    ensures parsed.None? ==> r == 0
    ensures parsed.Some? ==> r == parsed.value
  {
    if parsed.Some? && parsed.value != 0 then parsed.value else 0
  }

  function NewFleet(data: FleetData, now: nat, parseInt: string -> Option<int>): (f: FleetProfile)
    ensures f.id == "fleet-" + NatToString(now) && f.status == ProfileStatus.Pending
    ensures f.name == data.name && f.managerName == data.manager
    ensures f.totalVehicles == VehicleCount(parseInt(data.count))
    ensures f.safetyScore == 100 && !f.isAuthorizedPrint && f.projects == []
  {
    FleetProfile("fleet-" + NatToString(now), data.name, data.manager, VehicleCount(parseInt(data.count)), 100, false,
                 ProfileStatus.Pending, [])
  }

  function ApprovedFleet(f: FleetProfile): (r: FleetProfile)
    ensures r.status == Verified && r.(status := f.status) == f
  {
    f.(status := Verified)
  }

  class FleetWizard {
    var step: int
    var data: FleetData

    ghost predicate Valid()
      reads this
    {
      1 <= step <= FleetSteps
    }

    constructor ()
      ensures Valid() && step == 1 && data == FleetData("", "", "")
      ensures NextDisabled()
    {
      step := 1;
      data := FleetData("", "", "");
    }

    function NextDisabled(): bool
      reads this
    {
      if step == 1 then data.name == "" || data.manager == "" else if step == 2 then data.count == "" else false
    }

    method Next(now: nat, parseInt: string -> Option<int>) returns (submitted: Option<FleetProfile>)
      requires Valid()
      modifies this`step
      ensures Valid()
      ensures old(step) < FleetSteps ==> step == old(step) + 1 && submitted.None?
      ensures old(step) == FleetSteps ==> step == old(step) && submitted == Some(NewFleet(data, now, parseInt))
    {
      if step == 1 {
        step := 2;
        submitted := None;
      } else if step == 2 {
        step := 3;
        submitted := None;
      } else {
        submitted := Some(NewFleet(data, now, parseInt));
      }
    }

    method Back()
      requires Valid()
      modifies this`step
      ensures Valid() && step == Counters.Decrement(old(step))
    {
      step := Counters.Decrement(step);
    }
  }

  // ---------------------------------------------------------- enterprise

  datatype EnterpriseData = EnterpriseData(name: string, phone: string)

  const EnterpriseSteps: int := 2

  function NewEnterprise(data: EnterpriseData, now: nat): (p: EnterpriseProfile)
    ensures p.id == "ent-" + NatToString(now) && p.status == ProfileStatus.Pending
    ensures p.companyName == data.name && p.contactPhone == data.phone
    ensures p.creditLimit == 200000 && p.usedCredit == 0 && p.activeProjects == []
    ensures p.contractPricePerTruck.None?
  {
    EnterpriseProfile("ent-" + NatToString(now), data.name, data.phone, 200000, 0, "每月 10 号", [],
                      ProfileStatus.Pending, None)
  }

  /** A new enterprise can draw its whole 200000 credit line and pays the list price per truck. */
  lemma NewEnterpriseTerms(data: EnterpriseData, now: nat)
    ensures EnterpriseView.AvailableCredit(NewEnterprise(data, now)) == 200000
    ensures EnterpriseView.BasePrice(NewEnterprise(data, now)) == 500
  {
  }

  function ApprovedEnterprise(p: EnterpriseProfile): (r: EnterpriseProfile)
    ensures r.status == Verified && r.(status := p.status) == p
  {
    p.(status := Verified)
  }

  class EnterpriseWizard {
    var step: int
    var data: EnterpriseData

    ghost predicate Valid()
      reads this
    {
      1 <= step <= EnterpriseSteps
    }

    constructor ()
      ensures Valid() && step == 1 && data == EnterpriseData("", "")
      ensures NextDisabled()
    {
      step := 1;
      data := EnterpriseData("", "");
    }

    function NextDisabled(): bool
      reads this
    {
      if step == 1 then data.name == "" || data.phone == "" else false
    }

    method Next(now: nat) returns (submitted: Option<EnterpriseProfile>)
      requires Valid()
      modifies this`step
      ensures Valid()
      ensures old(step) < EnterpriseSteps ==> step == old(step) + 1 && submitted.None?
      ensures old(step) == EnterpriseSteps ==> step == old(step) && submitted == Some(NewEnterprise(data, now))
    {
      if step == 1 {
        step := 2;
        submitted := None;
      } else {
        submitted := Some(NewEnterprise(data, now));
      }
    }

    method Back()
      requires Valid()
      modifies this`step
      ensures Valid() && step == Counters.Decrement(old(step))
    {
      step := Counters.Decrement(step);
    }
  }

  // -------------------------------------------------------------- worker

  datatype WorkerData = WorkerData(name: string, phone: string, team: string)

  const WorkerSteps: int := 3

  function NewWorker(data: WorkerData, now: nat): (p: WorkerProfile)
    ensures p.id == "worker-" + NatToString(now) && p.profileStatus == ProfileStatus.Pending
    ensures p.name == data.name && p.phone == data.phone && p.teamName == Some(data.team)
    ensures p.skills == ["DEMOLITION", "MOVER"] && p.rating == 5.0 && p.status == Available
  {
    WorkerProfile("worker-" + NatToString(now), data.name, data.phone, Some(data.team), ["DEMOLITION", "MOVER"], 5.0,
                  Available, ProfileStatus.Pending)
  }

  /** A crew's approval sets `profileStatus`, not its availability. */
  function ApprovedWorker(p: WorkerProfile): (r: WorkerProfile)
    ensures r.profileStatus == Verified && r.status == p.status && r.(profileStatus := p.profileStatus) == p
  {
    p.(profileStatus := Verified)
  }

  class WorkerWizard {
    var step: int
    var data: WorkerData

    ghost predicate Valid()
      reads this
    {
      1 <= step <= WorkerSteps
    }

    constructor ()
      ensures Valid() && step == 1 && data == WorkerData("", "", "")
      ensures NextDisabled()
    {
      step := 1;
      data := WorkerData("", "", "");
    }

    function NextDisabled(): bool
      reads this
    {
      if step == 1 then data.name == "" || data.phone == "" else false
    }

    method Next(now: nat) returns (submitted: Option<WorkerProfile>)
      requires Valid()
      modifies this`step
      ensures Valid()
      ensures old(step) < WorkerSteps ==> step == old(step) + 1 && submitted.None?
      ensures old(step) == WorkerSteps ==> step == old(step) && submitted == Some(NewWorker(data, now))
    {
      if step == 1 {
        step := 2;
        submitted := None;
      } else if step == 2 {
        step := 3;
        submitted := None;
      } else {
        submitted := Some(NewWorker(data, now));
      }
    }

    method Back()
      requires Valid()
      modifies this`step
      ensures Valid() && step == Counters.Decrement(old(step))
    {
      step := Counters.Decrement(step);
    }
  }

  // ---------------------------------------------------------- government

  datatype GovernmentData = GovernmentData(region: string, dept: string)

  const GovernmentSteps: int := 3

  function NewGovernment(data: GovernmentData, now: nat): (p: GovernmentProfile)
    ensures p.id == "gov-" + NatToString(now) && p.status == ProfileStatus.Pending
    ensures p.regionName == data.region && p.department == data.dept
  {
    GovernmentProfile("gov-" + NatToString(now), data.region, data.dept, ProfileStatus.Pending)
  }

  function ApprovedGovernment(p: GovernmentProfile): (r: GovernmentProfile)
    ensures r.status == Verified && r.(status := p.status) == p
  {
    p.(status := Verified)
  }

  class GovernmentWizard {
    var step: int
    var data: GovernmentData

    ghost predicate Valid()
      reads this
    {
      1 <= step <= GovernmentSteps
    }

    constructor ()
      ensures Valid() && step == 1 && data == GovernmentData("", "")
      ensures NextDisabled()
    {
      step := 1;
      data := GovernmentData("", "");
    }

    function NextDisabled(): bool
      reads this
    {
      if step == 1 then data.region == "" || data.dept == "" else false
    }

    method Next(now: nat) returns (submitted: Option<GovernmentProfile>)
      requires Valid()
      modifies this`step
      ensures Valid()
      ensures old(step) < GovernmentSteps ==> step == old(step) + 1 && submitted.None?
      ensures old(step) == GovernmentSteps ==> step == old(step) && submitted == Some(NewGovernment(data, now))
    {
      if step == 1 {
        step := 2;
        submitted := None;
      } else if step == 2 {
        step := 3;
        submitted := None;
      } else {
        submitted := Some(NewGovernment(data, now));
      }
    }

    method Back()
      requires Valid()
      modifies this`step
      ensures Valid() && step == Counters.Decrement(old(step))
    {
      step := Counters.Decrement(step);
    }
  }
}
