/**
 * components/DriverOnboarding.tsx: the four-step driver registration
 * wizard.  Its `step` counter is a number that also takes the value 2.5,
 * the extra company-credentials page; Next, Back and the submission update
 * it.  Submitting registers the driver (and a new fleet, when the driver is
 * founding one) through the store.
 */
module DriverOnboarding {
  import opened Wrappers
  import opened Strings
  import opened Types
  import App

  // ------------------------------------------------------------ the steps

  /** The values `step` can take. */
  predicate ValidStep(step: real) {
    step == 1.0 || step == 2.0 || step == 2.5 || step == 3.0 || step == 4.0
  }

  datatype DriverForm = DriverForm(
    name: string, phone: string, licenseNumber: string, vehiclePlate: string, vehicleType: string,
    isIndependent: bool, fleetName: string, isNewFleet: bool)

  datatype FleetDetails = FleetDetails(companyName: string, creditCode: string, companyLicenseImage: Option<string>)

  const EmptyForm: DriverForm := DriverForm("", "", "", "", "Small Truck", true, "", false)

  /** Step 2, company mode, no fleet chosen: Next detours to the credentials page. */
  predicate DetoursToCompany(step: real, form: DriverForm) {
    step == 2.0 && !form.isIndependent && form.fleetName == ""
  }

  /** Where Next leads below step 4: 2.5 on the detour, otherwise `Math.floor(step + 1)`. */
  function NextStep(step: real, form: DriverForm): (r: real)
    requires ValidStep(step) && step < 4.0
    ensures ValidStep(r) && r > step
    ensures DetoursToCompany(step, form) ==> r == 2.5
    ensures !DetoursToCompany(step, form) && step != 2.5 ==> r == step + 1.0
    ensures step == 2.5 ==> r == 3.0
  {
    if DetoursToCompany(step, form) then 2.5 else (step + 1.0).Floor as real
  }

  /** Back: 2.5 returns to 2; otherwise one step down, never below 1. */
  function BackStep(step: real): (r: real)
    requires ValidStep(step)
    ensures ValidStep(r) && r >= 1.0 && r <= step
    ensures step > 1.0 ==> r < step
    ensures step == 2.5 ==> r == 2.0
    ensures step == 1.0 ==> r == 1.0
  {
    if step == 2.5 then 2.0 else if step - 1.0 > 1.0 then step - 1.0 else 1.0
  }

  /** `Math.ceil(step)`, the page number the wrapper shows. */
  function DisplayedStep(step: real): (r: int)
    requires ValidStep(step)
    ensures 1 <= r <= 4
    ensures step == 2.5 ==> r == 3
    ensures step != 2.5 ==> r as real == step
  {
    -((-step).Floor)
  }

  /** `isNextDisabled`. */
  function NextDisabled(step: real, form: DriverForm, details: FleetDetails, licenseImage: Option<string>): bool {
    if step == 1.0 then form.name == "" || form.phone == ""
    else if step == 2.0 then !form.isIndependent && form.fleetName == "" && !form.isNewFleet
    else if step == 2.5 then details.companyName == "" || details.creditCode == "" || !Truthy(details.companyLicenseImage)
    else if step == 3.0 then form.vehiclePlate == ""
    else if step == 4.0 then !Truthy(licenseImage)
    else false
  }

  /**
   * With Next enabled, the detour at step 2 is taken only by a driver who
   * has already chosen to register a new company.
   */
  lemma DetourOnlyForNewCompany(step: real, form: DriverForm, details: FleetDetails, licenseImage: Option<string>)
    requires ValidStep(step) && !NextDisabled(step, form, details, licenseImage)
    ensures DetoursToCompany(step, form) ==> form.isNewFleet
  {
  }

  // ----------------------------------------------------------- the records

  /** `isIndependent ? '个人自营' : (isNewFleet ? companyName : fleetName)`. */
  function DriverFleetName(form: DriverForm, details: FleetDetails): (r: string)
    ensures form.isIndependent ==> r == "个人自营"
    ensures !form.isIndependent && form.isNewFleet ==> r == details.companyName
    ensures !form.isIndependent && !form.isNewFleet ==> r == form.fleetName
  {
    if form.isIndependent then "个人自营" else if form.isNewFleet then details.companyName else form.fleetName
  }

  /** The driver submitted at step 4: PENDING, with the form's details and the fleet name above. */
  function SubmittedDriver(form: DriverForm, details: FleetDetails, licenseImage: Option<string>, now: nat): (d: DriverProfile)
    ensures d.id == "driver-" + NatToString(now) && d.status == ProfileStatus.Pending && d.joinedAt == now
    ensures d.name == form.name && d.phone == form.phone && d.vehiclePlate == form.vehiclePlate
    ensures d.isIndependent == form.isIndependent
    ensures d.fleetName == Some(DriverFleetName(form, details))
    ensures d.licenseImageUrl == OrElse(licenseImage, "")
  {
    DriverProfile("driver-" + NatToString(now), form.name, form.phone, form.licenseNumber, form.vehiclePlate,
                  form.vehicleType, ProfileStatus.Pending, now, OrElse(licenseImage, ""),
                  Some(DriverFleetName(form, details)), form.isIndependent)
  }

  /** The fleet submitted with the driver: only when founding one, PENDING, one vehicle, safety 60, run by the driver. */
  function SubmittedFleet(form: DriverForm, details: FleetDetails, now: nat): (f: Option<FleetProfile>)
    ensures f.Some? <==> form.isNewFleet
    ensures f.Some? ==> && f.value.id == "fleet-" + NatToString(now) && f.value.name == details.companyName
                        && f.value.managerName == form.name && f.value.totalVehicles == 1
                        && f.value.safetyScore == 60 && !f.value.isAuthorizedPrint
                        && f.value.status == ProfileStatus.Pending && f.value.projects == []
  {
    if form.isNewFleet then
      Some(FleetProfile("fleet-" + NatToString(now), details.companyName, form.name, 1, 60, false,
                        ProfileStatus.Pending, []))
    else None
  }

  /**
   * A company driver who founds a fleet with a non-empty name and registers
   * sees that fleet, by name, in the fleet view.
   */
  lemma FoundedFleetShown(form: DriverForm, details: FleetDetails, licenseImage: Option<string>, now: nat,
                          fleets: seq<FleetProfile>)
    requires !form.isIndependent && form.isNewFleet && details.companyName != ""
    ensures var d := SubmittedDriver(form, details, licenseImage, now);
            var shown := App.FleetToShow(fleets + [SubmittedFleet(form, details, now).value], Some(d));
            shown.Some? && shown.value.name == details.companyName
  {
    var f := SubmittedFleet(form, details, now).value;
    var all := fleets + [f];
    assert all[|fleets|] == f;
  }

  /** `simulateApproval`: only the status becomes VERIFIED. */
  function ApprovedDriver(d: DriverProfile): (r: DriverProfile)
    ensures r.status == Verified
    ensures r.(status := d.status) == d
  {
    d.(status := Verified)
  }

  // ---------------------------------------------------- component state

  class State {
    var step: real
    var form: DriverForm
    var details: FleetDetails
    var licenseImage: Option<string>

    ghost predicate Valid()
      reads this
    {
      ValidStep(step)
    }

    constructor ()
      ensures Valid() && step == 1.0 && form == EmptyForm
      ensures details == FleetDetails("", "", None) && licenseImage.None?
    {
      step := 1.0;
      form := EmptyForm;
      details := FleetDetails("", "", None);
      licenseImage := None;
    }

    /** The "register a new company" button: company mode with no fleet chosen, straight to the credentials page. */
    method ChooseNewCompany()
      requires Valid()
      modifies this`form, this`step
      ensures Valid() && step == 2.5
      ensures form == old(form).(isIndependent := false, fleetName := "", isNewFleet := true)
    {
      form := form.(isIndependent := false, fleetName := "", isNewFleet := true);
      step := 2.5;
    }

    /** Picking an existing fleet clears any earlier new-company choice. */
    method ChooseFleet(name: string)
      modifies this`form
      ensures form == old(form).(fleetName := name, isNewFleet := false)
    {
      form := form.(fleetName := name, isNewFleet := false);
    }

    /** `handleNext`. */
    method Next(store: App.Store, now: nat)
      requires Valid()
      modifies this`step, this`form, store`driverProfile, store`fleets
      ensures Valid()
      ensures DetoursToCompany(old(step), old(form)) ==>
                step == 2.5 && form == old(form).(isNewFleet := true)
                && store.driverProfile == old(store.driverProfile) && store.fleets == old(store.fleets)
      ensures !DetoursToCompany(old(step), old(form)) && old(step) < 4.0 ==>
                step == NextStep(old(step), old(form)) && form == old(form)
                && store.driverProfile == old(store.driverProfile) && store.fleets == old(store.fleets)
      ensures old(step) == 4.0 ==>
                && step == 4.0 && form == old(form)
                && store.driverProfile == Some(SubmittedDriver(form, details, licenseImage, now))
                && var f := SubmittedFleet(form, details, now);
                   store.fleets == if f.Some? then old(store.fleets) + [f.value] else old(store.fleets)
    {
      if DetoursToCompany(step, form) {
        form := form.(isNewFleet := true);
        step := 2.5;
        return;
      }
      if step < 4.0 {
        step := (step + 1.0).Floor as real;
      } else {
        store.DriverOnboarding(SubmittedDriver(form, details, licenseImage, now), SubmittedFleet(form, details, now));
      }
    }

    /** The wrapper's Back button. */
    method Back()
      requires Valid()
      modifies this`step
      ensures Valid() && step == BackStep(old(step))
    {
      step := if step == 2.5 then 2.0 else if step - 1.0 > 1.0 then step - 1.0 else 1.0;
    }

    /** `simulateApproval`: with a profile on file, it is registered again as VERIFIED and no fleet is added. */
    method SimulateApproval(store: App.Store)
      modifies store`driverProfile, store`fleets
      ensures old(store.driverProfile).None? ==>
                store.driverProfile == old(store.driverProfile) && store.fleets == old(store.fleets)
      ensures old(store.driverProfile).Some? ==>
                store.driverProfile == Some(ApprovedDriver(old(store.driverProfile).value)) && store.fleets == old(store.fleets)
    {
      if store.driverProfile.Some? {
        store.DriverOnboarding(ApprovedDriver(store.driverProfile.value), None);
      }
    }
  }
}
