/**
 * components/DisposalOnboarding.tsx: the two-step registration wizard for
 * disposal sites.  Next moves from step 1 to step 2 and, at step 2, hands
 * the new facility record to `onRegister` (the `submitted` out-parameter
 * here); Back never goes below step 1.  `now` stands for `Date.now()`.
 */
module DisposalOnboarding {
  import opened Wrappers
  import opened Strings
  import opened Types
  import App
  import Counters

  datatype FacilityForm = FacilityForm(name: string, address: string, contactPhone: string, specialty: string)

  const EmptyForm: FacilityForm := FacilityForm("", "", "", "")

  const LastStep: int := 2

  /**
   * The facility `handleNext` submits: PENDING and OPEN, a fixed disposal
   * site that takes construction waste only, at 450 per truck, settled
   * through the platform; an empty specialty becomes 综合消纳.
   */
  function NewFacility(form: FacilityForm, licenseImage: Option<string>, now: nat): (f: DisposalProfile)
    ensures f.id == "disposal-" + NatToString(now) && f.joinedAt == now
    ensures f.status == ProfileStatus.Pending && f.operationalStatus == Open && f.facilityType == FixedDisposal
    ensures f.allowedWasteTypes == [Construction] && f.feeConfigs == [FeeConfig(Construction, 450, Truck)]
    ensures f.preferredSettlement == Platform
    ensures f.specialty == if form.specialty == "" then "综合消纳" else form.specialty
    ensures f.name == form.name && f.address == form.address && f.location.address == Some(form.address)
    ensures f.licenseImageUrl == OrElse(licenseImage, "") && f.description == Some("")
  {
    DisposalProfile("disposal-" + NatToString(now), form.name, form.address,
                    GeoLocation(31.2222, 121.4444, Some(form.address)), form.contactPhone, OrElse(licenseImage, ""),
                    ProfileStatus.Pending, now, Open, FixedDisposal, StrOr(form.specialty, "综合消纳"), [Construction],
                    [FeeConfig(Construction, 450, Truck)], Platform, Some(""))
  }

  /** A newly registered site is open, so storing it raises no full-facility alert. */
  lemma NewFacilityRaisesNoAlert(form: FacilityForm, licenseImage: Option<string>, now: nat,
                                 notices: seq<GovernmentNotice>, t: nat)
    ensures App.NoticesAfterFacilityUpdate(notices, NewFacility(form, licenseImage, now), t) == notices
  {
  }

  /** `simulateApproval`: only the status becomes VERIFIED. */
  function ApprovedFacility(f: DisposalProfile): (r: DisposalProfile)
    ensures r.status == Verified && r.(status := f.status) == f
  {
    f.(status := Verified)
  }

  /** `isNextDisabled`: step 1 needs a name and an address, step 2 a licence image. */
  function NextDisabled(step: int, form: FacilityForm, licenseImage: Option<string>): bool {
    if step == 1 then form.name == "" || form.address == "" else !Truthy(licenseImage)
  }

  class State {
    var step: int
    var form: FacilityForm
    var licenseImage: Option<string>

    ghost predicate Valid()
      reads this
    {
      1 <= step <= LastStep
    }

    constructor ()
      ensures Valid() && step == 1 && form == EmptyForm && licenseImage.None?
      ensures NextDisabled(step, form, licenseImage)
    {
      step := 1;
      form := EmptyForm;
      licenseImage := None;
    }

    method Next(now: nat) returns (submitted: Option<DisposalProfile>)
      requires Valid()
      modifies this`step
      ensures Valid()
      ensures old(step) == 1 ==> step == 2 && submitted.None?
      ensures old(step) == 2 ==> step == 2 && submitted == Some(NewFacility(form, licenseImage, now))
    {
      if step == 1 {
        step := 2;
        submitted := None;
      } else {
        submitted := Some(NewFacility(form, licenseImage, now));
      }
    }

    /** `Math.max(1, step - 1)`. */
    method Back()
      requires Valid()
      modifies this`step
      ensures Valid() && step == Counters.Decrement(old(step)) && step == 1
    {
      step := Counters.Decrement(step);
    }

    /** `simulateApproval`: with a profile on file, the same record comes back VERIFIED. */
    method SimulateApproval(current: Option<DisposalProfile>) returns (submitted: Option<DisposalProfile>)
      ensures current.None? ==> submitted.None?
      ensures current.Some? ==> submitted == Some(ApprovedFacility(current.value))
    {
      submitted := if current.Some? then Some(ApprovedFacility(current.value)) else None;
    }
  }
}
