/** The shared handles against the simple thing: how many users each of them has. */
module HandleLaws {
  import opened AudioHandles

  datatype Request = OpensPcm(driver: bool) | ClosesPcm | OpensMixer(driver: bool) | ClosesMixer

  function Served(h: Handles, r: Request): Handles {
    match r
    case OpensPcm(driver) => OpenPcm(h, driver).0
    case ClosesPcm => ClosePcm(h)
    case OpensMixer(driver) => OpenMixer(h, driver).0
    case ClosesMixer => CloseMixer(h)
  }

  function After(requests: seq<Request>): Handles {
    if requests == [] then Handles(false, 0, false, 0)
    else Served(After(requests[..|requests| - 1]), requests[|requests| - 1])
  }

  /** One user more for an open that is met: by the driver, or because the handle is in use already. */
  function PcmUsers(requests: seq<Request>): nat {
    if requests == [] then 0
    else
      var n, r := PcmUsers(requests[..|requests| - 1]), requests[|requests| - 1];
      if r.OpensPcm? && (r.driver || n > 0) then n + 1 else if r.ClosesPcm? && n > 0 then n - 1 else n
  }

  function MixerUsers(requests: seq<Request>): nat {
    if requests == [] then 0
    else
      var n, r := MixerUsers(requests[..|requests| - 1]), requests[|requests| - 1];
      if r.OpensMixer? && (r.driver || n > 0) then n + 1 else if r.ClosesMixer? && n > 0 then n - 1 else n
  }

  /** Whatever is opened and closed, each handle is open exactly while it has users, and counts them. */
  lemma {:induction false} HandlesCountUsers(requests: seq<Request>)
    ensures var h := After(requests);
            && h.pcmCnt == PcmUsers(requests) && (h.pcmOpen <==> PcmUsers(requests) > 0)
            && h.mixerCnt == MixerUsers(requests) && (h.mixerOpen <==> MixerUsers(requests) > 0)
  {
    if requests != [] { HandlesCountUsers(requests[..|requests| - 1]); }
  }

  /** An open gives its caller a handle exactly if that is in use already or the driver opens it. */
  lemma OpensIff(requests: seq<Request>, driver: bool)
    ensures OpenPcm(After(requests), driver).1 <==> PcmUsers(requests) > 0 || driver
    ensures OpenMixer(After(requests), driver).1 <==> MixerUsers(requests) > 0 || driver
  {
    HandlesCountUsers(requests);
  }
}
