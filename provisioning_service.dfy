/** `ProvisioningService`: routes creation by operating system and
    termination/reboot by provider name. What each provider call returns or
    raises is a parameter (the provider modules say how it is computed). */
module ProvisioningService {
  import opened Common

  datatype OSType = Windows | Linux

  /** The enum's values. */
  function OSValue(os: OSType): (s: string)
    ensures s == "windows" || s == "linux"
  {
    match os
    case Windows => "windows"
    case Linux => "linux"
  }

  /** `OSType(s)`: look a value up; anything but the two values raises
      `ValueError`. */
  function ParseOSType(s: string): (r: Result<OSType>)
    ensures r.Ok? <==> s == "windows" || s == "linux"
  {
    if s == "windows" then Ok(Windows)
    else if s == "linux" then Ok(Linux)
    else Err("ValueError: '" + s + "' is not a valid OSType")
  }

  /** The enum has exactly the two values, and looking up a value gives
      back its member. */
  lemma OSTypeRoundTrip(os: OSType, s: string)
    ensures ParseOSType(OSValue(os)) == Ok(os)
    ensures ParseOSType(s).Ok? ==> OSValue(ParseOSType(s).value) == s
  {
  }

  /** `provision_rdp`: Windows goes to Vultr and every other system to
      Contabo; a provider exception is re-raised as "Provisioning failed: …". */
  function ProvisionRdp(os: OSType, vultr: Result<ServerDetails>, contabo: Result<ServerDetails>)
    : (r: Result<ServerDetails>)
    ensures var chosen := if os == Windows then vultr else contabo;
            (chosen.Ok? ==> r == chosen) && (chosen.Err? ==> r == Err("Provisioning failed: " + chosen.error))
  {
    var chosen := if os == Windows then vultr else contabo;
    match chosen
    case Ok(details) => Ok(details)
    case Err(e) => Err("Provisioning failed: " + e)
  }

  /** Routing by provider name shared by terminate and reboot: "vultr" and
      "contabo" use their own client's answer, any other name raises
      `ValueError`. */
  function RouteByProvider(provider: string, vultr: Result<bool>, contabo: Result<bool>): Result<bool>
  {
    if provider == "vultr" then vultr
    else if provider == "contabo" then contabo
    else Err("ValueError: Unknown provider: " + provider)
  }

  /** `terminate_rdp`: the delete call of the named provider. */
  function TerminateRdp(provider: string, vultrDelete: Result<bool>, contaboDelete: Result<bool>): (r: Result<bool>)
    ensures provider == "vultr" ==> r == vultrDelete
    ensures provider == "contabo" ==> r == contaboDelete
    ensures provider != "vultr" && provider != "contabo" ==> r.Err?
  {
    RouteByProvider(provider, vultrDelete, contaboDelete)
  }

  /** `reboot_rdp`: the reboot call of the named provider. */
  function RebootRdp(provider: string, vultrReboot: Result<bool>, contaboReboot: Result<bool>): (r: Result<bool>)
    ensures provider == "vultr" ==> r == vultrReboot
    ensures provider == "contabo" ==> r == contaboReboot
    ensures provider != "vultr" && provider != "contabo" ==> r.Err?
  {
    RouteByProvider(provider, vultrReboot, contaboReboot)
  }

  /** A record whose provider is neither known name can never be terminated
      or rebooted, whatever the clients would answer. */
  lemma UnknownProviderAlwaysRaises(provider: string, v: Result<bool>, c: Result<bool>)
    requires provider != "vultr" && provider != "contabo"
    ensures TerminateRdp(provider, v, c).Err? && RebootRdp(provider, v, c).Err?
  {
  }
}
