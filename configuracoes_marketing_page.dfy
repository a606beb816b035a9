/**
 * The marketing settings page (`ConfiguracoesMarketingPage`): two connection flags, one per
 * platform, set by the Connect buttons and cleared by the Disconnect buttons. The toasts
 * the handlers show are not modelled.
 */
module ConfiguracoesMarketingPage {

  /** The two flags, as one value. */
  datatype Flags = Flags(whatsApp: bool, instagram: bool)

  const Initial: Flags := Flags(false, false)

  /** The flag a handler sets to `connected` for the platform; other platform names change nothing. */
  function SetPlatform(flags: Flags, platform: string, connected: bool): Flags {
    if platform == "WhatsApp" then flags.(whatsApp := connected)
    else if platform == "Instagram" then flags.(instagram := connected)
    else flags
  }

  /** Whether the platform's flag is set; an unknown platform is never connected. */
  function Connected(flags: Flags, platform: string): bool {
    if platform == "WhatsApp" then flags.whatsApp
    else if platform == "Instagram" then flags.instagram
    else false
  }

  /** `handleConnect(platform)`. */
  function Connect(flags: Flags, platform: string): Flags {
    SetPlatform(flags, platform, true)
  }

  /** `handleDisconnect(platform)`. */
  function Disconnect(flags: Flags, platform: string): Flags {
    SetPlatform(flags, platform, false)
  }

  /**
   * Connecting a known platform sets its flag and leaves the other; disconnecting clears
   * it and leaves the other; any other platform name changes neither flag.
   */
  lemma HandlersMeaning(flags: Flags, platform: string)
    ensures platform == "WhatsApp" ==>
      Connect(flags, platform) == Flags(true, flags.instagram)
      && Disconnect(flags, platform) == Flags(false, flags.instagram)
    ensures platform == "Instagram" ==>
      Connect(flags, platform) == Flags(flags.whatsApp, true)
      && Disconnect(flags, platform) == Flags(flags.whatsApp, false)
    ensures platform != "WhatsApp" && platform != "Instagram" ==>
      Connect(flags, platform) == flags && Disconnect(flags, platform) == flags
  {
  }

  /** After a connect the platform reads as connected, after a disconnect as not, and every other platform reads as before. */
  lemma ConnectedAfter(flags: Flags, platform: string, other: string)
    requires platform == "WhatsApp" || platform == "Instagram"
    requires other != platform
    ensures Connected(Connect(flags, platform), platform)
    ensures !Connected(Disconnect(flags, platform), platform)
    ensures Connected(Connect(flags, platform), other) == Connected(flags, other)
    ensures Connected(Disconnect(flags, platform), other) == Connected(flags, other)
  {
  }

  /** Connect is disabled while connected. */
  predicate ConnectDisabled(flags: Flags, platform: string) {
    Connected(flags, platform)
  }

  /** Disconnect is disabled while not connected. */
  predicate DisconnectDisabled(flags: Flags, platform: string) {
    !Connected(flags, platform)
  }

  /**
   * For either platform exactly one of its two buttons is enabled, and clicking it enables
   * the other one: an enabled click always changes the flag, and connect then disconnect
   * comes back to where it started.
   */
  lemma ButtonsAlternate(flags: Flags, platform: string)
    requires platform == "WhatsApp" || platform == "Instagram"
    ensures ConnectDisabled(flags, platform) != DisconnectDisabled(flags, platform)
    ensures !ConnectDisabled(flags, platform) ==>
      !DisconnectDisabled(Connect(flags, platform), platform)
      && Disconnect(Connect(flags, platform), platform) == flags
    ensures !DisconnectDisabled(flags, platform) ==>
      !ConnectDisabled(Disconnect(flags, platform), platform)
      && Connect(Disconnect(flags, platform), platform) == flags
  {
  }

  /** The page's state. */
  class Page {
    var isWhatsAppConnected: bool
    var isInstagramConnected: bool

    function State(): Flags
      reads this
    {
      Flags(isWhatsAppConnected, isInstagramConnected)
    }

    constructor ()
      ensures State() == Initial
    {
      isWhatsAppConnected := false;
      isInstagramConnected := false;
    }

    method HandleConnect(platform: string)
      modifies this
      ensures State() == Connect(old(State()), platform)
    {
      if platform == "WhatsApp" {
        isWhatsAppConnected := true;
      } else if platform == "Instagram" {
        isInstagramConnected := true;
      }
    }

    method HandleDisconnect(platform: string)
      modifies this
      ensures State() == Disconnect(old(State()), platform)
    {
      if platform == "WhatsApp" {
        isWhatsAppConnected := false;
      } else if platform == "Instagram" {
        isInstagramConnected := false;
      }
    }
  }
}
