/** The macro's static configuration record, set once before startup. */
module Configuration {

  /** A JavaScript value in the `button.order` slot: only its being a Number matters */
  datatype OrderSetting = Number(n: int) | NotNumber

  datatype Button = Button(name: string, icon: string, order: OrderSetting)

  /** The playback device: its video input connector and HDMI-CEC logical address */
  datatype CecDevice = CecDevice(connectorId: int, logicalAddress: int)

  /** `panelId` namespaces the panel, its page and every widget id */
  datatype Config = Config(button: Button, cecDevice: CecDevice, panelId: string)

  /** The roles appended, after a dash, to `panelId` to name the page's widgets */
  const NavigatorRole: string := "navigator"
  const BackRole: string := "Back"
  const PlayRole: string := "Play"

  /** The values the macro ships with */
  const DefaultConfig: Config :=
    Config(Button("Apple TV", "Tv", Number(1)), CecDevice(2, 4), "appleTV")
}
