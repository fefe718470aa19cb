/**
 * `format_mac_address` of src/mobi_physio_api/utils.py: only Windows
 * changes the address, by adding the `BTH` prefix.  The operating system
 * is a parameter.
 */
module Utils {
  import opened Text
  import Device

  function FormatMacAddress(mac: string, system: string): (r: string)
    ensures system == "Windows" && !StartsWith(mac, "BTH") ==> r == "BTH" + mac
    ensures system == "Windows" && StartsWith(mac, "BTH") ==> r == mac
    ensures system != "Windows" ==> r == mac
  {
    if system == "Windows" && !StartsWith(mac, "BTH") then "BTH" + mac else mac
  }

  /** A second formatting changes nothing. */
  lemma FormatMacAddressIdempotent(mac: string, system: string)
    ensures FormatMacAddress(FormatMacAddress(mac, system), system) == FormatMacAddress(mac, system)
  {
    if system == "Windows" && !StartsWith(mac, "BTH") {
      assert ("BTH" + mac)[..3] == "BTH";
    }
  }

  /**
   * The two formatters agree on Windows and part ways elsewhere: this one
   * keeps colons, the device session's turns them into dashes.
   */
  lemma AgreesWithDeviceOnlyOnWindows(mac: string, system: string)
    ensures system == "Windows" ==> FormatMacAddress(mac, system) == Device.FormatMacAddress(mac, system)
    ensures system != "Windows" && ':' in mac ==> FormatMacAddress(mac, system) != Device.FormatMacAddress(mac, system)
  {
    if system != "Windows" && ':' in mac {
      var k :| 0 <= k < |mac| && mac[k] == ':';
      assert Device.FormatMacAddress(mac, system)[k] == '-';
    }
  }
}
