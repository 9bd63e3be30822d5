/** `Appearance` (Misc/ColorScheme.swift): the user's theme choice and the SwiftUI colour
    scheme it forces, if any. */
module Appearances {
  import opened Wrappers

  /** SwiftUI's `ColorScheme`. */
  datatype Scheme = LightScheme | DarkScheme

  datatype Appearance = System | Light | Dark
  {
    /** The `String` raw value of each case. */
    function RawValue(): string
    {
      match this
      case System => "system"
      case Light => "light"
      case Dark => "dark"
    }

    /** `Identifiable.id`. */
    function Id(): (r: string)
      ensures FromRawValue(r) == Some(this)
    {
      RawValue()
    }

    /** `colorScheme`: only `.system` leaves the scheme to the device. */
    function ColorScheme(): (r: Optional<Scheme>)
      ensures r.Nil? <==> this == System
    {
      match this
      case System => Nil
      case Light => Some(LightScheme)
      case Dark => Some(DarkScheme)
    }
  }

  /** `CaseIterable.allCases`. */
  const AllCases: seq<Appearance> := [System, Light, Dark]

  /** The synthesised `init?(rawValue:)`, which `@AppStorage` uses to read the stored choice back. */
  function FromRawValue(s: string): (r: Optional<Appearance>)
    ensures r.Some? ==> r.value.RawValue() == s
  {
    if s == "system" then Some(System)
    else if s == "light" then Some(Light)
    else if s == "dark" then Some(Dark)
    else Nil
  }

  /** Raw values are distinct and read back to their case, and `id` is the raw value. */
  lemma RawValueRoundTrip(a: Appearance)
    ensures FromRawValue(a.RawValue()) == Some(a)
    ensures a.Id() == a.RawValue()
    ensures forall b: Appearance :: b.RawValue() == a.RawValue() ==> b == a
  {
  }

  /** `light` and `dark` force the scheme of the same name. */
  lemma SchemeTable()
    ensures System.ColorScheme() == Nil
    ensures Light.ColorScheme() == Some(LightScheme)
    ensures Dark.ColorScheme() == Some(DarkScheme)
  {
  }

  /** `allCases` lists every case exactly once. */
  lemma AllCasesComplete(a: Appearance)
    ensures a in AllCases
    ensures |AllCases| == 3 && AllCases[0] != AllCases[1] && AllCases[1] != AllCases[2] && AllCases[0] != AllCases[2]
  {
  }
}
