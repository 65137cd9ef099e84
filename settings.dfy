/** The engine settings: a store of configuration values indexed by `ConfigKey`, validated on
    write and filled with fixed defaults on construction. The property map behind it is a
    Dafny `map` from the numeric key to a (name, value) property. */
module SettingsModel {
  import opened Common

  /** The `ConfigKey` enumerators, in the order of the key name table. */
  const AppName: u32 := 0
  const AppType: u32 := 1
  const AppVersionMajor: u32 := 2
  const AppVersionMinor: u32 := 3
  const AppVersionPatch: u32 := 4
  const WindowsTitle: u32 := 5
  const RenderAPI: u32 := 6
  const WinX: u32 := 7
  const WinY: u32 := 8
  const WinWidth: u32 := 9
  const WinHeight: u32 := 10
  const FSAA: u32 := 11
  const BPP: u32 := 12
  const DepthBufferDepth: u32 := 13
  const StencilBufferDepth: u32 := 14
  const ClearColor: u32 := 15
  const Fullscreen: u32 := 16
  const WindowsResizable: u32 := 17
  const ChildWindow: u32 := 18
  const PollingMode: u32 := 19
  const DefaultFont: u32 := 20
  const RenderMode: u32 := 21
  const MaxKonfigKey: u32 := 22

  /** Value of the `GfxApp` application type, which `initDefaults` stores under `AppType`. */
  const GfxApp: int := 0

  /** `ConfigKeyStringTable`. */
  const ConfigKeyStringTable: seq<string> := [
    "AppName", "AppType", "AppVersionMajor", "AppVersionMinor", "AppVersionPatch",
    "WindowsTitle", "RenderAPI", "WinX", "WinY", "WinWidth", "WinHeight", "FSAA", "BPP",
    "DepthBufferDepth", "StencilBufferDepth", "ClearColor", "Fullscreen", "WindowsResizable",
    "ChildWindow", "PollingMode", "DefaultFont", "RenderMode"]

  /** A `CPPCore::Variant`; `Empty` is the default-constructed one. Float values appear only as
      the zero colour of `initDefaults`. */
  datatype Variant =
    | Empty
    | IntValue(i: int)
    | BoolValue(b: bool)
    | StringValue(s: string)
    | Float4Value(x: real, y: real, z: real, w: real)

  /** `Variant::getString`; a variant that holds no string gives the empty string. */
  function VariantString(v: Variant): string {
    if v.StringValue? then v.s else ""
  }

  /** A stored property: the name it was stored with and its value. */
  datatype Property = Property(name: string, value: Variant)

  /** The map `initDefaults` leaves behind, given the map it starts from: its writes in order,
      each property carrying the name the source passes with it. */
  function WithDefaults(m: map<u32, Property>): map<u32, Property> {
    RenderDefaults(WindowDefaults(AppDefaults(m)))
  }

  /** The application entries `initDefaults` writes first: name, type and version. */
  function AppDefaults(m: map<u32, Property>): map<u32, Property> {
    m[AppName := Property(ConfigKeyStringTable[AppName], StringValue("OSRE Application"))]
     [AppType := Property(ConfigKeyStringTable[AppName], IntValue(GfxApp))]
     [AppVersionMajor := Property(ConfigKeyStringTable[AppVersionMajor], IntValue(0))]
     [AppVersionMajor := Property(ConfigKeyStringTable[AppVersionMinor], IntValue(1))]
     [AppVersionPatch := Property(ConfigKeyStringTable[AppVersionPatch], IntValue(0))]
  }

  /** The window entries `initDefaults` writes next: title, render API and window geometry. */
  function WindowDefaults(m: map<u32, Property>): map<u32, Property> {
    m[WindowsTitle := Property(ConfigKeyStringTable[WindowsTitle], StringValue("The OSRE experience"))]
     [RenderAPI := Property(ConfigKeyStringTable[RenderAPI], StringValue("opengl"))]
     [WinX := Property(ConfigKeyStringTable[WinX], IntValue(0))]
     [WinY := Property(ConfigKeyStringTable[WinY], IntValue(0))]
     [WinWidth := Property(ConfigKeyStringTable[WinWidth], IntValue(1024))]
     [WinHeight := Property(ConfigKeyStringTable[WinHeight], IntValue(768))]
     [WindowsResizable := Property(ConfigKeyStringTable[WindowsResizable], BoolValue(true))]
     [ChildWindow := Property(ConfigKeyStringTable[ChildWindow], BoolValue(false))]
  }

  /** The render entries `initDefaults` writes last: buffer formats, colour, mode and font. */
  function RenderDefaults(m: map<u32, Property>): map<u32, Property> {
    m[FSAA := Property(ConfigKeyStringTable[FSAA], IntValue(2))]
     [BPP := Property(ConfigKeyStringTable[BPP], IntValue(32))]
     [DepthBufferDepth := Property(ConfigKeyStringTable[DepthBufferDepth], IntValue(24))]
     [StencilBufferDepth := Property(ConfigKeyStringTable[StencilBufferDepth], IntValue(24))]
     [ClearColor := Property(ConfigKeyStringTable[ClearColor], Float4Value(0.0, 0.0, 0.0, 0.0))]
     [PollingMode := Property(ConfigKeyStringTable[PollingMode], BoolValue(false))]
     [DefaultFont := Property(ConfigKeyStringTable[DefaultFont], StringValue("buildin_arial.bmp"))]
     [RenderMode := Property(ConfigKeyStringTable[RenderMode], IntValue(1))]
  }

  /** The lookup of `get` on a property map: the stored value, or the empty variant. */
  function Lookup(m: map<u32, Property>, key: int): Variant {
    var k := ToU32(key);
    if k in m then m[k].value else Empty
  }

  class Settings {
    /** `m_propertyMap`, keyed by the key converted to `ui32`. */
    var propertyMap: map<u32, Property>

    /** `Settings()`: a fresh map filled by `initDefaults`. */
    constructor ()
      ensures propertyMap == WithDefaults(map[])
    {
      propertyMap := map[];
      new;
      InitDefaults();
    }

    /** `setString`: refused for an empty value or a key outside [0, MaxKonfigKey). */
    method SetString(key: int, value: string) returns (ok: bool)
      modifies this
      ensures ok <==> value != "" && 0 <= key < MaxKonfigKey
      ensures ok ==> propertyMap == old(propertyMap)[ToU32(key) := Property("", StringValue(value))]
      ensures !ok ==> propertyMap == old(propertyMap)
    {
      if value == "" || key >= MaxKonfigKey || key < 0 {
        return false;
      }
      propertyMap := propertyMap[ToU32(key) := Property("", StringValue(value))];
      return true;
    }

    /** `setInt`: refused only for a key at or above MaxKonfigKey; a negative key is stored
        under its `ui32` conversion. */
    method SetInt(key: int, value: int) returns (ok: bool)
      requires -0x8000_0000_0000_0000 <= value < 0x8000_0000_0000_0000
      modifies this
      ensures ok <==> key < MaxKonfigKey
      ensures ok ==> propertyMap == old(propertyMap)[ToU32(key) := Property("", IntValue(value))]
      ensures !ok ==> propertyMap == old(propertyMap)
    {
      if key >= MaxKonfigKey {
        return false;
      }
      propertyMap := propertyMap[ToU32(key) := Property("", IntValue(value))];
      return true;
    }

    /** `setBool`: the same key check as `setInt`. */
    method SetBool(key: int, value: bool) returns (ok: bool)
      modifies this
      ensures ok <==> key < MaxKonfigKey
      ensures ok ==> propertyMap == old(propertyMap)[ToU32(key) := Property("", BoolValue(value))]
      ensures !ok ==> propertyMap == old(propertyMap)
    {
      if key >= MaxKonfigKey {
        return false;
      }
      propertyMap := propertyMap[ToU32(key) := Property("", BoolValue(value))];
      return true;
    }

    /** `get`: the stored value, or the empty variant for an absent key. */
    function Get(key: int): (v: Variant)
      reads this
      ensures ToU32(key) !in propertyMap ==> v == Empty
      ensures ToU32(key) in propertyMap ==> v == propertyMap[ToU32(key)].value
    {
      Lookup(propertyMap, key)
    }

    /** `getString`: the string stored under the key, or the empty string when the key holds
        no string (an absent key included). */
    function GetString(key: int): (s: string)
      reads this
      ensures Get(key).StringValue? ==> s == Get(key).s
      ensures !Get(key).StringValue? ==> s == ""
    {
      VariantString(Get(key))
    }

    /** `getKeyAsString`: the key's entry of the name table (the index is not checked). */
    function GetKeyAsString(key: int): (name: string)
      requires 0 <= key < MaxKonfigKey
      ensures name == ConfigKeyStringTable[key]
    {
      ConfigKeyStringTable[key]
    }

    /** `clear`: the map is emptied. */
    method Clear()
      modifies this
      ensures propertyMap == map[]
    {
      propertyMap := map[];
    }

    /** `initDefaults`: the default entries are written one by one in the source's order;
        keys it does not write keep their values. */
    method InitDefaults()
      modifies this
      ensures propertyMap == WithDefaults(old(propertyMap))
    {
      var m := propertyMap;
      m := m[AppName := Property(ConfigKeyStringTable[AppName], StringValue("OSRE Application"))];
      m := m[AppType := Property(ConfigKeyStringTable[AppName], IntValue(GfxApp))];
      m := m[AppVersionMajor := Property(ConfigKeyStringTable[AppVersionMajor], IntValue(0))];
      m := m[AppVersionMajor := Property(ConfigKeyStringTable[AppVersionMinor], IntValue(1))];
      m := m[AppVersionPatch := Property(ConfigKeyStringTable[AppVersionPatch], IntValue(0))];
      assert m == AppDefaults(old(propertyMap));
      m := m[WindowsTitle := Property(ConfigKeyStringTable[WindowsTitle], StringValue("The OSRE experience"))];
      m := m[RenderAPI := Property(ConfigKeyStringTable[RenderAPI], StringValue("opengl"))];
      m := m[WinX := Property(ConfigKeyStringTable[WinX], IntValue(0))];
      m := m[WinY := Property(ConfigKeyStringTable[WinY], IntValue(0))];
      m := m[WinWidth := Property(ConfigKeyStringTable[WinWidth], IntValue(1024))];
      m := m[WinHeight := Property(ConfigKeyStringTable[WinHeight], IntValue(768))];
      m := m[WindowsResizable := Property(ConfigKeyStringTable[WindowsResizable], BoolValue(true))];
      m := m[ChildWindow := Property(ConfigKeyStringTable[ChildWindow], BoolValue(false))];
      assert m == WindowDefaults(AppDefaults(old(propertyMap)));
      m := m[FSAA := Property(ConfigKeyStringTable[FSAA], IntValue(2))];
      m := m[BPP := Property(ConfigKeyStringTable[BPP], IntValue(32))];
      m := m[DepthBufferDepth := Property(ConfigKeyStringTable[DepthBufferDepth], IntValue(24))];
      m := m[StencilBufferDepth := Property(ConfigKeyStringTable[StencilBufferDepth], IntValue(24))];
      m := m[ClearColor := Property(ConfigKeyStringTable[ClearColor], Float4Value(0.0, 0.0, 0.0, 0.0))];
      m := m[PollingMode := Property(ConfigKeyStringTable[PollingMode], BoolValue(false))];
      m := m[DefaultFont := Property(ConfigKeyStringTable[DefaultFont], StringValue("buildin_arial.bmp"))];
      m := m[RenderMode := Property(ConfigKeyStringTable[RenderMode], IntValue(1))];
      propertyMap := m;
    }
  }

  /** A successful write is read back by `get`, and no other key's value changes. */
  lemma SetThenGet(m: map<u32, Property>, key: int, p: Property, other: int)
    ensures Lookup(m[ToU32(key) := p], key) == p.value
    ensures ToU32(other) != ToU32(key) ==> Lookup(m[ToU32(key) := p], other) == Lookup(m, other)
  {
  }

  /** A string accepted by `setString` is what `getString` then reads under that key; a key
      whose conversion differs reads as before. */
  lemma SetStringThenGetString(m: map<u32, Property>, key: int, value: string, other: int)
    ensures VariantString(Lookup(m[ToU32(key) := Property("", StringValue(value))], key)) == value
    ensures ToU32(other) != ToU32(key) ==>
      VariantString(Lookup(m[ToU32(key) := Property("", StringValue(value))], other)) == VariantString(Lookup(m, other))
  {
  }

  /** The window defaults a reader sees after `initDefaults`. */
  lemma DefaultWindowValues(m: map<u32, Property>)
    ensures var d := WithDefaults(m);
      && Lookup(d, RenderAPI) == StringValue("opengl")
      && Lookup(d, WinX) == IntValue(0) && Lookup(d, WinY) == IntValue(0)
      && Lookup(d, WinWidth) == IntValue(1024) && Lookup(d, WinHeight) == IntValue(768)
      && Lookup(d, WindowsResizable) == BoolValue(true) && Lookup(d, ChildWindow) == BoolValue(false)
  {
    var w := WindowDefaults(AppDefaults(m));
    var d := RenderDefaults(w);
    assert d[RenderAPI] == w[RenderAPI] && d[WinX] == w[WinX] && d[WinY] == w[WinY];
    assert d[WinWidth] == w[WinWidth] && d[WinHeight] == w[WinHeight];
    assert d[WindowsResizable] == w[WindowsResizable] && d[ChildWindow] == w[ChildWindow];
  }

  /** The render defaults a reader sees after `initDefaults`. */
  lemma DefaultRenderValues(m: map<u32, Property>)
    ensures var d := WithDefaults(m);
      && Lookup(d, FSAA) == IntValue(2) && Lookup(d, BPP) == IntValue(32)
      && Lookup(d, DepthBufferDepth) == IntValue(24) && Lookup(d, StencilBufferDepth) == IntValue(24)
      && Lookup(d, PollingMode) == BoolValue(false)
      && Lookup(d, DefaultFont) == StringValue("buildin_arial.bmp")
      && Lookup(d, RenderMode) == IntValue(1)
  {
  }

  /** The version defaults as written: the second write lands on `AppVersionMajor`, so the
      major version reads 1 (stored under the name "AppVersionMinor"), the minor version is
      left as it was (absent in a fresh map) and `AppType` carries the name "AppName". */
  lemma DefaultVersionEntries(m: map<u32, Property>)
    ensures var d := WithDefaults(m);
      && Lookup(d, AppVersionMajor) == IntValue(1)
      && d[AppVersionMajor].name == "AppVersionMinor"
      && Lookup(d, AppVersionMinor) == Lookup(m, AppVersionMinor)
      && Lookup(d, AppVersionPatch) == IntValue(0)
      && d[AppType].name == "AppName"
    ensures Lookup(WithDefaults(map[]), AppVersionMinor) == Empty
  {
  }

  /** The key names: entry k of the table, twenty-two of them, all different. */
  lemma KeyNameTable()
    ensures |ConfigKeyStringTable| == MaxKonfigKey
    ensures ConfigKeyStringTable[RenderAPI] == "RenderAPI"
    ensures ConfigKeyStringTable[AppVersionMinor] == "AppVersionMinor"
    ensures forall i, j :: 0 <= i < j < |ConfigKeyStringTable| ==> ConfigKeyStringTable[i] != ConfigKeyStringTable[j]
  {
  }
}
