/**
 * The constants of `Constantes.py`: the AP1000 module codes and their names, the limit
 * tables of the AP1000 modules and of the AP2040/AP2050 analysers, the error codes, and the
 * replies the drivers return in simulation mode.
 */
module Constants {
  import opened Wrappers
  import Errors

  /** Speed of light in vacuum, in m/s. */
  const LIGHT_SPEED: real := 299792458.0

  // Module codes of the AP1000 mainframe and their names.
  const PWM: int := 3314
  const PWM_NAME: string := "Optical Power Meter"
  const TLS_CBAND: int := 3350
  const TLS_CBAND_NAME: string := "C Band Tunable Laser Source"
  const TLS_LBAND: int := 3352
  const TLS_LBAND_NAME: string := "L Band Tunable Laser Source"
  const OSW: int := 3344
  const OSW_NAME: string := "Optical Switch"
  const ATT: int := 3364
  const ATT_NAME: string := "Optical Attenuator"
  const EFA_PREAMP: int := 3370
  const EFA_PREAMP_NAME: string := "Erbium Doped Fiber Pre-Amplifier"
  const EFA_BOOST: int := 3371
  const EFA_BOOST_NAME: string := "Erbium Doped Fiber Booster Amplifier"
  const EFA_INLINE: int := 3372
  const EFA_INLINE_NAME: string := "Erbium Doped Fiber In-Line Amplifier"

  /** The `Modules` dictionary: module code to module name. */
  const Modules: map<int, string> := map[
    TLS_CBAND := TLS_CBAND_NAME,
    TLS_LBAND := TLS_LBAND_NAME,
    PWM := PWM_NAME,
    ATT := ATT_NAME,
    EFA_PREAMP := EFA_PREAMP_NAME,
    EFA_BOOST := EFA_BOOST_NAME,
    EFA_INLINE := EFA_INLINE_NAME,
    OSW := OSW_NAME]

  // Slots of the AP1000 mainframe.
  const SLOT_MIN: int := 0
  const SLOT_MAX: int := 92

  // Power meter.
  const PWM_CHTYPE: map<string, string> := map["1" := "Standard", "3" := "High Power"]
  const PWM_WLMIN: real := 800.0
  const PWM_WLMAX: real := 1700.0
  const PWM_AVGMIN: real := 15.0
  const PWM_AVGMAX: real := 10000.0

  // Attenuator.
  const ATT_CHNUMBER: int := 2
  const ATT_ATTMIN: real := 0.0
  const ATT_ATTMAX: real := 31.0
  const ATT_WLMIN: real := 1300.0
  const ATT_WLMAX: real := 1700.0

  // Tunable laser tables, indexed by type: 0 for the C band, 2 for the L band, 1 unused.
  const TLS_POWMIN: seq<Option<real>> := [Some(-30.0), None, Some(-30.0)]
  const TLS_POWMAX: seq<Option<real>> := [Some(13.0), None, Some(13.0)]
  const TLS_WLMIN: seq<Option<real>> := [Some(1526.0), None, Some(1567.0)]
  const TLS_WLMAX: seq<Option<real>> := [Some(1567.0), None, Some(1608.0)]
  const TLS_FRMIN: seq<Option<real>> :=
    [Some(LIGHT_SPEED / 1526.0), None, Some(LIGHT_SPEED / 1567.0)]
  const TLS_FRMAX: seq<Option<real>> :=
    [Some(LIGHT_SPEED / 1567.0), None, Some(LIGHT_SPEED / 1608.0)]

  // Erbium amplifier: maximum pump current in mA for the pre-amplifier, booster and in-line types.
  const EFA_IPMAX: seq<real> := [600.0, 1000.0, 600.0]

  // AP2050.
  const AP2050_WLMIN: real := 1526.0
  const AP2050_WLMAX: real := 1566.0
  const AP2050_MINSPAN: real := 0.01
  const AP2050_MAXSPAN: real := 40.0

  // AP2040.
  const AP2040_WLMIN: real := 1526.0
  const AP2040_WLMAX: real := 1566.0
  const AP2040_MINSPAN: real := 0.01
  const AP2040_MAXSPAN: real := 40.0
  const AP2040_MAXCENTER: real := AP2040_WLMAX - AP2040_MINSPAN / 2.0
  const AP2040_MINCENTER: real := AP2040_WLMIN + AP2040_MINSPAN / 2.0
  const AP2040_MINYRES: real := 0.001
  const AP2040_MAXYRES: real := 100.0
  const AP2040_MINNPTS: int := 2
  const AP2040_MAXNPTS: int := 20000

  // Error codes: the APXXXX and AP1000 families share their first four values.
  const APXXXX_ERROR_COMMUNICATION: int := -1
  const APXXXX_ERROR_BADCOMMAND: int := -2
  const APXXXX_ERROR_ARGUMENT_TYPE: int := -11
  const APXXXX_ERROR_ARGUMENT_VALUE: int := -12
  const AP1000_ERROR_COMMUNICATION: int := -1
  const AP1000_ERROR_BADCOMMAND: int := -2
  const AP1000_ERROR_ARGUMENT_TYPE: int := -11
  const AP1000_ERROR_ARGUMENT_VALUE: int := -12
  const AP1000_ERROR_SLOT_NOT_DEFINED: int := -151
  const AP1000_ERROR_SLOT_NOT_GOOD_TYPE: int := -152
  const AP1000_ERROR_SLOT_TYPE_NOT_DEFINED: int := -153
  const AP1000_ERROR_VARIABLE_NOT_DEFINED: int := -301

  // Replies used in simulation mode.
  const SimuAP1000_ID: string := "APEX-TECHNOLOGIES/AP1000-8/00001/1.0\n"
  const SimuAP1000_SlotID: string :=
    "APEX-TECHNOLOGIES" + "/" + "3314" + "/" + ("13" + "-" + "3314" + "-" + "A" + "-" + "13" + "-" + "000502") + "/" + "1.0\n"
  const SimuAP1000_SlotUsed: string := "1\n"
  const SimuPWM_SlotID: string :=
    "APEX-TECHNOLOGIES" + "/" + "3314" + "/" + ("13" + "-" + "3314" + "-" + "A" + "-" + "13" + "-" + "000502") + "/" + "1.0\n"
  const SimuPWM_AvgTime: string := "1000\n"
  const SimuPWM_Wavelength: string := "1550.000\n"
  const SimuPWM_Power_dBm: string := "2.45\n"
  const SimuPWM_Power_mW: string := "1.85\n"
  const SimuATT_SlotID: string :=
    "APEX-TECHNOLOGIES" + "/" + "3364" + "/" + ("12" + "-" + "3364" + "-" + "A" + "-" + "2" + "-" + "000504") + "/" + "0.0\n"
  const SimuATT_Attenuation: string := "10\n"
  const SimuATT_Wavelength: string := "1528\n"
  const SimuTLS_SlotID: string :=
    "APEX-TECHNOLOGIES" + "/" + "3350" + "/" + ("10" + "-" + "3350" + "-" + "A" + "-" + "000503") + "/" + "0.0\n"
  const SimuTLS_Power: string := "5\n"
  const SimuTLS_Wavelength: string := "1553.310\n"
  const SimuEFA_SlotID: string :=
    "APEX-TECHNOLOGIES" + "/" + "3371" + "/" + ("09" + "-" + "3371" + "-" + "A" + "-" + "000500") + "/" + "0.0\n"
  const SimuEFA_InVoltage: string := "512\n"
  const SimuEFA_OutVoltage: string := "624\n"
  const SimuEFA_InPower: string := "-10\n"
  const SimuEFA_OutPower: string := "15\n"
  const SimuAP2050_ID: string := "APEX Technologies/2050-A/09-2050-A-000000/9.14\n"
  const SimuAP2050_StartWavelength: string := "1526.000\n"
  const SimuAP2050_StopWavelength: string := "1566.000\n"
  const SimuAP2050_Span: string := "20\n"
  const SimuAP2050_Center: string := "1551.234\n"
  const SimuAP2050_XResolution: string := "0.100\n"
  const SimuAP2050_YResolution: string := "2.000\n"
  const SimuAP2050_NPoints: string := "10000\n"
  const SimuAP2040_ID: string := "APEX Technologies/2041-B/14-2041-B-000601/9.27\n"

  /** `Modules` has exactly the eight module codes as keys, each with its own name. */
  lemma ModulesTable()
    ensures Modules.Keys == {PWM, TLS_CBAND, TLS_LBAND, OSW, ATT, EFA_PREAMP, EFA_BOOST, EFA_INLINE}
    ensures |Modules| == 8
    ensures forall c, d :: c in Modules && d in Modules && c != d ==> Modules[c] != Modules[d]
  {
    ModuleCodes();
    forall c, d | c in Modules && d in Modules && c != d
      ensures Modules[c] != Modules[d]
    {
      ModuleNameLength(c);
      ModuleNameLength(d);
    }
  }

  /** The keys of `Modules` are the eight codes. */
  lemma ModuleCodes()
    ensures Modules.Keys == {PWM, TLS_CBAND, TLS_LBAND, OSW, ATT, EFA_PREAMP, EFA_BOOST, EFA_INLINE}
    ensures |Modules| == 8
  {
    var ks := {PWM, TLS_CBAND, TLS_LBAND, OSW, ATT, EFA_PREAMP, EFA_BOOST, EFA_INLINE};
    assert Modules.Keys == ks;
    assert |Modules| == |ks|;
    EightCodes();
  }

  /** The eight codes are distinct. */
  lemma EightCodes()
    ensures |{PWM, TLS_CBAND, TLS_LBAND, OSW, ATT, EFA_PREAMP, EFA_BOOST, EFA_INLINE}| == 8
  {
    var lasers := {TLS_CBAND, TLS_LBAND};
    var amplifiers := {EFA_PREAMP, EFA_BOOST, EFA_INLINE};
    var others := {PWM, OSW, ATT};
    assert |lasers| == 2 && |amplifiers| == 3 && |others| == 3;
    assert lasers !! amplifiers && (lasers + amplifiers) !! others;
    assert {PWM, TLS_CBAND, TLS_LBAND, OSW, ATT, EFA_PREAMP, EFA_BOOST, EFA_INLINE}
      == lasers + amplifiers + others;
  }

  /**
   * The length of each module name; the two lasers, which share one, differ in their first
   * letter, and the booster and the in-line amplifier in their twentieth.
   */
  lemma ModuleNameLength(c: int)
    requires c in Modules
    ensures c == PWM ==> |Modules[c]| == 19
    ensures c == OSW ==> |Modules[c]| == 14
    ensures c == ATT ==> |Modules[c]| == 18
    ensures c == EFA_PREAMP ==> |Modules[c]| == 32
    ensures c in {TLS_CBAND, TLS_LBAND} ==> |Modules[c]| == 27
    ensures c in {EFA_BOOST, EFA_INLINE} ==> |Modules[c]| == 36
    ensures c == TLS_CBAND ==> Modules[c][0] == 'C'
    ensures c == TLS_LBAND ==> Modules[c][0] == 'L'
    ensures c == EFA_BOOST ==> Modules[c][19] == 'B'
    ensures c == EFA_INLINE ==> Modules[c][19] == 'I'
  {
  }

  /** The laser tables: defined for types 0 and 2, undefined for 1, with frequencies c / wavelength. */
  lemma TunableLaserTables()
    ensures |TLS_POWMIN| == |TLS_POWMAX| == |TLS_WLMIN| == |TLS_WLMAX| == |TLS_FRMIN| == |TLS_FRMAX| == 3
    ensures TLS_POWMIN[1].None? && TLS_POWMAX[1].None? && TLS_WLMIN[1].None? && TLS_WLMAX[1].None?
    ensures TLS_FRMIN[1].None? && TLS_FRMAX[1].None?
    ensures forall t | t in {0, 2} ::
      TLS_WLMIN[t].Some? && TLS_WLMAX[t].Some? && TLS_POWMIN[t].Some? && TLS_POWMAX[t].Some?
      && TLS_FRMIN[t] == Some(LIGHT_SPEED / TLS_WLMIN[t].value)
      && TLS_FRMAX[t] == Some(LIGHT_SPEED / TLS_WLMAX[t].value)
      && TLS_WLMIN[t].value < TLS_WLMAX[t].value
      && TLS_POWMIN[t].value < TLS_POWMAX[t].value
      && TLS_FRMAX[t].value < TLS_FRMIN[t].value
    ensures TLS_WLMAX[0] == TLS_WLMIN[2]
  {
    assert LIGHT_SPEED / 1567.0 < LIGHT_SPEED / 1526.0;
    assert LIGHT_SPEED / 1608.0 < LIGHT_SPEED / 1567.0;
  }

  /** The AP2040 center limits keep half the minimum span inside the wavelength range. */
  lemma AP2040CenterLimits()
    ensures AP2040_WLMIN < AP2040_MINCENTER < AP2040_MAXCENTER < AP2040_WLMAX
    ensures AP2040_MAXCENTER - AP2040_MINCENTER == AP2040_WLMAX - AP2040_WLMIN - AP2040_MINSPAN
    ensures AP2040_MINSPAN < AP2040_MAXSPAN == AP2040_WLMAX - AP2040_WLMIN
  {
  }

  /** The two families of error codes agree, and they are the codes `ApexError` knows. */
  lemma ErrorCodes()
    ensures APXXXX_ERROR_COMMUNICATION == AP1000_ERROR_COMMUNICATION == Errors.COMMUNICATION
    ensures APXXXX_ERROR_BADCOMMAND == AP1000_ERROR_BADCOMMAND == Errors.BADCOMMAND
    ensures APXXXX_ERROR_ARGUMENT_TYPE == AP1000_ERROR_ARGUMENT_TYPE == Errors.ARGUMENT_TYPE
    ensures APXXXX_ERROR_ARGUMENT_VALUE == AP1000_ERROR_ARGUMENT_VALUE == Errors.ARGUMENT_VALUE
    ensures AP1000_ERROR_SLOT_NOT_DEFINED == Errors.SLOT_NOT_DEFINED
    ensures AP1000_ERROR_SLOT_NOT_GOOD_TYPE == Errors.SLOT_NOT_GOOD_TYPE
    ensures AP1000_ERROR_SLOT_TYPE_NOT_DEFINED == Errors.SLOT_TYPE_NOT_DEFINED
    ensures AP1000_ERROR_VARIABLE_NOT_DEFINED == Errors.VARIABLE_NOT_DEFINED
    ensures forall c | c in {-1, -2, -11, -12, -151, -152, -153, -301} :: Errors.KnownCode(c)
  {
  }

  /** The AP1000 limits: slots 0..92, power meter 800..1700 nm and 15..10000 ms, pump currents. */
  lemma AP1000Limits()
    ensures SLOT_MIN == 0 && SLOT_MAX == 92
    ensures PWM_WLMIN < PWM_WLMAX && PWM_AVGMIN < PWM_AVGMAX
    ensures ATT_ATTMIN < ATT_ATTMAX && ATT_WLMIN < ATT_WLMAX && ATT_CHNUMBER == 2
    ensures |EFA_IPMAX| == 3 && forall k | 0 <= k < 3 :: EFA_IPMAX[k] > 0.0
    ensures PWM_CHTYPE.Keys == {"1", "3"}
  {
  }
}
