# PyApex instrument drivers, modelled in Dafny

PyApex is the Python driver library for Apex Technologies optical test equipment:
- the AP1000 mainframe and its plug-in modules: tunable and DFB lasers, power meters, polarimeter, erbium amplifier, filter, attenuator, optical switch and OSA;
- the AP2XXX, AP2040 and AP2050 optical spectrum analysers, with the tunable laser and power meter embedded in an AP2XXX;
- the AB3380 filter board and the AB3510 polarimeter board, driven over USB;
- the Etuve temperature chamber, driven over a serial line.

Every driver works the same way. It formats an ASCII command, sends it over the equipment's connection, parses a one-line reply and caches the result in its own fields. This project models that logic, one Dafny module per source file:
- a driver object is a `class` whose fields are the driver's cached state (units, wavelengths, the measurement window, the path of a switch, the EEPROM buffer of a board);
- the connection is a `Transport.Connexion` object: the commands sent so far, in order, whether it is open, and its timeout;
- every reply the driver would receive is a parameter of the method that reads it;
- argument checking follows Python's own rules: `isinstance`, `float()`, `int()` and `str()` on the values a caller may pass are modelled in module `Python`;
- every error the driver raises is a `Failure` value, either an `ApexError` with its code and cause or the Python exception the code raises;
- simulation mode takes the simulated branches, reading the simulation constants of `Constantes.py` (module `Constants`).

Module layout:
- Shared modules:
  - `Wrappers`, `Text`, `Python`, `Errors` (the `ApexError` message table), `Constants`;
  - `Transport`, `Slots` (the `MOD[ss]:` prefixes, identity fields and channel fall-back);
  - `Validation` (range checks and clamping), `MeasurementWindow` (the Start/Stop/Span/Center algebra of the analysers), `Spectrum` (the reply parsers the analysers share).
- Driver modules, one per source file: `AP2XXX`, `Osa`, `OsaFs`, `AP2040`, `AP2050`, `ApexTls`, `ApexPowerMeter`, `AB3380`, `AB3510`, `Etuve`, `Mainframe`, `Ap1000Osa`, `TunableLasers`, `DfbLasers`, `PowerMeters` (`PowerMeter`, `PowerMeterB` and `PowerMeter1` together), `Polarimeters`, `ErbiumAmplifiers`, `Filters`, `Attenuators` and `OpticalSwitches`.

What is proved:
- The measurement-window invariant `Span = Stop - Start` and `Center = Start + Span / 2` holds after these setters:
  - the four Start/Stop/Span/Center setters of the AP2XXX;
  - the Start and Stop setters of the AP2040, the AP2050 and the OSA FS;
  - `SetSpan` and `SetCenter` of the OSA FS, except when the reload's stop reply parses and its start reply does not.
- The invariant is not kept in three cases, as the code does:
  - `AP2040.SetCenter` caches the new center alone;
  - `SetSpan` of the AP2040 and AP2050 fails after sending;
  - an OSA FS reload whose start reply does not parse leaves span and center stale.
- The EEPROM image of the AB3380 decodes back to the parameters it was encoded from.
- The Etuve set-point frame round-trips through the frame decoder.
- The identity parsers give the expected answers on the simulated identities.
- Setters clamp into their limits, or reject out-of-range values without changing state.
- Each command is sent only outside simulation.
- Every error path raises the error the driver raises, with three exceptions, each named under "## Left out":
  - imports of constants that `Constantes.py` lacks are taken as succeeding;
  - `AP2050.AP2050.constructor` uses `AP2050_WLMIN` where the code's undefined `AP2050_MIN` raises a NameError;
  - `Osa.NewOSA` takes the missing import of `AP2XXX_WLMIN` as present.

Where a driver is broken by a missing import or a misspelt name whose intent is obvious, the model gives both halves:
- the code as written, with a lemma showing what it does wrong;
- the intended behaviour, which the rest of the model uses.

These pairs are listed under "## Findings".

Some repairs give only the intended half:
- `AP2050.AP2050.constructor`;
- `Osa.NewOSA`;
- the imports of absent constants.

Each is named under "## Left out".

## Model

| member | source | states |
|---|---|---|
| Errors.Message | Errors.py:11-32 | every message begins with the header "\nPyApex Error " + str(code) + " : " |
| Errors.UnknownCodeIgnoresCause | Errors.py:29-30 | a code outside the table prints the header and "Error code not defined", whatever the cause |
| Errors.DefaultErrorText | Errors.py:5-8 | the default error (code 0, cause None) prints "\nPyApex Error 0 : Error code not defined" |
| Errors.SlotTypeMessagesAgree | Errors.py:23-26 | SLOT_NOT_GOOD_TYPE and SLOT_TYPE_NOT_DEFINED print the same text after their headers |
| Errors.KnownCodeShowsCause | Errors.py:13-28 | each of the eight known codes prints str(cause) inside its message |
| Errors.IntToStringInjective | Errors.py:12 | `str` of an int is injective, so the header determines the code |
| Errors.NatToStringInjective | Errors.py:12 | `str` of a natural number is injective |
| Errors.IntToStringHasNoSpace | Errors.py:12 | the printed code contains no space, so the header can be read back |
| Errors.MessageDeterminesCode | Errors.py:11-32 | two equal messages carry the same code |
| Constants.ModulesTable | Constantes.py:16-42 | `Modules` has exactly the eight module codes as keys, and distinct codes name distinct modules |
| Constants.ModuleCodes | Constantes.py:33-42 | the keys of `Modules` are the eight codes and there are eight of them |
| Constants.EightCodes | Constantes.py:16-31 | the eight module codes are distinct |
| Constants.ModuleNameLength | Constantes.py:17-31 | the length of each module name, and the letters that tell the C/L lasers and the booster/in-line amplifiers apart |
| Constants.TunableLaserTables | Constantes.py:73-82 | the laser tables have three entries, are None at index 1, bound power by [-30, 13] and wavelength by [1526, 1567] and [1567, 1608], and give frequency limits as c over the wavelength limits |
| Constants.AP2040CenterLimits | Constantes.py:101-109 | WLMIN < MINCENTER < MAXCENTER < WLMAX, the center range is the wavelength range less MINSPAN, and MAXSPAN is the whole range |
| Constants.ErrorCodes | Constantes.py:119-132 | the APXXXX and AP1000 codes agree on -1, -2, -11, -12, and all eight codes are those `ApexError` prints |
| Constants.AP1000Limits | Constantes.py:44-69 | slots 0..92, power-meter limits ordered, two attenuator channels, positive pump limits, and channel-type keys "1" and "3" |
| Text.TwoDigitsRoundTrip | AP1000/__init__.py:111 | for slots 0..99, `str(slot).zfill(2)` is two digits that read back as the slot |
| Slots.PrefixReadsBack | AP1000/PowerMeter.py:98 | a module prefix is the family, "[", two digits that read back as the slot, and "]:" |
| Slots.PrefixInjective | AP1000/PowerMeter.py:98 | two slots of one family have the same prefix only when they are the same slot |
| Slots.Field | AP1000/PowerMeter.py:48 | `s.split(sep)[k]` exists exactly for -len <= k < len, is free of the separator, and is the k-th field |
| Slots.FieldsOfIdentity | AP1000/PowerMeter.py:48 | the second and third "/" fields of "a/b/c/d" are b and c when no part holds "/" |
| Slots.FloatArg | AP1000/PowerMeter.py:65-69 | `float(v)` succeeds exactly when Python's conversion does, with its value, and otherwise gives ARGUMENT_TYPE |
| Slots.IntArg | AP1000/OSA.py:51-55 | `int(v)` succeeds exactly when Python's conversion does, with its value, and otherwise gives ARGUMENT_TYPE |
| Slots.Channel | AP1000/PowerMeter.py:161-163 | a channel number is kept exactly when it is at most the channel count or is 1; otherwise it becomes 1 |
| Slots.ChannelIdempotent | AP1000/PowerMeter.py:227-236 | applying the channel fall-back twice, as `SetFrequency` then `SetWavelength` do, is applying it once |
| Slots.ChosenUnit | AP1000/PowerMeter.py:105-121 | the unit becomes str(Unit), with the caller's casing, exactly when its lower-case form is valid, and a valid unit stays valid |
| Slots.PowerForWriting | AP1000/TunableLaser.py:61-84 | fails exactly for an unknown unit or a non-positive mW power, with VARIABLE_NOT_DEFINED or ARGUMENT_VALUE; in dBm the power is written as given |
| Slots.PowerForReading | AP1000/TunableLaser.py:87-101 | fails exactly for an unknown unit, with VARIABLE_NOT_DEFINED; in dBm the power is read as given |
| Slots.DbmRoundTrip | AP1000/TunableLaser.py:70-98 | in dBm, reading back what was written gives the power |
| Slots.ValidUnitConverts | AP1000/TunableLaser.py:156-173 | a unit `SetUnit` accepts never makes the conversions raise VARIABLE_NOT_DEFINED |
| Slots.InitialUnitValid | AP1000/TunableLaser.py:19-23 | the initial unit "dBm" is one of the valid units |
| Slots.WavelengthOfFrequency | AP1000/TunableLaser.py:280-285 | a frequency between c/hi and c/lo gives a wavelength c/f between lo and hi |
| Slots.LightSpeedInvolution | AP1000/Filter.py:29-38 | c/(c/x) = x for every non-zero x |
| Slots.SampleOf | AP1000/Polarimeter.py:252-257 | a token is a sample exactly when it parses, with its value, and NaN otherwise |
| Validation.NumberIn | AP2XXX/__init__.py:106-111 | succeeds exactly for an int or float within [lo, hi], with its value; otherwise ARGUMENT_TYPE for a non-number, ARGUMENT_VALUE for a number out of range |
| Validation.IntIn | AP2XXX/__init__.py:339-344 | succeeds exactly for an int within [lo, hi], with its value; otherwise ARGUMENT_TYPE for a non-int, ARGUMENT_VALUE out of range |
| Validation.TraceNumber | AP2XXX/__init__.py:659-661 | a trace number is accepted exactly when it is an int equal to one of 0..6 |
| Validation.Clamp | AP1000/PowerMeter.py:71-80 | the result lies in [lo, hi], is x inside it, lo below it and hi above it |
| Validation.ClampIdempotent | AP1000/PowerMeter.py:71-80 | clamping twice is clamping once |
| Validation.ClampMonotone | AP1000/PowerMeter.py:71-80 | clamping keeps the order of its arguments |
| Transport.Connexion.Send | Common.py:2-16 | the command is appended to what was written; the state is unchanged |
| Transport.Connexion.Close | AP1000/__init__.py:55-67 | the connection is closed and nothing is written |
| Transport.Unless | AP1000/__init__.py:110-113 | nothing is written in simulation mode and exactly one command otherwise |
| Transport.Emit | AP1000/__init__.py:110-113 | writes the command only outside simulation and leaves the state alone |
| MeasurementWindow.Between | AP2XXX/__init__.py:27-30 | the initial window spans lo..hi and satisfies Span = Stop - Start and Center = Start + Span/2 |
| MeasurementWindow.WithStart | AP2XXX/__init__.py:117-119 | the new start is x, the stop stays, and the window stays consistent |
| MeasurementWindow.WithStop | AP2XXX/__init__.py:159-161 | the new stop is x, the start stays, and the window stays consistent |
| MeasurementWindow.WithSpan | AP2XXX/__init__.py:201-204 | the span is s, the center stays, and the window stays consistent |
| MeasurementWindow.WithCenter | AP2XXX/__init__.py:243-246 | the center is c, the span stays, and the window stays consistent |
| MeasurementWindow.CenterIsMidpoint | AP2XXX/__init__.py:117-119 | in a consistent window, Center = (Start + Stop)/2, Start = Center - Span/2 and Stop = Center + Span/2 |
| MeasurementWindow.SettersFixCurrentValues | AP2XXX/__init__.py:117-119 | writing back the value a consistent window already holds changes nothing |
| MeasurementWindow.SpanCenterCommute | AP2XXX/__init__.py:201-246 | setting the span and the center gives the same window in either order |
| MeasurementWindow.StartStopCommute | AP2XXX/__init__.py:117-161 | setting both ends gives the same window in either order, the one between the two ends |
| Transport.Connexion.SetTimeout | AP2XXX/apextls.py:423 | the timeout becomes t and nothing else changes |
| AP2XXX.MarkerTokens | AP2XXX/__init__.py:845-848 | the marker tokens are the space-separated fields of the reply without its last character, less the first one |
| AP2XXX.SimulatedDataDropsFirst | AP2XXX/__init__.py:462-475 | dropping the first point of a simulated trace of n points leaves n - 1 points on the evenly spaced grid |
| AP2XXX.AP2XXX.constructor | AP2XXX/__init__.py:15-47 | the window spans [WLMIN, WLMAX] with consistent span and center; noise mask -70, both scale units 1, polarisation mode 0 |
| AP2XXX.AP2XXX.SetStartWavelength | AP2XXX/__init__.py:97-120 | a number outside [WLMIN, WLMAX] or a non-number raises and changes nothing; otherwise "SPSTRTWL<v>" outside simulation, the start becomes v, the stop stays, span and center follow |
| AP2XXX.AP2XXX.SetStopWavelength | AP2XXX/__init__.py:139-162 | the same for the stop, with "SPSTOPWL<v>" |
| AP2XXX.AP2XXX.SetSpan | AP2XXX/__init__.py:181-205 | a span in [MINSPAN, MAXSPAN] is written as "SPSPANWL<v>" and becomes the span around the unchanged center; otherwise the error and no change |
| AP2XXX.AP2XXX.SetCenter | AP2XXX/__init__.py:224-247 | a center in [MINCENTER, MAXCENTER] is written as "SPCTRWL<v>" and becomes the center with the span kept; otherwise the error and no change |
| AP2XXX.AP2XXX.SetXResolution | AP2XXX/__init__.py:266-275 | writes "SPSWPRES<v>" outside simulation, unchecked |
| AP2XXX.AP2XXX.SetYResolution | AP2XXX/__init__.py:293-313 | a number in [MINYRES, MAXYRES] is written as "SPDIVY<v>"; otherwise the error and nothing written |
| AP2XXX.AP2XXX.SetNPoints | AP2XXX/__init__.py:331-350 | an int in [MINNPTS, MAXNPTS] is written as "SPNBPTSWP<n>"; otherwise the error and nothing written |
| AP2XXX.AP2XXX.GetNPoints | AP2XXX/__init__.py:351-366 | sends "SPNBPTSWP?" outside simulation and returns the reply without its last character as an int |
| AP2XXX.AP2XXX.Run | AP2XXX/__init__.py:367-402 | sends the sweep command chosen from the argument; returns 1 in simulation, else the integer reply or 0 when it is not an integer |
| AP2XXX.AP2XXX.Stop | AP2XXX/__init__.py:403-411 | sends "SPSWP3" outside simulation |
| AP2XXX.AP2XXX.GetData | AP2XXX/__init__.py:412-475 | a non-string scale or non-number trace raises; otherwise the Y query "SPDATAL"/"SPDATAD" and the X query, every token a number or 0.0, both lists without their first point; in simulation it fails exactly on an unreadable or zero simulated point count, and otherwise succeeds with the evenly spaced grid |
| AP2XXX.AP2XXX.SetNoiseMask | AP2XXX/__init__.py:476-494 | a number is written as "SPSWPMSK<v>" and cached; anything else raises and changes nothing |
| AP2XXX.AP2XXX.SetScaleXUnit | AP2XXX/__init__.py:495-526 | "nm" (any case) gives 1, other strings 0, the ints 0 and 1 themselves; other values raise; the code is written and cached only on success |
| AP2XXX.AP2XXX.SetScaleYUnit | AP2XXX/__init__.py:527-558 | "log" gives 1, other strings 0, the ints 0 and 1 themselves; other values raise; written and cached only on success |
| AP2XXX.AP2XXX.SetPolarizationMode | AP2XXX/__init__.py:559-596 | "1&2" gives 1, "1" gives 2, "2" gives 3, other strings 0, the ints 0..3 themselves; other values raise; written and cached only on success |
| AP2XXX.AP2XXX.GetMarkers | AP2XXX/__init__.py:806-857 | after the axis and trace checks, the numbers among the marker tokens with the unit words skipped, from the marker query chosen by the corrected axis selection (see "## Findings"); empty in simulation |
| AP2XXX.AP2XXX.FindPeak | AP2XXX/__init__.py:634-710 | after the axis, trace and threshold checks, the peak markers (read with the corrected axis selection of `GetMarkers`) reduced to all, mean, min or max, with 0.0 for none |
| AP2XXX.AP2XXX.LineWidth | AP2XXX/__init__.py:880-934 | after the trace check, the values padded with 0.0 to three and the one `get` selects: width, center or level |
| AP2XXX.AP2XXX.SaveToFile | AP2XXX/__init__.py:935-971 | after the trace and directory checks, "SPSAVEB" when the type is "txt" in any case and "SPSAVEA" otherwise |
| AP2XXX.SettersKeepWindowConsistent | AP2XXX/__init__.py:117-246 | every window setter leaves Span = Stop - Start and Center = Start + Span/2 |
| Spectrum.SweepCommand | AP2XXX/__init__.py:375-394 | "SPSWP0" exactly for "auto" (any case) or a number equal to 0, "SPSWP2" exactly for "repeat" or 2, "SPSWP1" otherwise |
| Spectrum.SweepSpellingsAgree | AP2XXX/__init__.py:367-394 | the documented pairs "auto"/0, "single"/1 and "repeat"/2 select the same command, in any case |
| Spectrum.ModeValue | AP2XXX/__init__.py:506-524 | a string is replaced by its code; the value is accepted exactly when it is an int among lo..hi, and the error is ARGUMENT_VALUE for an int or string, ARGUMENT_TYPE otherwise |
| Spectrum.ModeValueStable | AP2XXX/__init__.py:506-524 | giving back the stored value selects that same value again |
| Spectrum.OptionSpellings | AP2XXX/__init__.py:506-594 | every string is accepted by the three options; "nm", "log", "1+2", "1&2", "1" and "2" map to their documented codes |
| Spectrum.OptionRejections | AP2XXX/__init__.py:515-524 | an int outside the codes raises ARGUMENT_VALUE, a float ARGUMENT_TYPE, and True passes as 1 |
| Spectrum.AxisSelection | AP2XXX/__init__.py:810-836 | the corrected selection: X exactly for 0, False and 'x'/'X', Y for every other accepted axis |
| Spectrum.AxisZeroReadsY | AP2XXX/__init__.py:821-836 | as written, the documented X spelling 0 passes the check but reads the Y markers |
| Spectrum.TraceCheck | AP2XXX/__init__.py:825-831 | a trace passes exactly when it is an int (bools included) in 0..6; the error is ARGUMENT_TYPE for a non-int, else ARGUMENT_VALUE |
| Spectrum.MarkersCheck | AP2XXX/__init__.py:817-831 | `GetMarkers` goes on exactly when the axis is an int or string that is accepted and the trace passes; a wrong axis type raises first |
| Spectrum.PeakCheck | AP2XXX/__init__.py:653-665 | `FindPeak` goes on exactly when the trace passes, the axis is accepted and the threshold is a number; a non-int trace raises first |
| Spectrum.Numbers | AP2XXX/__init__.py:849-854 | at most one value per token |
| Spectrum.NumbersAppend | AP2XXX/__init__.py:909-915 | the numbers of two token lists in a row are the numbers of their concatenation |
| Spectrum.NumbersSound | AP2XXX/__init__.py:849-854 | every value kept is the number of a token that is not a unit word |
| Spectrum.NumbersComplete | AP2XXX/__init__.py:849-854 | every token that is a number and not a unit word is kept |
| Spectrum.ParseMarkers | AP2XXX/__init__.py:849-854 | the marker loop computes the numbers of the tokens |
| Spectrum.ReadReal | AP2XXX/__init__.py:122-137 | `float(reply[:-1])` exactly when it parses, with its value, else ValueError |
| Spectrum.ReadInt | AP2XXX/__init__.py:351-366 | `int(reply[:-1])` exactly when it parses, with its value, else ValueError |
| Spectrum.DataValues | AP2XXX/__init__.py:446-451 | one value per token: its number, or 0.0 when it is not one |
| Spectrum.DataTokens | AP2XXX/__init__.py:445-446 | a data reply has at least one token |
| Spectrum.ParseData | AP2XXX/__init__.py:446-451 | the data loop computes `DataValues` |
| Spectrum.SimulatedTrace | AP2XXX/__init__.py:462-470 | fails exactly for a zero count (division by zero); otherwise n points, X at start + i * (stop - start)/n |
| Spectrum.SimulatedTraceSpacing | AP2XXX/__init__.py:464-470 | successive simulated points are one step apart and n steps reach stop |
| Spectrum.MinOf | AP2XXX/__init__.py:687-693 | the smallest element is an element and bounds every element from below |
| Spectrum.MaxOf | AP2XXX/__init__.py:697-703 | the largest element is an element and bounds every element from above |
| Spectrum.SumAtLeast | AP2XXX/__init__.py:680-683 | a lower bound of every element bounds the sum by n times it |
| Spectrum.SumAtMost | AP2XXX/__init__.py:680-683 | an upper bound of every element bounds the sum by n times it |
| Spectrum.MeanBetweenMinAndMax | AP2XXX/__init__.py:678-703 | the mean of the peaks lies between the smallest and the largest |
| Spectrum.MeanPeak | AP2XXX/__init__.py:678-685 | the mean loop gives sum/len, or 0.0 for no peak |
| Spectrum.MinPeak | AP2XXX/__init__.py:687-695 | the min loop gives the smallest peak, or 0.0 for no peak |
| Spectrum.MaxPeak | AP2XXX/__init__.py:697-705 | the max loop gives the largest peak, or 0.0 for no peak |
| Spectrum.Reduce | AP2XXX/__init__.py:675-705 | "all" gives the list itself; any other option a single value, 0.0 for no peak, a peak for min and max |
| Spectrum.ReducePeaks | AP2XXX/__init__.py:675-705 | the reduction loops compute `Reduce` |
| Spectrum.LineValuesOfOnePart | AP2XXX/__init__.py:907-915 | a line-width reply without "_" gives the numbers of its space tokens |
| Spectrum.ParseLineWidth | AP2XXX/__init__.py:906-917 | the parsed values, in order, padded with 0.0 to at least three |
| Spectrum.PickLineWidth | AP2XXX/__init__.py:922-932 | "all" gives every value, "center" the second, "level" the third, anything else the first |
| Osa.GetType | AP2XXX/osa.py:44-53 | fails (IndexError) exactly when the identity has no "/"; otherwise "AP" followed by a "/"-free field |
| Osa.GetTypeOfFields | AP2XXX/osa.py:44-53 | the type of an identity joined from "/"-free fields is "AP" and its second field |
| Osa.GetTypeOfFour | AP2XXX/osa.py:44-53 | the identity "a/b/c/d" has the type "AP" + b |
| Osa.NewOSA | AP2XXX/osa.py:8-34 | fails exactly when the type cannot be read; otherwise a fresh analyser on the equipment's connection, over the full wavelength range, together with its type |
| OsaFs.SpanTargetsAsWritten | AP2XXX/osafs.py:119-120 | as written, both ends are "center minus half the span", the second read after the start setter moved the center |
| OsaFs.CenterTargetsAsWritten | AP2XXX/osafs.py:152-153 | as written, both ends are "center minus half the span", the second read after the start setter changed the span |
| OsaFs.SpanTargetsAsWrittenHalveTheSpan | AP2XXX/osafs.py:107-125 | on the initial window, asking for a 10 nm span writes the ends 1540 and 1545, a 5 nm window |
| OsaFs.CenterTargetsAsWrittenMissTheCenter | AP2XXX/osafs.py:140-158 | on the initial window, centering on 1550 nm writes 1535 and 1537.5, whose center is not 1550 |
| OsaFs.SpanTargets | AP2XXX/osafs.py:107-125 | the corrected ends are `s` apart around the current center, the window `WithSpan` gives |
| OsaFs.CenterTargets | AP2XXX/osafs.py:140-158 | the corrected ends have the center `c` and keep the current span, the window `WithCenter` gives |
| OsaFs.FastSweepMode | AP2XXX/osafs.py:183-193 | accepts exactly strings and numbers (else ARGUMENT_TYPE); the result is 1 or 2, and 1 exactly for "fast" in any case or a number other than 2 |
| OsaFs.ModeName | AP2XXX/osafs.py:224-230 | "Fast" exactly for 1, "Sensitive" exactly for 2, "Unknown Mode" otherwise |
| OsaFs.FastSweepModeNamed | AP2XXX/osafs.py:173-230 | an accepted mode is stored in normal form, which is accepted unchanged and always has a name |
| OsaFs.GetModeAsWritten | AP2XXX/osafs.py:215 | as written, every call raises a NameError on the misspelt `isintance` |
| OsaFs.GetModeAsWrittenAlwaysFails | AP2XXX/osafs.py:202-217 | the documented Types 'd' and 's' both fail as written |
| OsaFs.RunCommand | AP2XXX/osafs.py:245-257 | "OSAFSRUN2" exactly for "repeat" in any case or a number equal to 2, "OSAFSRUN1" for any other string or number; other types raise the NameError of the unimported error constant |
| OsaFs.OsaFs.constructor | AP2XXX/osafs.py:8-23 | the window 1530..1560 nm in high-sensitivity mode (2), on the equipment's connection |
| OsaFs.OsaFs.SetStartWavelength | AP2XXX/osafs.py:33-51 | a non-number raises ARGUMENT_TYPE and changes nothing; a number is sent outside simulation and becomes the start, span and center following |
| OsaFs.OsaFs.SetStopWavelength | AP2XXX/osafs.py:70-88 | a non-number raises ARGUMENT_TYPE and changes nothing; a number is sent outside simulation and becomes the stop, span and center following |
| OsaFs.OsaFs.GetStartWavelength | AP2XXX/osafs.py:54-67 | outside simulation the query is sent and the reply parsed; in simulation slicing the cached float fails |
| OsaFs.OsaFs.GetStopWavelength | AP2XXX/osafs.py:91-104 | outside simulation the query is sent and the reply parsed; in simulation slicing the cached float fails |
| OsaFs.OsaFs.Reload | AP2XXX/osafs.py:122-123 | the stop is read and cached, then the start; a failing read stops there; span and center are untouched |
| OsaFs.OsaFs.ReloadQueries | AP2XXX/osafs.py:122-123 | no query in simulation; otherwise the stop query first, and the start query only after a good stop reply |
| OsaFs.OsaFs.WriteEndsAndReload | AP2XXX/osafs.py:119-125 | both ends are sent, then reloaded; with good replies the window is what the instrument reports |
| OsaFs.OsaFs.SetSpan | AP2XXX/osafs.py:107-125 | a non-number raises ARGUMENT_TYPE and changes nothing; a number writes the corrected ends and reloads the window |
| OsaFs.OsaFs.SetCenter | AP2XXX/osafs.py:140-158 | a non-number raises ARGUMENT_TYPE and changes nothing; a number writes the corrected ends and reloads the window |
| OsaFs.OsaFs.GetSpan | AP2XXX/osafs.py:128-137 | succeeds exactly outside simulation with both replies good, and gives stop minus start of the reloaded ends; in simulation it fails with the slice error and a bad stop reply with that reply's error, both leaving the ends as they were; a good stop but bad start caches the stop, keeps the start and fails with the start reply's error |
| OsaFs.OsaFs.GetCenter | AP2XXX/osafs.py:161-170 | succeeds exactly outside simulation with both replies good, and gives the midpoint of the reloaded ends; in simulation it fails with the slice error and a bad stop reply with that reply's error, both leaving the ends as they were; a good stop but bad start caches the stop, keeps the start and fails with the start reply's error |
| OsaFs.OsaFs.SetOSAMode | AP2XXX/osafs.py:173-199 | the mode `FastSweepMode` gives is sent outside simulation and cached; a refused mode changes nothing |
| OsaFs.OsaFs.GetOSAMode | AP2XXX/osafs.py:202-232 | with the type check corrected: a non-string Type raises ARGUMENT_TYPE; outside simulation the mode is queried and cached; 's' gives its name, any other Type the code |
| OsaFs.OsaFs.Run | AP2XXX/osafs.py:235-260 | the command `RunCommand` chooses is sent outside simulation; a refused Type sends nothing |
| OsaFs.OsaFs.Stop | AP2XXX/osafs.py:263-269 | "OSAFSSTOP" is sent outside simulation, nothing else changes |
| OsaFs.OsaFs.GetNPoints | AP2XXX/osafs.py:272-299 | a bad trace raises its error and sends nothing; in simulation the drawn count; otherwise the integer reply, or 0 when it is not one |
| OsaFs.OsaFs.FetchTrace | AP2XXX/osafs.py:336-357 | the level and wavelength requests are sent in that order and both replies parsed token by token |
| OsaFs.OsaFs.PointsOfFirstTrace | AP2XXX/osafs.py:327 | the point count asked for is that of trace 1, which passes the trace check |
| OsaFs.OsaFs.GetData | AP2XXX/osafs.py:302-369 | the Scale and trace checks in order; outside simulation every reply token becomes a value; in simulation X is the evenly spaced grid over the cached window |
| AP2040.Query | AP2040/__init__.py:72-195 | every getter sends a query ending in "?" and a newline |
| AP2040.SimulatedReply | AP2040/__init__.py:72-195 | the simulated getters answer with the AP2050 simulation strings |
| AP2040.SimulatedStopIsStart | AP2040/__init__.py:100-108 | in simulation the stop wavelength reads back the simulated start, not the simulated stop |
| AP2040.RunCommand | AP2040/__init__.py:219-227 | a non-string has no `lower`; a string runs exactly when it is "auto", "single" or "repeat" in any case, selecting SPSWP0, SPSWP1 or SPSWP2; any other leaves the command unbound |
| AP2040.RunSpellings | AP2040/__init__.py:219-227 | the choice ignores case and the three kinds select three distinct commands; a number is refused |
| AP2040.CenterCheckAsWritten | AP2040/__init__.py:136-142 | as written, a non-number raises ARGUMENT_TYPE and every number raises the NameError of `Span` |
| AP2040.CenterCheckAsWrittenRejectsValidCenter | AP2040/__init__.py:136-142 | the center of the full range passes the corrected check and fails the written one |
| AP2040.AP2040.constructor | AP2040/__init__.py:10-18 | the window spans AP2040_WLMIN..AP2040_WLMAX on the given connection |
| AP2040.AP2040.SetStartWavelength | AP2040/__init__.py:55-69 | a non-number or a value outside [AP2040_WLMIN, AP2040_WLMAX] raises and changes nothing; a valid one is sent outside simulation and becomes the start, span and center following |
| AP2040.AP2040.SetStopWavelength | AP2040/__init__.py:83-97 | a non-number or a value outside [AP2040_WLMIN, AP2040_WLMAX] raises and changes nothing; a valid one is sent outside simulation and becomes the stop, span and center following |
| AP2040.AP2040.SetSpan | AP2040/__init__.py:110-124 | a value outside [AP2040_MINSPAN, AP2040_MAXSPAN] raises; a valid one is sent, then the update fails on the undefined `Wavelength` and the window is unchanged |
| AP2040.AP2040.SetCenter | AP2040/__init__.py:136-148 | with the check applied to the center: outside [AP2040_MINCENTER, AP2040_MAXCENTER] raises; a valid one is sent and stored as the center alone, start, stop and span untouched |
| AP2040.AP2040.SetXResolution | AP2040/__init__.py:160-163 | the value is sent outside simulation without a check |
| AP2040.AP2040.SetYResolution | AP2040/__init__.py:175-185 | a non-number or a value outside [AP2040_MINYRES, AP2040_MAXYRES] raises and sends nothing; a valid one is sent outside simulation |
| AP2040.AP2040.SetNPoints | AP2040/__init__.py:197-207 | a non-int or a value outside [AP2040_MINNPTS, AP2040_MAXNPTS] raises and sends nothing; a valid one is sent outside simulation |
| AP2040.AP2040.Get | AP2040/__init__.py:72-195 | the query is sent outside simulation and the reply, or the simulated one, is read as a number |
| AP2040.AP2040.GetNPoints | AP2040/__init__.py:209-217 | the query is sent outside simulation and the reply, or the simulated one, is read as an integer |
| AP2040.AP2040.Run | AP2040/__init__.py:219-227 | in simulation nothing is checked or sent; otherwise the command `RunCommand` chooses is sent, and a refused kind sends nothing |
| AP2040.AP2040.Stop | AP2040/__init__.py:229-232 | "SPSWP3" is sent outside simulation |
| AP2040.AP2040.GetData | AP2040/__init__.py:234-245 | in simulation the data are never bound; otherwise the point count is read, then the raw Y and X replies of the trace are returned |
| AP2050.AP2050.constructor | AP2050/__init__.py:10-18 | the window spans AP2050_WLMIN..AP2050_WLMAX, centered on its midpoint |
| AP2050.AP2050.SetStartWavelength | AP2050/__init__.py:55-69 | a non-number or a value outside [AP2050_WLMIN, AP2050_WLMAX] raises and changes nothing; a valid one is sent outside simulation and becomes the start, span and center following |
| AP2050.AP2050.SetStopWavelength | AP2050/__init__.py:83-97 | a non-number or a value outside [AP2050_WLMIN, AP2050_WLMAX] raises and changes nothing; a valid one is sent outside simulation and becomes the stop, span and center following |
| AP2050.AP2050.SetSpan | AP2050/__init__.py:110-124 | a value outside [AP2050_MINSPAN, AP2050_MAXSPAN] raises; a valid one is sent, then the update fails on the undefined `Wavelength` and the window is unchanged |
| AP2050.AP2050.GetStartWavelength | AP2050/__init__.py:72-80 | the query is sent outside simulation and the reply, or the simulated start, is read as a number |
| AP2050.AP2050.GetStopWavelength | AP2050/__init__.py:100-108 | the query is sent outside simulation and the reply is read as a number; in simulation it answers the simulated start |
| AB3380.Int16Bytes | AB3380/__init__.py:333 | the two little-endian bytes of a signed 16-bit value read back as that value |
| AB3380.Int16Of | AB3380/__init__.py:275 | two bytes unpack to a signed 16-bit value |
| AB3380.SerialBytes | AB3380/__init__.py:326-330 | the serial area is always 20 bytes |
| AB3380.NonZeroChars | AB3380/__init__.py:270-272 | the characters kept are no more than the bytes and each is a non-zero byte |
| AB3380.Slots | AB3380/__init__.py:286-304 | unpacking `count` float32 slots gives `count` values |
| AB3380.Packed | AB3380/__init__.py:343-359 | packing takes four bytes per value |
| AB3380.PackedSlot | AB3380/__init__.py:343-359 | slot `i` of a packed sequence holds the packing of value `i` |
| AB3380.Image | AB3380/__init__.py:316-359 | the image is 32 header bytes plus four bytes per table value |
| AB3380.SlotsReadBack | AB3380/__init__.py:286-304 | unpacking the slots of packed float32 values gives the values back |
| AB3380.ThousandthsOfThousands | AB3380/__init__.py:290-344 | the pm-to-nm scaling of the reader undoes the nm-to-pm scaling of the writer |
| AB3380.TruncatedIntegers | AB3380/__init__.py:297-304 | `int()` leaves integral DAC values unchanged |
| AB3380.VersionDigits | AB3380/__init__.py:333 | succeeds exactly when characters 0 and 2 of the version exist and are digits, giving those digits; else IndexError or ValueError |
| AB3380.Encoding | AB3380/__init__.py:309-359 | succeeds exactly with a readable version and tables of at least `n` entries, giving an image of the layout's size; else IndexError or ValueError |
| AB3380.SerialRoundTrip | AB3380/__init__.py:270-330 | a serial of at most 19 non-NUL byte characters is read back from the bytes written for it |
| AB3380.NonZeroCharsPrefix | AB3380/__init__.py:270-272 | the non-zero characters of the first `k` serial bytes are the serial's first `k` characters |
| AB3380.EncodingImage | AB3380/__init__.py:309-359 | with a version "a.b" and tables of `n` entries, the encoding is the image of the scaled wavelengths and transitions and of the DAC tables |
| AB3380.EncodingHeaderRoundTrip | AB3380/__init__.py:257-341 | decoding a written image gives back the serial, the version "a.b" and the transitions (when float32 once scaled) |
| AB3380.EncodingTablesRoundTrip | AB3380/__init__.py:286-359 | decoding a written image gives back the wavelengths (when float32 once scaled) and the integral float32 DAC values |
| AB3380.ImageSerialReadBack | AB3380/__init__.py:270-272 | the serial of an image is read back as written |
| AB3380.ImageTransitionsReadBack | AB3380/__init__.py:281-283 | the transition slots of an image are read back as written |
| AB3380.ImageWavelengthsReadBack | AB3380/__init__.py:286-290 | the table wavelengths, stored in pm, are read back in nm |
| AB3380.ImageFirstDacReadBack | AB3380/__init__.py:293-297 | the first DAC table is read back when its values are integral float32 numbers |
| AB3380.ImageSecondDacReadBack | AB3380/__init__.py:300-304 | the second DAC table is read back when its values are integral float32 numbers |
| AB3380.ImageVersion | AB3380/__init__.py:275-335 | the version digits of an image are read back as "a.b" |
| AB3380.TransitionSlotsAsWritten | AB3380/__init__.py:338 | as written, the transitions are stored unscaled, in nm |
| AB3380.TransitionsAsWrittenReadBackScaledDown | AB3380/__init__.py:281-338 | stored unscaled, the transitions are read back a thousand times too small: 1546 nm comes back as 1.546 nm |
| AB3380.Parameters2EEPromDataAsWritten | AB3380/__init__.py:324-335 | as written, writing into the immutable `bytes` buffer raises a TypeError on every call |
| AB3380.AsWrittenNeverWrites | AB3380/__init__.py:324-361 | every image the corrected encoder writes is one the code as written fails to write |
| AB3380.FilterCheck | AB3380/__init__.py:145-151 | accepts exactly a number equal to 1 or 2 and tells whether it is 2; else ARGUMENT_TYPE for a non-number, ARGUMENT_VALUE otherwise |
| AB3380.VoltageRequest | AB3380/__init__.py:137-158 | succeeds exactly for a number in 0..65535 and an accepted filter, selecting the VOLTAGE2 request for filter 2 and VOLTAGE1 otherwise; the voltage errors come first |
| AB3380.SwitchRequest | AB3380/__init__.py:175-196 | succeeds exactly for a number whose `int()` is 0 or 1 and an accepted filter, selecting SWITCH2 for filter 2 and SWITCH1 otherwise; the state errors come first |
| AB3380.Nearest | AB3380/__init__.py:387-391 | the index is the first of the table points nearest to the order |
| AB3380.Bracket | AB3380/__init__.py:391-393 | the nearest index, moved one up when that point lies below the order |
| AB3380.BracketEnclosesOrder | AB3380/__init__.py:387-393 | on an increasing table, an order inside the table lies between the points `index - 1` and `index` |
| AB3380.LineInterpolates | AB3380/__init__.py:400-404 | the line passes through both table points and between them stays between their values |
| AB3380.InterpolatedVoltage | AB3380/__init__.py:400-404 | the truncated line value for a valid bracket; otherwise IndexError or, for two equal wavelengths, ZeroDivisionError |
| AB3380.NearestTablePoint | AB3380/__init__.py:387-391 | on an increasing table, the point nearest to a table wavelength is that point |
| AB3380.VoltageAtTablePoint | AB3380/__init__.py:387-404 | an order equal to a table wavelength (not the first) is driven with that point's DAC value, truncated |
| AB3380.FilterIndex | AB3380/__init__.py:395-401 | `Filter - 1` is below 2 and is 1 exactly for filter 2 |
| AB3380.WavelengthPlan | AB3380/__init__.py:386-404 | fails exactly for an empty table (ValueError) or a float filter (TypeError); otherwise the switch is on exactly above the filter's transition and the voltage is interpolated around the bracket |
| AB3380.NearestIndex | AB3380/__init__.py:387-391 | the search loop finds the first nearest table point |
| AB3380.AB3380.constructor | AB3380/__init__.py:15-41 | an unchecked EEPROM, the placeholder serial, version "0.0", both transitions at 1546 nm, points spread from 1530 nm over 30 nm, and the default DAC values |
| AB3380.AB3380.SetVoltage | AB3380/__init__.py:126-161 | a refused request raises and sends nothing; an accepted one is sent outside simulation |
| AB3380.AB3380.SetSwitch | AB3380/__init__.py:164-199 | a refused request raises and sends nothing; an accepted one is sent outside simulation |
| AB3380.AB3380.SetEEPromData | AB3380/__init__.py:202-226 | non-bytes raise ARGUMENT_TYPE and send nothing; bytes are written outside simulation and the call answers True |
| AB3380.AB3380.GetEEPromData | AB3380/__init__.py:229-254 | fails exactly for a non-int count; simulation has no data; otherwise the reply |
| AB3380.AB3380.EEPromData2Parameters | AB3380/__init__.py:257-306 | in simulation nothing changes and the result is False; otherwise the cached parameters become the decoding of the image from the old ones, the call fails with the unpack error exactly when the image is shorter than a full one, and succeeds with True otherwise |
| AB3380.AB3380.DecodeImage | AB3380/__init__.py:269-306 | the cached parameters become the decoding of the image, partial updates included, with the error exactly on a short image |
| AB3380.AB3380.Current | AB3380/__init__.py:269-304 | the parameter record holds the cached transitions, wavelengths and DAC tables |
| AB3380.AB3380.DecodeHeader | AB3380/__init__.py:269-283 | the serial is always read; version and acceptance change only from byte 24 on, the first transition from byte 28, the second from byte 32; the rest is untouched |
| AB3380.AB3380.DecodeTables | AB3380/__init__.py:285-306 | the tables become their staged decoding, failing exactly when the DAC tables do not fit |
| AB3380.AB3380.UnpackSlots | AB3380/__init__.py:286-304 | gives the slots that fit before the data runs out, and says whether every slot fit |
| AB3380.Complete | AB3380/__init__.py:286-304 | the number of whole slots read before the data runs out: every one exactly when they all fit |
| AB3380.SlotsPrefix | AB3380/__init__.py:286-304 | the slots read before the data runs out; all of them when they fit |
| AB3380.Decode | AB3380/__init__.py:269-304 | a short image overwrites the serial always, version and acceptance from 24 bytes, each transition, the wavelength list and each DAC table only once its unpack is reached, and a full image gives every field the image holds |
| AB3380.HeaderDecoded | AB3380/__init__.py:269-283 | the header stage changes the serial, version, acceptance and transitions only, by the byte thresholds of the image |
| AB3380.TablesDecoded | AB3380/__init__.py:285-304 | the table stage leaves the header fields and the number of DAC tables unchanged |
| AB3380.HeaderFields | AB3380/__init__.py:269-283 | field-by-field agreement with the header stage is the header stage |
| AB3380.SlotsPrefixOfWhole | AB3380/__init__.py:286-304 | the slots read from a cut image are a prefix of those read from the whole one |
| AB3380.CutImageHeader | AB3380/__init__.py:269-278 | a cut image of at least 24 bytes gives the serial and version of the whole one |
| AB3380.CutImageDacAgrees | AB3380/__init__.py:291-304 | each DAC table decoded from a cut image is the old table or a prefix of the whole image's table |
| AB3380.CutImageAgreesWithWhole | AB3380/__init__.py:269-304 | each field decoded from a cut image is its old value or agrees with the whole image's decoding |
| AB3380.AB3380.Parameters2EEPromData | AB3380/__init__.py:309-361 | with a mutable buffer: a refused encoding sends nothing; otherwise the encoded image is written outside simulation |
| AB3380.AB3380.SetWavelength | AB3380/__init__.py:364-404 | the argument errors in order; nothing is sent without a checked EEPROM or in simulation; otherwise the switch request of `WavelengthPlan`, then the voltage request |
| AB3380.SerialNumberOf | AB3380/__init__.py:269-272 | the loop gives the serial read from an image |
| AB3380.ImageSegments | AB3380/__init__.py:316-359 | where each field of an image begins and ends |
| AB3380.WriteImage | AB3380/__init__.py:326-359 | the writing loops on a zeroed buffer produce the image |
| AB3380.PutTables | AB3380/__init__.py:343-359 | the three table loops complete the image after the header |
| AB3380.PutSerial | AB3380/__init__.py:326-330 | the serial loop writes the serial bytes |
| AB3380.PutSlots | AB3380/__init__.py:338-359 | the pack loops copy the slots of the values one after another |
| AB3380.Put | AB3380/__init__.py:334-335 | one copy loop extends the prefix of the buffer that agrees with the image |
| AB3510.DefaultChannel | AB3510/__init__.py:47-51 | a channel starts with 2^14 zero power points and the pairs [1.0, 0.0] |
| AB3510.Temperature | AB3510/__init__.py:153 | a temperature word, most significant byte first, is w/256 degrees, between 0 and 256 |
| AB3510.TemperatureOf | AB3510/__init__.py:148-153 | fails with IndexError exactly for a word shorter than two bytes; otherwise the temperature of its first two bytes |
| AB3510.TemperatureWord | AB3510/__init__.py:148-153 | the word a board sends is two bytes |
| AB3510.TemperatureRoundTrip | AB3510/__init__.py:148-153 | every whole number of 1/256 degrees below 256 is decoded from its word |
| AB3510.TemperatureInjective | AB3510/__init__.py:153 | distinct words decode to distinct temperatures |
| AB3510.Sample | AB3510/__init__.py:176 | a sample is the little-endian word with its two low bits dropped, within 14 bits |
| AB3510.SampleWord | AB3510/__init__.py:176 | the word for a sample is two bytes |
| AB3510.SampleRoundTrip | AB3510/__init__.py:176 | every 14-bit sample is decoded from its word |
| AB3510.SampleDropsLowBits | AB3510/__init__.py:176 | the two low bits of the word do not reach the sample |
| AB3510.ReadSamples | AB3510/__init__.py:175-176 | a word shorter than eight bytes raises IndexError; otherwise four samples, channel k from bytes 2k and 2k+1 |
| AB3510.AB3510.constructor | AB3510/__init__.py:43-51 | four channels of default calibration and no board open |
| AB3510.AB3510.Open | AB3510/__init__.py:72-97 | in simulation nothing changes; otherwise a handle within Python's indexing selects that board, and any failure is swallowed, leaving the device as it was |
| AB3510.AB3510.Close | AB3510/__init__.py:100-104 | no board is open afterwards |
| AB3510.AB3510.GetTemperature | AB3510/__init__.py:135-153 | the simulated temperature in simulation; without an open board a read error of that request; otherwise the decoded word |
| AB3510.AB3510.GetSample | AB3510/__init__.py:156-177 | in simulation the NameError of the unimported `randint`; without an open board a read error; otherwise the four samples of the word |
| AB3510.AB3510.SetEEPROMParameters | AB3510/__init__.py:180-203 | non-bytes raise ARGUMENT_TYPE; simulation answers True; otherwise the write needs an open board, and is logged |
| AB3510.AB3510.GetEEPROMParameters | AB3510/__init__.py:206-229 | a non-int count raises ARGUMENT_TYPE; simulation has no data; otherwise the reply, which needs an open board |
| AB3510.Connect | AB3510/__init__.py:34-58 | outside simulation no board raises NO_EQUIPMENT_FOUND; a single board is opened at handle 0; with several, none is opened |
| Etuve.Cleared | Etuve/__init__.py:99 | the status buffer starts as 14 zero words |
| Etuve.Decode | Etuve/__init__.py:100-103 | decoding keeps the buffer at 14 words |
| Etuve.SetPointFrame | Etuve/__init__.py:125-126 | four bytes 0x81, 0x02, low byte, high byte, which for 0..65535 tenths are bytes that recombine into the set point |
| Etuve.HighByte | Etuve/__init__.py:126 | `int(t / 256)` is the integer quotient for a non-negative set point |
| Etuve.Group | Etuve/__init__.py:100-103 | a status group is four bytes |
| Etuve.DecodeGroupAt | Etuve/__init__.py:100-103 | a complete group stores its value in word register/2 and decoding goes on after it |
| Etuve.DecodeGroup | Etuve/__init__.py:100-103 | decoding one group stores its value in word register/2 and nothing else |
| Etuve.SetPointRoundTrip | Etuve/__init__.py:115-126 | the set-point frame, read back as a status group, stores the set point in word 1, the word `GetConsigneTemp` reports |
| Etuve.DecodeLaterGroupWins | Etuve/__init__.py:100-103 | of two groups for the same word, the later one wins |
| Etuve.DecodeSkipsForeignGroups | Etuve/__init__.py:101 | groups without the 129 header leave the buffer as it is |
| Etuve.Etuve.constructor | Etuve/__init__.py:10-26 | the port is opened outside simulation; the status is cleared and the last refresh is at time 0 |
| Etuve.Etuve.Name | Etuve/__init__.py:29-30 | "Thermal Etuve on " followed by the port |
| Etuve.Etuve.Close | Etuve/__init__.py:52-57 | the port is closed outside simulation |
| Etuve.Etuve.Send | Etuve/__init__.py:60-77 | a non-string closes the port and raises ARGUMENT_TYPE; a string is written outside simulation |
| Etuve.Etuve.Receive | Etuve/__init__.py:80-103 | a non-int count closes the port and raises; outside simulation the status is the decoding of the bytes read into a cleared buffer, an incomplete last group raising IndexError |
| Etuve.Etuve.Refresh | Etuve/__init__.py:108-111 | more than 10 s after the last refresh, 't' is sent, the reply decoded and the time noted; otherwise nothing changes |
| Etuve.Etuve.GetActualTemp | Etuve/__init__.py:106-112 | word 0 of the refreshed status, in degrees |
| Etuve.Etuve.GetConsigneTemp | Etuve/__init__.py:115-121 | word 1 of the refreshed status, the set point, in degrees |
| Etuve.Etuve.SetConsigneTemp | Etuve/__init__.py:124-126 | the frame for `int(Temperature * 10)` is written; in simulation there is no port to write to |
| Mainframe.SlotQuery | AP1000/__init__.py:111 | every slot query starts with "SLT[" |
| Mainframe.SlotCheck | AP1000/__init__.py:101-106 | accepts exactly an int (bools included) in AP1000_SLOT_MIN..AP1000_SLOT_MAX, giving it; else ARGUMENT_TYPE for a non-int, ARGUMENT_VALUE otherwise |
| Mainframe.UsedOf | AP1000/__init__.py:115-118 | False exactly for the reply "0", True exactly for "1", nothing otherwise |
| Mainframe.SerialOf | AP1000/__init__.py:174-178 | a serial number read from an identity is never negative |
| Mainframe.IdentityQueries | AP1000/__init__.py:139-146 | forced: "IDN?" alone; otherwise "EMPTY?" first, then at most "IDN?" |
| Mainframe.TypeQueries | AP1000/__init__.py:200-206 | three queries for a used slot, one otherwise |
| Mainframe.SlotTypeOf | AP1000/__init__.py:184-214 | the slot errors first; every failure is an ApexError |
| Mainframe.Names | AP1000/__init__.py:228-286 | each factory accepts one to three module names |
| Mainframe.Calls | AP1000/__init__.py:264-286 | the `or` chain stops on the first name met, after as many calls as its position, and calls once per name when none matches |
| Mainframe.Repeat | AP1000/__init__.py:264-265 | the commands of `n` calls are `n` times as many |
| Mainframe.RepeatMore | AP1000/__init__.py:264-265 | one more call appends one more round of commands |
| Mainframe.CallsStop | AP1000/__init__.py:264-286 | a name first met at position `i` stops the chain after `i + 1` calls |
| Mainframe.AP1000.constructor | AP1000/__init__.py:23-33 | the connection, the mode and the simulated slot identity |
| Mainframe.AP1000.Close | AP1000/__init__.py:55-66 | the socket is closed outside simulation, nothing is sent |
| Mainframe.AP1000.GetID | AP1000/__init__.py:69-80 | "*IDN?" and the reply, or the simulated identity |
| Mainframe.AP1000.Reset | AP1000/__init__.py:83-88 | "*RST" outside simulation |
| Mainframe.AP1000.SlotUsed | AP1000/__init__.py:91-118 | a refused slot closes the connection and raises; otherwise "EMPTY?" is asked outside simulation and the reply read by `UsedOf` |
| Mainframe.AP1000.SlotID | AP1000/__init__.py:121-150 | a refused slot closes and raises; the simulated identity in simulation; otherwise "Slot not used" for an unused slot, else the identity without its last character |
| Mainframe.AP1000.SlotSN | AP1000/__init__.py:153-181 | a refused slot raises without closing; the serial number of the identity; an identity without one closes the connection and raises SLOT_NOT_DEFINED |
| Mainframe.AP1000.UsedIdentity | AP1000/__init__.py:203-206 | "EMPTY?", then for a used slot the identity read by `SlotID` |
| Mainframe.AP1000.SlotType | AP1000/__init__.py:184-214 | gives `SlotTypeOf`, sends `TypeQueries` outside simulation, and closes the connection only for an identity that names no module |
| Mainframe.AP1000.Factory | AP1000/__init__.py:217-290 | forced or in simulation the driver is built at once; otherwise `SlotType` is called once per name until one matches; a match builds the driver, no match closes and raises SLOT_NOT_GOOD_TYPE, a SlotType error propagates |
| Mainframe.QueriesUseTwoDigits | AP1000/__init__.py:111-144 | a slot in range is asked with its two-digit `zfill` form, which reads back as the slot |
| Mainframe.UsedReadsBack | AP1000/__init__.py:115-118 | the replies "1" and "0" read back as used and unused |
| Mainframe.DecimalText | AP1000/__init__.py:175-177 | a decimal number is its own first digit run, unchanged by lower-casing, and reads back as itself |
| Mainframe.SerialDigitsReadBack | AP1000/__init__.py:174-178 | the digits ending the third field are read back, leading zeros included, whatever the case of the other fields |
| Mainframe.SerialReadsBack | AP1000/__init__.py:174-178 | a serial number written in decimal at the end of the third field is read back |
| Mainframe.TypeReadsBack | AP1000/__init__.py:208-211 | the name of every module whose code leads the second field is read back |
| Mainframe.SimulatedSlotType | AP1000/__init__.py:200-211 | the simulated slot is used and holds a power meter |
| Mainframe.SimulatedSlotSerial | AP1000/__init__.py:169-178 | the simulated module has serial number 502 |
| Mainframe.SlotTypeNamesModules | AP1000/__init__.py:184-214 | `SlotType` names a module of the constant table or says the slot is not used |
| Mainframe.FactoriesDisjoint | AP1000/__init__.py:217-290 | the factories accept disjoint sets of modules |
| Mainframe.FactoryNamesAreModules | AP1000/__init__.py:222-278 | every name a factory accepts is a module name of the constant table |
| Mainframe.SimulatedType | AP1000/__init__.py:200-211 | in simulation every slot in range holds a power meter |
| Mainframe.SlotCheckAsWritten | AP1000/__init__.py:97-106 | as written, every int slot raises the NameError of the unimported AP1000_SLOT_MIN |
| Mainframe.SlotCheckAsWrittenRefusesSlotOne | AP1000/__init__.py:97-106 | slot 1 is valid, and the code as written refuses it |
| Mainframe.SlotTypeAsWritten | AP1000/__init__.py:189 | as written, every call raises the ImportError of the missing `PyApex.Constants` |
| Mainframe.SlotTypeAsWrittenNeverNames | AP1000/__init__.py:189 | the simulated slot has a type, which the code as written never returns |
| Ap1000Osa.RunType | AP1000/OSA.py:343-350 | a string is 2 exactly for "repeat" in any case, else 1; 1 and 2 stay; anything else is 1 |
| Ap1000Osa.RunTypeText | AP1000/OSA.py:343-355 | strings and integers always put sweep "1" or "2" on the wire |
| Ap1000Osa.XSelector | AP1000/OSA.py:416-419 | 1 exactly for "GHz" in any case, else 0 |
| Ap1000Osa.YSelector | AP1000/OSA.py:421-432 | lin 4, S1 1, S2 2, S3 3, DOP 5 in any case, each exactly, and 0 for anything else |
| Ap1000Osa.Floats | AP1000/OSA.py:473-482 | at most one value per token |
| Ap1000Osa.FloatsAllParsed | AP1000/OSA.py:473-482 | when every token is a number, nothing is dropped and each value is its token's |
| Ap1000Osa.FloatsSound | AP1000/OSA.py:473-482 | every value kept comes from a token |
| Ap1000Osa.ParseTrace | AP1000/OSA.py:473-482 | the parsing loop computes `Floats` |
| Ap1000Osa.Osa.constructor | AP1000/OSA.py:8-28 | power-meter slot as given, no filter slot (-1), nm and dBm, 1530..1560 nm, 400 points |
| Ap1000Osa.Osa.SetPowerMeterSlotNumber | AP1000/OSA.py:43-62 | `int(Slot)` failing closes and raises ARGUMENT_TYPE; otherwise the command goes to the old slot outside simulation and the new slot is cached |
| Ap1000Osa.Osa.SetFilterSlotNumber | AP1000/OSA.py:78-97 | as above for the filter slot, addressed through the power-meter slot |
| Ap1000Osa.Osa.GetPowerMeterSlotNumber | AP1000/OSA.py:65-75 | outside simulation "POWER?" is sent and the integer reply cached and returned; in simulation the cache |
| Ap1000Osa.Osa.GetFilterSlotNumber | AP1000/OSA.py:100-110 | outside simulation "FILTER?" is sent and the integer reply cached and returned; in simulation the cache |
| Ap1000Osa.Osa.SetXUnit | AP1000/OSA.py:113-128 | with the X unit list: `str(Unit)` is kept, with its casing, exactly when it is nm or GHz |
| Ap1000Osa.Osa.SetYUnit | AP1000/OSA.py:139-154 | with the Y unit list: kept exactly when it is dBm or mW |
| Ap1000Osa.Osa.SetStartWavelength | AP1000/OSA.py:165-184 | `float()` failing closes and raises ARGUMENT_TYPE; otherwise "STARTWL" with the zero-filled value outside simulation, and cached |
| Ap1000Osa.Osa.SetStopWavelength | AP1000/OSA.py:233-252 | `float()` failing closes and raises ARGUMENT_TYPE; otherwise "STOPWL" with the zero-filled value outside simulation, and cached |
| Ap1000Osa.Osa.GetStartWavelength | AP1000/OSA.py:187-198 | outside simulation "STARTWL?" is sent and the reply cached and returned; in simulation the cache |
| Ap1000Osa.Osa.GetStopWavelength | AP1000/OSA.py:255-266 | outside simulation "STOPWL?" is sent and the reply cached and returned; in simulation the cache |
| Ap1000Osa.Osa.SetStartFrequency | AP1000/OSA.py:201-217 | a positive frequency sets the stop wavelength to c/f; any other is ignored; the start is untouched |
| Ap1000Osa.Osa.SetStopFrequency | AP1000/OSA.py:269-285 | a positive frequency sets the start wavelength to c/f; any other is ignored; the stop is untouched |
| Ap1000Osa.Osa.GetStartFrequency | AP1000/OSA.py:220-230 | the stop wavelength is read, and the unimported light speed makes the result 0.0 |
| Ap1000Osa.Osa.GetStopFrequency | AP1000/OSA.py:288-298 | the start wavelength is read, and the unimported light speed makes the result 0.0 |
| Ap1000Osa.Osa.SetNbPoints | AP1000/OSA.py:301-320 | `int()` failing closes and raises ARGUMENT_TYPE; otherwise "NBPTS" outside simulation, and cached |
| Ap1000Osa.Osa.GetNbPoints | AP1000/OSA.py:323-333 | outside simulation "NBPTS?" is sent and the integer reply cached and returned; in simulation the cache |
| Ap1000Osa.Osa.Run | AP1000/OSA.py:336-355 | "SWEEP" and the `RunType` outside simulation |
| Ap1000Osa.Osa.Stop | AP1000/OSA.py:358-364 | "SWEEP0" outside simulation |
| Ap1000Osa.Osa.IsRunning | AP1000/OSA.py:367-381 | outside simulation "SWEEP?" and True exactly for the reply 1; in simulation an UnboundLocalError |
| Ap1000Osa.Osa.SimulatedX | AP1000/OSA.py:438-448 | the simulated X axis has one value per point |
| Ap1000Osa.Osa.GetData | AP1000/OSA.py:384-484 | the two selectors; outside simulation "DATAX" and "DATAY" and the parsed replies; in simulation the computed axis and drawn values, parsed the same way |
| Ap1000Osa.SetUnitAsWritten | AP1000/OSA.py:127-153 | as written, both unit setters raise AttributeError on the undefined `__ValidUnits` |
| Ap1000Osa.SetUnitAsWrittenRefusesGHz | AP1000/OSA.py:113-128 | "GHz" is a valid X unit, which the code as written refuses |
| TunableLasers.TypeCode | AP1000/TunableLaser.py:33-56 | the band index is 0 exactly for the C band, else 2 |
| TunableLasers.BandOf | AP1000/TunableLaser.py:52-56 | C band exactly when "3350" occurs in the field, L band when only "3352" does, none otherwise |
| TunableLasers.BandCodesAreModuleCodes | AP1000/TunableLaser.py:52-55 | the texts searched for are `str()` of the two laser codes |
| TunableLasers.BandLimits | Constantes.py:74-81 | both bands have ordered, positive limits, the frequency limits are c over the wavelength limits, and the C band ends where the L band starts |
| TunableLasers.SimulatedBand | AP1000/TunableLaser.py:45-53 | the simulated laser is a C-band one |
| TunableLasers.DiodeCheck | AP1000/TunableLaser.py:337-360 | accepts exactly an int diode in 1..12 and a number temperature within the limits; the errors in the code's order |
| TunableLasers.NewTunableLaser | AP1000/TunableLaser.py:8-60 | the band is read from the slot identity; no second field is an IndexError; no band switches off, closes and raises SLOT_TYPE_NOT_DEFINED |
| TunableLasers.TunableLaser.constructor | AP1000/TunableLaser.py:15-23 | dBm, 1550 nm, power 0, "OFF" |
| TunableLasers.TunableLaser.On | AP1000/TunableLaser.py:183-194 | "L1" outside simulation; the status is "ON" |
| TunableLasers.TunableLaser.Off | AP1000/TunableLaser.py:197-204 | "L0" outside simulation; the status is "OFF" |
| TunableLasers.TunableLaser.Abort | AP1000/TunableLaser.py:116-117 | off, then the connection closed |
| TunableLasers.TunableLaser.GetStatus | AP1000/TunableLaser.py:207-211 | the status is "ON" or "OFF" |
| TunableLasers.TunableLaser.SetUnit | AP1000/TunableLaser.py:156-172 | `str(Unit)` is kept exactly when it is dBm or mW, and the unit stays valid |
| TunableLasers.TunableLaser.PowerSetting | AP1000/TunableLaser.py:121-128 | the power set lies within the band's limits and is the asked power when that already does |
| TunableLasers.TunableLaser.SetPower | AP1000/TunableLaser.py:104-136 | `float()` failing raises ARGUMENT_TYPE after off and close; the power converted to dBm is clamped, sent with one decimal outside simulation, and cached |
| TunableLasers.TunableLaser.GetPower | AP1000/TunableLaser.py:139-153 | "TPDB?" outside simulation; the reply read as a float and converted into the unit; in dBm the reply itself |
| TunableLasers.TunableLaser.SetWavelength | AP1000/TunableLaser.py:214-244 | `float()` failing raises ARGUMENT_TYPE after off and close; otherwise the wavelength clamped into the band, sent outside simulation and cached |
| TunableLasers.TunableLaser.GetWavelength | AP1000/TunableLaser.py:247-261 | "TWL?" outside simulation and the reply read as a float |
| TunableLasers.TunableLaser.SetFrequency | AP1000/TunableLaser.py:264-285 | a positive frequency sets the wavelength c/f, any other the band's maximum wavelength |
| TunableLasers.TunableLaser.GetFrequency | AP1000/TunableLaser.py:288-296 | c divided by the wavelength read, ZeroDivisionError for 0 |
| TunableLasers.TunableLaser.SetSOACurrent | AP1000/TunableLaser.py:299-324 | a number within the calibration limits is sent outside simulation and stored; otherwise off, close and the error |
| TunableLasers.TunableLaser.SetDiodeTemp | AP1000/TunableLaser.py:325-364 | the checks of `DiodeCheck`, each failure after off and close; then the command outside simulation, and the four values stored |
| TunableLasers.FrequencyInBand | AP1000/TunableLaser.py:264-285 | a frequency within the band's frequency limits is set exactly, c/f not clamped |
| DfbLasers.TypeCode | AP1000/DfbLaser.py:51-56 | the band index is 0 for the C band, 2 for the L band and 5 for the O band, and nothing else |
| DfbLasers.LimitsOf | AP1000/DfbLaser.py:124-131 | the limits indexed by a band are ordered, with a positive minimum frequency |
| DfbLasers.BandOf | AP1000/DfbLaser.py:51-59 | C band exactly when the C code occurs in the field, L band when only the L code does, O band when only the O code does, none otherwise |
| DfbLasers.StatusOf | AP1000/DfbLaser.py:216-227 | the status is "ON" exactly when the reply without its last character is "1", and otherwise "OFF" |
| DfbLasers.StatusOnReplies | AP1000/DfbLaser.py:219-227 | exactly the two-character replies starting with '1' switch the status to "ON" |
| DfbLasers.NewDfbLaser | AP1000/DfbLaser.py:8-63 | a missing second "/" field is an IndexError; an identity naming no band leaves the laser off, the connection closed and raises SLOT_TYPE_NOT_DEFINED with the slot; otherwise a fresh valid laser of that band, in dBm, at 1550 nm, 0 dBm and off |
| DfbLasers.DfbLaser.constructor | AP1000/DfbLaser.py:8-23 | the fields start as dBm, 1550 nm, 0 dBm and "OFF", and the laser is valid |
| DfbLasers.DfbLaser.On | AP1000/DfbLaser.py:188-201 | "L1" is sent outside simulation only, the status becomes "ON" and the link stays as it was |
| DfbLasers.DfbLaser.Off | AP1000/DfbLaser.py:202-211 | "L0" is sent outside simulation only, the status becomes "OFF" and the link stays as it was |
| DfbLasers.DfbLaser.Abort | AP1000/DfbLaser.py:119-121 | before an argument error the laser is switched off and the connection is closed |
| DfbLasers.DfbLaser.GetStatus | AP1000/DfbLaser.py:212-229 | outside simulation "L?" is sent and the reply decides the cached status; in simulation the cached status is returned unchanged |
| DfbLasers.DfbLaser.SetUnit | AP1000/DfbLaser.py:161-179 | the unit becomes the argument's text exactly when it names dBm or mW in any case, otherwise it stays; validity is kept |
| DfbLasers.DfbLaser.PowerSetting | AP1000/DfbLaser.py:124-131 | the power set lies within the band's power limits and equals the requested dBm value clamped into them |
| DfbLasers.DfbLaser.SetPower | AP1000/DfbLaser.py:107-141 | a non-number switches off, closes and raises ARGUMENT_TYPE; otherwise the converted power, clamped into the band's limits, is written with one decimal outside simulation and cached |
| DfbLasers.DfbLaser.GetPower | AP1000/DfbLaser.py:142-160 | in simulation the power is the drawn point between the band's limits; outside it the parsed reply is cached, an unparsable one is a ValueError; the result is the cached power in the current unit |
| DfbLasers.DfbLaser.SetWavelength | AP1000/DfbLaser.py:230-262 | a non-number switches off, closes and raises ARGUMENT_TYPE; otherwise the wavelength is clamped into the band's limits, written outside simulation and cached |
| DfbLasers.DfbLaser.GetWavelength | AP1000/DfbLaser.py:263-285 | outside simulation "TWL?" is sent and a parsable reply replaces the cached wavelength; the cached wavelength is returned |
| DfbLasers.DfbLaser.SetFrequency | AP1000/DfbLaser.py:286-313 | a non-number switches off, closes and raises ARGUMENT_TYPE; otherwise the wavelength becomes c over the clamped frequency, itself clamped into the wavelength limits |
| DfbLasers.DfbLaser.GetFrequency | AP1000/DfbLaser.py:314-324 | the result is c over the wavelength read, and a zero wavelength is a ZeroDivisionError |
| DfbLasers.FrequencyInBand | AP1000/DfbLaser.py:286-313 | a frequency inside the band is not clamped, and neither is the wavelength c / f it sets |
| PowerMeters.PwmProfile | Constantes.py:52-58 | the constants read by `PowerMeter` and `PowerMeterB` form a valid profile: ordered wavelength and average-time limits and a channel table |
| PowerMeters.ChannelTypes | AP1000/PowerMeter.py:50-55 | the channel list is no longer than the digits and holds only names from the channel table |
| PowerMeters.ChannelTypesAllKnown | AP1000/PowerMeter.py:50-55 | when the table knows every digit, there is exactly one channel per digit, in order, each the table's name for it |
| PowerMeters.ChannelTypesNoneKnown | AP1000/PowerMeter.py:50-55 | digits the table does not know give no channel |
| PowerMeters.DecodeChannels | AP1000/PowerMeter.py:50-55 | the nested loop yields exactly the channel list of the digits |
| PowerMeters.SimulatedChannels | AP1000/PowerMeter.py:32-55 | the simulated identity carries the digits "13", a standard channel and a high-power channel |
| PowerMeters.NewPowerMeter | AP1000/PowerMeter.py:8-22 | the identity query is sent outside simulation only; an identity without the channel digits is an IndexError, otherwise a fresh valid meter holds the channels the digits name |
| PowerMeters.PowerMeter.constructor | AP1000/PowerMeter.py:8-22 | the meter starts in dBm at 1550 nm with a 100 ms average time and is valid |
| PowerMeters.PowerMeter.SetAverageTime | AP1000/PowerMeter.py:56-87 | a non-number closes the link and raises ARGUMENT_TYPE; otherwise the average time is clamped into its limits, written outside simulation and cached |
| PowerMeters.PowerMeter.GetAverageTime | AP1000/PowerMeter.py:88-104 | `PowerMeter` parses the reply or the simulated value without caching; the other drivers query and cache outside simulation and return the cached value in it |
| PowerMeters.PowerMeter.SetUnit | AP1000/PowerMeter.py:105-122 | the unit becomes the argument's text exactly when it names dBm or mW in any case, otherwise it stays; validity is kept |
| PowerMeters.PowerMeter.SetWavelength | AP1000/PowerMeter.py:131-173 | a non-number wavelength or channel closes the link and raises ARGUMENT_TYPE naming it; otherwise the clamped wavelength is written for the channel, which falls back to 1 past the last channel, and cached |
| PowerMeters.PowerMeter.GetWavelength | AP1000/PowerMeter.py:174-204 | a non-integer channel closes and raises ARGUMENT_TYPE; `PowerMeter` outside simulation fails with a NameError on `slef` before sending; otherwise the reply is read, or the cached value in simulation |
| PowerMeters.PowerMeter.SetFrequency | AP1000/PowerMeter.py:205-238 | a non-number frequency or channel closes and raises ARGUMENT_TYPE; a positive frequency sets the wavelength c / f, any other the maximum wavelength |
| PowerMeters.PowerMeter.GetFrequency | AP1000/PowerMeter.py:239-262 | a non-integer channel closes and raises ARGUMENT_TYPE with nothing sent; otherwise the result is c divided by the wavelength `GetWavelength` gives for the fallen-back channel (the simulated constant or the NameError on `slef` for `PowerMeter`, the cache in simulation, else the `WAV[ch]?` reply), ZeroDivisionError for 0; for `PowerMeterB`/`PowerMeter1` a returned frequency is c over the newly cached wavelength |
| PowerMeters.PowerMeter.GetPower | AP1000/PowerMeter.py:263-306 | a non-integer channel closes and raises ARGUMENT_TYPE; the query follows the unit, dBm or mW, and a valid meter never raises VARIABLE_NOT_DEFINED |
| Polarimeters.TokenSample | AP1000/Polarimeter.py:253-257 | a token becomes its float value, or its integer value for the raw counts, and NaN exactly when it does not parse |
| Polarimeters.ParseSamples | AP1000/Polarimeter.py:252-257 | the loop yields one sample per token, in order, each the token's sample |
| Polarimeters.ReplyTokens | AP1000/Polarimeter.py:250 | the tokens of a reply are at least one and contain no space |
| Polarimeters.ReplyTokensOfFields | AP1000/Polarimeter.py:281 | space-free fields joined by spaces and terminated are split back into those very fields |
| Polarimeters.Polarimeter.constructor | AP1000/Polarimeter.py:8-22 | the polarimeter starts in dBm at 1550 nm with a 100 ms acquisition time and is valid |
| Polarimeters.Polarimeter.SetAcquisitionTime | AP1000/Polarimeter.py:39-70 | a non-number closes and raises ARGUMENT_TYPE; otherwise the time is clamped into its limits, written outside simulation and cached |
| Polarimeters.Polarimeter.GetAcquisitionTime | AP1000/Polarimeter.py:71-84 | outside simulation "ACQTIME?" is sent and the parsed reply is returned and cached; in simulation the cached value is returned and nothing is sent |
| Polarimeters.Polarimeter.SetUnit | AP1000/Polarimeter.py:85-102 | the unit becomes the argument's text exactly when it names dBm or mW in any case, otherwise it stays; validity is kept |
| Polarimeters.Polarimeter.SetWavelength | AP1000/Polarimeter.py:111-142 | a non-number closes and raises ARGUMENT_TYPE; otherwise the wavelength is clamped into its limits, written outside simulation and cached |
| Polarimeters.Polarimeter.GetWavelength | AP1000/Polarimeter.py:143-158 | outside simulation "WL?" is sent and the parsed reply is returned and cached; in simulation the cached value is returned |
| Polarimeters.Polarimeter.SetFrequency | AP1000/Polarimeter.py:159-181 | a non-number closes and raises ARGUMENT_TYPE; a positive frequency sets the wavelength c / f; any other raises a NameError before sending |
| Polarimeters.Polarimeter.GetFrequency | AP1000/Polarimeter.py:182-197 | the result is always 0.0 and nothing is sent |
| Polarimeters.Polarimeter.GetPower | AP1000/Polarimeter.py:198-231 | in simulation the drawn power in the unit; outside it the query of the unit and the reply's sample; an unknown unit closes and raises VARIABLE_NOT_DEFINED, which a valid polarimeter never does |
| Polarimeters.Polarimeter.ListQuery | AP1000/Polarimeter.py:246-259 | outside simulation the query is sent and one sample per reply token comes back; in simulation the simulated values, with nothing sent |
| Polarimeters.Polarimeter.GetSOP | AP1000/Polarimeter.py:232-261 | four Stokes values 2 draw - 1 in simulation; otherwise "SOP?" and one float sample per token |
| Polarimeters.Polarimeter.GetRawValues | AP1000/Polarimeter.py:286-312 | four random counts in simulation; otherwise "RAW4?" and one integer sample per token |
| Polarimeters.Polarimeter.GetPowerValues | AP1000/Polarimeter.py:313-339 | four powers 70 draw - 60 in simulation; otherwise "POW4?" and one float sample per token |
| Polarimeters.Polarimeter.GetBoardID | AP1000/Polarimeter.py:262-285 | the simulated board identity, or "BOARDID?" and the reply's space-separated fields |
| Polarimeters.Polarimeter.GetTemperature | AP1000/Polarimeter.py:340-359 | 40 draw + 10 in simulation, otherwise "TEMP?" and the reply's sample |
| ErbiumAmplifiers.TypeCode | AP1000/ErbiumAmplifier.py:59-79 | the type's digit is a valid index into the pump-current maxima |
| ErbiumAmplifiers.AnswersDetermineType | AP1000/ErbiumAmplifier.py:31-79 | the digit, the letter and the name each determine the type |
| ErbiumAmplifiers.TypeOf | AP1000/ErbiumAmplifier.py:59-82 | booster exactly when "A" occurs, in-line when only "B" does, pre-amplifier when only "C" does, and the letter of a found type occurs in the option part |
| ErbiumAmplifiers.TypeAnswer | AP1000/ErbiumAmplifier.py:60-79 | the form "c" in any case gives the letter, "s" the name, anything else the digit |
| ErbiumAmplifiers.LetterForm | AP1000/ErbiumAmplifier.py:60-65 | the letter form is insensitive to case and the default form is the digit |
| ErbiumAmplifiers.SimulatedType | AP1000/ErbiumAmplifier.py:52-65 | the simulated amplifier's option part is "A", a booster |
| ErbiumAmplifiers.Identify | AP1000/ErbiumAmplifier.py:52-82 | a missing option part is an IndexError; the result is a type exactly when one of the letters occurs; otherwise SLOT_TYPE_NOT_DEFINED with the slot |
| ErbiumAmplifiers.NewErbiumAmplifier | AP1000/ErbiumAmplifier.py:6-21 | the identity query is sent outside simulation only; the type found gives a fresh valid amplifier in dBm with no pump current, and a type error closes the connection |
| ErbiumAmplifiers.ErbiumAmplifier.constructor | AP1000/ErbiumAmplifier.py:6-21 | the amplifier starts in dBm with a zero pump current and is valid |
| ErbiumAmplifiers.ErbiumAmplifier.GetType | AP1000/ErbiumAmplifier.py:31-83 | the identity is read again and answered in the requested form, or the identification error |
| ErbiumAmplifiers.ErbiumAmplifier.ConvertForWriting | AP1000/ErbiumAmplifier.py:85-108 | the power in dBm, and the connection closed exactly when the conversion fails |
| ErbiumAmplifiers.ErbiumAmplifier.ConvertForReading | AP1000/ErbiumAmplifier.py:109-125 | the power in the unit, and the connection closed exactly when the conversion fails |
| ErbiumAmplifiers.ErbiumAmplifier.SetUnit | AP1000/ErbiumAmplifier.py:222-239 | the unit becomes the argument's text exactly when it names dBm or mW in any case, otherwise it stays; validity is kept |
| ErbiumAmplifiers.SetIPumpAsWritten | AP1000/ErbiumAmplifier.py:165-166 | every call fails with an ImportError |
| ErbiumAmplifiers.PumpSetting | AP1000/ErbiumAmplifier.py:175-178 | the current set lies in [0, maximum of the type], a current in range is kept, one above is the maximum, one below zero is zero |
| ErbiumAmplifiers.SetIPumpAsWrittenRejectsValidCurrent | AP1000/ErbiumAmplifier.py:160-185 | 500 mA is in range for every type and kept by the intended setting, yet the code as written fails on it |
| ErbiumAmplifiers.ErbiumAmplifier.SetIPump | AP1000/ErbiumAmplifier.py:160-185 | a non-number closes and raises ARGUMENT_TYPE; otherwise the limited current is written with one decimal outside simulation and cached; validity is kept |
| ErbiumAmplifiers.ErbiumAmplifier.Read | AP1000/ErbiumAmplifier.py:126-142 | the command is sent outside simulation only and the reply, or the simulated text, is what is read |
| ErbiumAmplifiers.ErbiumAmplifier.GetInVoltage | AP1000/ErbiumAmplifier.py:126-142 | "POWERINVALUE" outside simulation and the reply read as an integer |
| ErbiumAmplifiers.ErbiumAmplifier.GetOutVoltage | AP1000/ErbiumAmplifier.py:143-159 | "POWEROUTVALUE" outside simulation and the reply read as an integer |
| ErbiumAmplifiers.ErbiumAmplifier.GetInPower | AP1000/ErbiumAmplifier.py:188-204 | "INDB?" outside simulation and the reply read as a float |
| ErbiumAmplifiers.ErbiumAmplifier.GetOutPower | AP1000/ErbiumAmplifier.py:205-221 | "OTDB?" outside simulation and the reply read as a float |
| Filters.Convert | AP1000/Filter.py:29-38 | the result fails exactly for a zero value, with a ZeroDivisionError, and otherwise multiplied by the value gives the celerity |
| Filters.ConvertInvolution | AP1000/Filter.py:29-38 | converting a non-zero value twice gives the value back |
| Filters.ConvertedFrequencyInLimits | AP1000/Filter.py:83-108 | a frequency within the converted wavelength limits converts to a wavelength within those limits |
| Filters.ReadLimits | AP1000/Filter.py:137-144 | the limits read succeed exactly when both replies parse, give both values in order, and otherwise fail with a ValueError |
| Filters.LimitQueries | AP1000/Filter.py:133-144 | nothing is queried in simulation; otherwise the minimum query first and at most the two queries |
| Filters.Filter.WavelengthLimits | AP1000/Filter.py:125-146 | the simulation constants in simulation, otherwise the limits read from the "WLMIN?" and "WLMAX?" replies |
| Filters.Filter.FrequencyLimits | AP1000/Filter.py:147-168 | the simulation constants in simulation, otherwise the limits read from the "FRMIN?" and "FRMAX?" replies |
| Filters.Filter.constructor | AP1000/Filter.py:6-20 | the filter starts in nm at the float 1550 nm and is valid |
| Filters.Filter.QueryLimits | AP1000/Filter.py:133-144 | the limit queries are sent in order and the replies give the limits read |
| Filters.Filter.SetWavelength | AP1000/Filter.py:41-66 | a non-number raises ARGUMENT_TYPE with nothing sent; the limits are queried; a value outside them raises ARGUMENT_VALUE; on success the wavelength and its Python type are cached, on failure both are kept |
| Filters.Filter.SetFrequency | AP1000/Filter.py:83-108 | a non-number raises ARGUMENT_TYPE; the frequency limits are queried; a value outside them raises ARGUMENT_VALUE; on success the cached wavelength is a float that converts back to the frequency, on failure it is kept |
| Filters.Filter.GetWavelength | AP1000/Filter.py:67-82 | outside simulation "TWL?" and the parsed reply; in simulation a TypeError naming the cached wavelength's type, with nothing sent |
| Filters.Filter.GetFrequency | AP1000/Filter.py:109-124 | outside simulation "TFR?" and the parsed reply; in simulation a TypeError naming the cached wavelength's type, with nothing sent |
| Filters.Filter.SetUnit | AP1000/Filter.py:169-184 | a non-string raises ARGUMENT_TYPE and keeps the unit; a string naming nm or GHz in any case becomes the unit, any other is ignored; validity is kept |
| Attenuators.AttenuationForWriting | AP1000/Attenuator.py:50-70 | the conversion fails exactly for an unknown unit or a non-positive percentage; in dB the value is unchanged; the errors are ARGUMENT_VALUE for a percentage and VARIABLE_NOT_DEFINED for a unit |
| Attenuators.AttenuationForReading | AP1000/Attenuator.py:71-84 | the conversion fails exactly for an unknown unit, with VARIABLE_NOT_DEFINED; in dB the value is unchanged |
| Attenuators.DbRoundTrip | AP1000/Attenuator.py:50-84 | in dB an attenuation written and read back is the same attenuation |
| Attenuators.IntOf | AP1000/Attenuator.py:93 | the integer of an int argument has the argument's value |
| Attenuators.ChannelCheck | AP1000/Attenuator.py:118-123 | a channel passes exactly when it is an int between 1 and the channel count; a non-int raises ARGUMENT_TYPE, an int out of range ARGUMENT_VALUE |
| Attenuators.AttenuationCheck | AP1000/Attenuator.py:90-103 | a non-number attenuation raises ARGUMENT_TYPE first, then a non-int channel; once both types are right the result is the converted attenuation and the channel, or the first failed check |
| Attenuators.SetAttenuationAsWritten | AP1000/Attenuator.py:85-103 | every call fails, and a call that passes the type and conversion checks fails with a NameError on the minimum |
| Attenuators.GetAttenuationAsWritten | AP1000/Attenuator.py:113-123 | every call fails, and a channel of the right type fails with a NameError on the channel count |
| Attenuators.AsWrittenRefusesValidSetting | AP1000/Attenuator.py:85-134 | 10 dB on channel 1 passes every intended check, yet both methods as written refuse it |
| Attenuators.WireChannelsZeroBased | AP1000/Attenuator.py:108-128 | the two checked channels go on the wire as "0" and "1" |
| Attenuators.Attenuator.constructor | AP1000/Attenuator.py:5-11 | the attenuator starts in dB with no attenuation and is valid |
| Attenuators.Attenuator.SetAttenuation | AP1000/Attenuator.py:85-112 | the checks decide the result; on success the dB value is sent outside simulation for the zero-based channel and cached; no error closes the connection; validity is kept |
| Attenuators.Attenuator.GetAttenuation | AP1000/Attenuator.py:113-134 | the channel checks decide the errors; otherwise the query for the zero-based channel outside simulation and the reply converted into the unit |
| Attenuators.Attenuator.SetUnit | AP1000/Attenuator.py:135-147 | a non-string raises ARGUMENT_TYPE and keeps the unit; a string naming dB or % in any case becomes the unit, any other is ignored; validity is kept |
| OpticalSwitches.PathOf | AP1000/OpticalSwitch.py:35-49 | a string is crossed exactly when it reads "crossed" in any case, an int exactly when it is 1, a bool exactly when true; these give 0 or 1, any other type keeps the path |
| OpticalSwitches.PathOfIdempotent | AP1000/OpticalSwitch.py:35-49 | setting the path twice from the same argument is setting it once |
| OpticalSwitches.PathSpellings | AP1000/OpticalSwitch.py:26-49 | "Crossed", 1 and True all mean crossed; "straight", 0 and False all mean straight; a float keeps the path |
| OpticalSwitches.OpticalSwitch.constructor | AP1000/OpticalSwitch.py:6-16 | the switch starts straight and is valid |
| OpticalSwitches.OpticalSwitch.SetPath | AP1000/OpticalSwitch.py:26-55 | the new path is the argument's path, "CONF" and the path are sent outside simulation even when the path was kept, and the path stays 0 or 1 |
| OpticalSwitches.OpticalSwitch.GetPath | AP1000/OpticalSwitch.py:56-71 | in simulation the cached path with nothing sent, otherwise "CONF?" and the integer reply |
| OpticalSwitches.SimulatedPathReadsBack | AP1000/OpticalSwitch.py:26-71 | in simulation the path read back is the one set from the argument, 0 or 1 |
| ApexTls.LaserSweepCommand | AP2XXX/apextls.py:425-434 | a single sweep exactly for a string reading "single" in any case or a non-string equal to 0, a repeated sweep for anything else |
| ApexTls.SweepSpellings | AP2XXX/apextls.py:409-434 | "single", "SINGLE", 0, False and 0.0 start a single sweep; "repeat", 1 and the string "0" a repeated one |
| ApexTls.WordsDistinct | AP2XXX/apextls.py:286-408 | two different sweep parameters never share a command word |
| ApexTls.ReadParameter | AP2XXX/apextls.py:294-408 | the step number is read as an integer, every other parameter as a float, failing exactly when the reply does not parse |
| ApexTls.StatusOf | AP2XXX/apextls.py:266-269 | the status is "ON" exactly for 1, and otherwise "OFF" |
| ApexTls.PowerToWrite | AP2XXX/apextls.py:127-129 | outside mW the power is kept; in mW the conversion fails exactly for a non-positive power, with a math domain error |
| ApexTls.PowerRead | AP2XXX/apextls.py:151-152 | outside mW the reading is kept unchanged |
| ApexTls.TunableLaser.constructor | AP2XXX/apextls.py:8-28 | the laser keeps the analyser's connection and identity and starts in dBm and nm at 0 dBm, 1550 nm, output off |
| ApexTls.TunableLaser.Describe | AP2XXX/apextls.py:29-35 | the description starts with "TLS of " |
| ApexTls.TunableLaser.SetUnit | AP2XXX/apextls.py:36-52 | the unit becomes the argument's text exactly when it names dBm or mW in any case, otherwise it stays |
| ApexTls.TunableLaser.GetUnit | AP2XXX/apextls.py:106-113 | the cached unit is returned |
| ApexTls.TunableLaser.SetPRWUnit | AP2XXX/apextls.py:53-65 | an int is written as the power unit scale; anything else raises the TypeError and sends nothing, leaving the connection open |
| ApexTls.TunableLaser.GetPRWUnit | AP2XXX/apextls.py:66-79 | outside simulation the query is sent and the unit becomes the reply without its last character; in simulation the cached unit is kept |
| ApexTls.TunableLaser.SetWLUnit | AP2XXX/apextls.py:80-92 | an int is written as the wavelength unit scale; anything else raises the TypeError and sends nothing |
| ApexTls.TunableLaser.GetWLUnit | AP2XXX/apextls.py:93-105 | outside simulation the wavelength unit becomes the reply without its last character; in simulation it is kept |
| ApexTls.TunableLaser.SetPower | AP2XXX/apextls.py:114-135 | a non-number closes and raises ARGUMENT_TYPE; otherwise the power, converted from mW when that is the unit, is cached and written with one decimal outside simulation |
| ApexTls.TunableLaser.GetPower | AP2XXX/apextls.py:136-158 | in simulation the cached power; otherwise "TLSPWR?", the reply converted into the unit, cached and returned |
| ApexTls.TunableLaser.SetWavelength | AP2XXX/apextls.py:159-177 | the call succeeds exactly for a number, which is cached as given; anything else closes and raises ARGUMENT_TYPE |
| ApexTls.TunableLaser.GetWavelength | AP2XXX/apextls.py:178-193 | in simulation the cached wavelength; otherwise "TLSSWL?" and the parsed reply |
| ApexTls.TunableLaser.SetFrequency | AP2XXX/apextls.py:194-212 | a non-number closes and raises ARGUMENT_TYPE; a zero frequency is a ZeroDivisionError with nothing written; otherwise the wavelength becomes c / f and the frequency is written |
| ApexTls.TunableLaser.GetFrequency | AP2XXX/apextls.py:213-231 | in simulation c over the cached wavelength; otherwise "TLSSFR?" and the reply, with the cached wavelength set to c over it |
| ApexTls.TunableLaser.On | AP2XXX/apextls.py:232-243 | "TLSOUT1" outside simulation only, and the status becomes "ON" |
| ApexTls.TunableLaser.Off | AP2XXX/apextls.py:244-255 | "TLSOUT0" outside simulation only, and the status becomes "OFF" |
| ApexTls.TunableLaser.GetStatus | AP2XXX/apextls.py:256-272 | in simulation the cached status; otherwise "TLSOUT?" and the status of the integer reply; the status stays "ON" or "OFF" |
| ApexTls.TunableLaser.SetLaserStatic | AP2XXX/apextls.py:273-277 | "TLSS" is sent outside simulation only |
| ApexTls.TunableLaser.SetLaserSweep | AP2XXX/apextls.py:278-285 | an int is written as the sweep mode; anything else raises the TypeError and sends nothing |
| ApexTls.TunableLaser.SetSweepParameter | AP2XXX/apextls.py:286-396 | a value of the parameter's type is written after its word; anything else raises that setter's TypeError and sends nothing |
| ApexTls.TunableLaser.GetSweepParameter | AP2XXX/apextls.py:294-408 | outside simulation the query and the parsed reply; in simulation an UnboundLocalError naming the local |
| ApexTls.TunableLaser.Run | AP2XXX/apextls.py:409-445 | -1 in simulation, otherwise the argument unchanged; the sweep command of the argument is sent and the timeout is what it was before |
| ApexTls.TunableLaser.Stop | AP2XXX/apextls.py:446-457 | "TLSSWP2" is sent outside simulation only |
| ApexPowerMeter.Powermeter.constructor | AP2XXX/powermeter.py:8-20 | the power meter keeps the analyser's connection and identity and starts in dBm |
| ApexPowerMeter.Powermeter.Describe | AP2XXX/powermeter.py:23-29 | the description starts with "Powermeter of " |
| ApexPowerMeter.Powermeter.SetUnit | AP2XXX/powermeter.py:30-47 | the unit becomes the argument's text exactly when it names dBm or mW in any case, otherwise it stays |
| ApexPowerMeter.Powermeter.GetUnit | AP2XXX/powermeter.py:48-55 | the cached unit is returned |
| ApexPowerMeter.Powermeter.GetPower | AP2XXX/powermeter.py:56-87 | a non-int channel closes and raises ARGUMENT_TYPE with nothing sent; in simulation an unknown unit closes and raises VARIABLE_NOT_DEFINED and a known one is a TypeError; a value comes only from the fixed query outside simulation |

## Left out

- Sockets: `Send` and `Receive` of `Common.py` and of `Attenuator`, and `Open`/`Close` of the AP1000, AP2XXX, AP2040 and AP2050. A connection is a log of sent commands plus an open flag. Sending never fails, and every reply is a method parameter, so a failed or timed-out receive is not modelled.
- USB transfers of the AB3380 and AB3510: `Find`, `Open` and `ctrl_transfer`. The model keeps only the argument checks and the buffers the transfers carry.
- The Etuve serial port: opening it and reading from it. The bytes read are a parameter.
- `GetID` and `Reset` of the AP2XXX, AP2040 and AP2050. They only send the IEEE 488.2 common commands `*IDN?` (section 10.14 of IEEE 488.2) and `*RST` (section 10.32).
- Floating point: every value is a Dafny `real`, which is exact.
- `log10` and `10 **` in the dBm/mW and dB/% conversions are uninterpreted functions of a `Maths` parameter. Only the dBm and dB identity branches are proved exactly.
- The `sqrt` of the default AB3380 DAC table is also a `Maths` parameter.
- Parsing and printing of numbers are uninterpreted functions of a `Conv` parameter. This covers `float()` and `int()` of a reply, `str()` of a float, `"%.1f"`, `"%.3f"` and `"%4.3f"`.
- Float32 and int16 bit patterns (`struct`) in the AB3380 image are 4- and 2-byte slots given by format functions. Only offsets, sizes and the read-back of what was written are proved.
- Randomness: the `random()` and `randint()` draws of the simulation branches are parameters.
- `sleep(0.2)` in the laser `On` methods has no effect on the model.
- Time: the Etuve's wall-clock reading is a parameter `now` of its refresh.
- `AutoMeasure` of the AP2XXX and OSA: it orchestrates I/O and calls the method `DesactivateAverageMode`, which does not exist.
- Printing: the warnings the clamping setters print, and every `__str__` other than the few given as `Describe`/`Name` functions.
- Scripts and packaging: `Examples/*.py`, `AP1000/PowerMeter_Example.py`, the package `__init__.py` and `version()`.
- The C structure quoted in a comment at AB3510/__init__.py:7-18. It is not code.
- `GetUnit`, `GetXUnit`, `GetYUnit` and similar getters that return a field are the fields themselves, except where a row above names them.
- Mainframe.AP1000.Factory: a factory returns a `Plugin` value naming the driver to build and its slot, not the driver object. Across its repeated `SlotType` calls it assumes the module answers the same identity each time.
- AP2050.AP2050.constructor: the code centres the window with the undefined name `AP2050_MIN`, which raises a NameError. The model uses the evident `AP2050_WLMIN`, giving the midpoint of the range.
- Constants that `Constantes.py` does not define, although the drivers import them. As written, each importing method, and the `OSA` module itself for `ReceiveUntilChar`, raises ImportError. The model takes each name as defined and passes its value as a parameter:
  - `AP1000_DFB_*` and `SimuDFB_SlotID`: the `Profile` of `DfbLasers`;
  - `AP1000_TLS_SOAMIN`/`SOAMAX`/`TMIN`/`TMAX`: the `Calibration` of `TunableLasers`;
  - `AP1000_POL_*`: `PolLimits` of `Polarimeters`;
  - `AP1000_PW1_*` and `SimuPW1_*`: the `Profile` of `PowerMeters`;
  - `AP1000_FIL_*` and `Celerity`: the `FilterConstants` of `Filters`, and the `celerity` of `Ap1000Osa`;
  - the `AP2XXX_*` limits, `SimuAP2XXX_*` and `APXXXX_ERROR_BAD_FILENAME`: the `Limits` of `AP2XXX`;
  - `AB3380_PTS_NB`: the table size `n` of `AB3380`;
  - the AB3510 error and request codes: `BoardCodes` of `AB3510`;
  - the USB vendor, product and request codes of the AB3380 and the USB identifiers of the AB3510 belong to the USB transfers left out above.
  - `APXXXX_ERROR_VARIABLE_NOT_DEFINED`: given the value -301 of `AP1000_ERROR_VARIABLE_NOT_DEFINED`;
  - `ReceiveUntilChar` of `Common.py`: the data replies of `Ap1000Osa.Osa.GetData` are parameters.
  Where such a limit is clamped into and printed, the model cannot tell whether the value prints as `str(int)` or `str(float)`.
- Osa.NewOSA: the constructor reads `AP2XXX_WLMIN` without importing it. The model takes the import as present and starts on the widest window.
- Broken paths are modelled as the error they raise, not as intended behaviour, wherever the intent of the code cannot be recovered from it:
  - `SetSpan` of the AP2040 and AP2050, which reads the undefined name `Wavelength`;
  - `PowerMeter.GetWavelength`, which misspells `self` as `slef`;
  - `Polarimeter.SetFrequency` with a non-positive frequency and `Polarimeter.GetFrequency`;
  - `IsRunning` of the AP1000 OSA in simulation;
  - `Run` of the OSA FS;
  - the simulated getters of the OSA FS, which slice a float;
  - `GetSample` of the AB3510 in simulation, which calls `randint` without importing it.
- The unreachable lines AP2XXX/__init__.py:707-708.
- Text.IsDigit: accepts the ASCII digits `0`-`9` only, where Python's `int()` and the regular expression `\d` also accept the other Unicode decimal digits. A reply or argument written with such digits is read as not a number.
- Case folding: `Text.Lower` lower-cases ASCII `A`-`Z` only, where Python's `str.lower` folds every Unicode letter. Non-ASCII spellings of units, sweep types or file types are compared unfolded.

## Findings

| source | as written | input that shows it | evidently intended | confidence | as-written member | corrected member |
|---|---|---|---|---|---|---|
| AP1000/__init__.py:104 | the slot range check reads `AP1000_SLOT_MIN`/`AP1000_SLOT_MAX`, which are never imported | `SlotUsed(1)` raises NameError | import the constants and check 0..92 | not executed | Mainframe.SlotCheckAsWritten, Mainframe.SlotCheckAsWrittenRefusesSlotOne | Mainframe.SlotCheck |
| AP1000/__init__.py:189 | `SlotType` imports from `PyApex.Constants`, a module that does not exist | any call, including the simulated slot | import from `PyApex.Constantes` | not executed | Mainframe.SlotTypeAsWritten, Mainframe.SlotTypeAsWrittenNeverNames | Mainframe.AP1000.SlotType |
| AP1000/OSA.py:127 | both unit setters test against `self.__ValidUnits`, which is never assigned | `SetXUnit("GHz")` raises AttributeError | test against the X and Y unit lists | not executed | Ap1000Osa.SetUnitAsWritten, Ap1000Osa.SetUnitAsWrittenRefusesGHz | Ap1000Osa.Osa.SetXUnit |
| AP1000/ErbiumAmplifier.py:165-166 | `SetIPump` imports `APXXXX_ERROR__ARGUMENT_TYPE` and the package `PyAPex` | `SetIPump(500)` raises ImportError | import `APXXXX_ERROR_ARGUMENT_TYPE` from `PyApex.Constantes` | not executed | ErbiumAmplifiers.SetIPumpAsWritten, ErbiumAmplifiers.SetIPumpAsWrittenRejectsValidCurrent | ErbiumAmplifiers.ErbiumAmplifier.SetIPump |
| AP1000/Attenuator.py:98 | `SetAttenuation` and `GetAttenuation` compare with `AP1000_ATT_ATTMIN`, `AP1000_ATT_ATTMAX` and `AP1000_ATT_CHNUMBER`, never imported | `SetAttenuation(10, 1)` in dB raises NameError | import the constants | not executed | Attenuators.SetAttenuationAsWritten, Attenuators.AsWrittenRefusesValidSetting | Attenuators.Attenuator.SetAttenuation |
| AP2040/__init__.py:140 | `SetCenter` range-checks the undefined name `Span` instead of the center | `SetCenter` of the range's midpoint raises NameError | check the center against MINCENTER..MAXCENTER | not executed | AP2040.CenterCheckAsWritten, AP2040.CenterCheckAsWrittenRejectsValidCenter | AP2040.AP2040.SetCenter |
| AP2XXX/osafs.py:119-120 | `SetSpan` sends `Center - Span/2` as the start and, after the start setter has moved the center, again as the stop | a 10 nm span on the initial window gives the ends 1540 and 1545 | start `Center - Span/2`, stop `Center + Span/2` | not executed | OsaFs.SpanTargetsAsWritten, OsaFs.SpanTargetsAsWrittenHalveTheSpan | OsaFs.SpanTargets |
| AP2XXX/osafs.py:152-153 | `SetCenter` sends `Center - Span/2` as both ends in the same way | centering on 1550 nm gives the ends 1535 and 1537.5 | the ends `c - Span/2` and `c + Span/2` | not executed | OsaFs.CenterTargetsAsWritten, OsaFs.CenterTargetsAsWrittenMissTheCenter | OsaFs.CenterTargets |
| AP2XXX/osafs.py:215 | `GetOSAMode` calls the misspelt `isintance` | `GetOSAMode("s")` raises NameError | `isinstance(Type, str)` | not executed | OsaFs.GetModeAsWritten, OsaFs.GetModeAsWrittenAlwaysFails | OsaFs.OsaFs.GetOSAMode |
| AP2XXX/__init__.py:821-836 | the marker axis test treats only `'x'`/`'X'` as X, so the documented spelling 0 passes the check but reads the Y markers | `GetMarkers(Axis=0)` | 0 and False select X | not executed | Spectrum.AxisZeroReadsY | Spectrum.AxisSelection, AP2XXX.AP2XXX.GetMarkers, AP2XXX.AP2XXX.FindPeak |
| AB3380/__init__.py:338 | the transitions are written in nm, unscaled, while the decoder divides them by 1000 | a transition of 1546 nm is read back as 1.546 nm | write the transitions times 1000, like the wavelengths | not executed | AB3380.TransitionSlotsAsWritten, AB3380.TransitionsAsWrittenReadBackScaledDown | AB3380.EncodingHeaderRoundTrip |
| AB3380/__init__.py:324-335 | `Parameters2EEPromData` assigns bytes into an immutable `bytes` object | any call with a readable version | a mutable `bytearray` buffer | not executed | AB3380.Parameters2EEPromDataAsWritten, AB3380.AsWrittenNeverWrites | AB3380.AB3380.Parameters2EEPromData |
