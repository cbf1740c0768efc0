# Alkali-density lab code, modelled in Dafny

The lab code measures the density of an alkali (rubidium) vapour from Faraday
rotation. A lock-in amplifier reads a voltage while a coil current sweeps the
magnetic field. A two-reading calibration turns volts into radians. The slope
of rotation against field, together with the optical length and the laser
detuning from the D1 and D2 resonances, then gives the density. Around that
arithmetic sit:

- the bookkeeping of the collection window: calibration readings, trial
  numbering and the raw-data rows of a trial;
- the trial file names the collection app writes and the analysis apps parse
  back;
- subsetting of parallel field/rotation arrays;
- a few helpers of the KSE (spin-exchange) experiment.

This project models those parts in Dafny and proves properties of them.

Python floats are Dafny `real`, so every identity is exact. A Python exception
raised by a lookup, a parse, an attribute that does not exist yet or an
app-level step is an `Err` of the `Result` type in `wrappers.dfy`, named
after the Python exception. The pure formulas are the exception: where Python
would raise ZeroDivisionError, they carry a `requires` that excludes the zero
divisor instead. "## Left out" lists each of them with its precondition.
Where the model has a checked caller (`CalibrationRow`, `CollectKSEData`,
`MeanAbsError`), that caller tests the same condition and returns the error.
numpy's
NaN is `None`. Hardware readings, file contents, clock
readings and what `float()` makes of a text entry are parameters.

The modules follow the source files:

| module | source |
|---|---|
| `DensityCommon` | formulas the three density-calculation files share, stated once |
| `DensityAppCalc` | density_app/functions/density_calc.py (resonances given as wavelengths) |
| `AnalysisDensityCalc` | density_analysis/density_calculations/density_calc.py (fixed resonance frequencies 3.77107568e14 Hz and 3.842306e14 Hz) |
| `DensityCalculations` | densityCalculations.py (fixed resonances 3.7719e14 Hz and 3.842e14 Hz, and the raw → analysable conversion) |
| `CalibrationFactors` | CalibrationFactor.py, an immutable record with its JSON map |
| `CollectionFunctions` | the calibration and conversion arithmetic of density_app/functions/density_collection_functions.py |
| `CollectionApp` | the three frames of DensityCollectionApp.py, as classes whose fields the methods update |
| `TrialFiles` | trial file names, the "tag-value" field reader, the base-path rebuild and the trial-row selection |
| `DensityAnalysisApp`, `AnalysisApp` | the two analysis apps |
| `FilenameRoundTrip` | the name the collection app writes is read back correctly by all three readers |
| `DataSets`, `PlotSettings`, `FitFunctions` | DataSet.py, the two identical `plotable` classes, Functions.py |
| `Utilities`, `MeasurementUtilities` | Utilities.py, density_measurement/functions/utilities.py |
| `KseExperimentUtils`, `KseDataCollection`, `KseDataCollectionDeprecated` | KSEExperimentUtils.py, kseDataCollection.py, kse_data_collection_DEPRICATED.py |
| `Text`, `PySeq`, `Wrappers`, `DataPoints` | Python's `str.split`, `"".join`, `int()`/`str()` on integers, slicing with clamped bounds, `sum`/mean, and the `DataPoint` record |

Some formulas are copied between files:

- The three density files carry the same current → field, voltage →
  rotation, rotation-factor and optical-length formulas. The Verdet
  correction `glass_verdet_adj` is in density_app/functions/density_calc.py
  and density_analysis/density_calculations/density_calc.py only.
  `DensityCommon` states each of these formulas once.
- They also carry the same wavelength → frequency, detuning, delta-term and
  density formulas, differing only in where the two resonances come from.
  `DensityCommon` states these once, with the resonances as parameters.
  Each density module binds them to its own resonances: fixed frequencies in
  densityCalculations.py and density_analysis/density_calculations/density_calc.py,
  wavelengths passed by the caller in density_app/functions/density_calc.py.
- kse_data_collection_DEPRICATED.py:23-37 repeats `getTrigCountCmd`,
  `getTrigSourceCmd` and `collectionTimeToNumCycles` of kseDataCollection.py
  word for word. The deprecated module uses the `KseDataCollection`
  definitions.

Behaviours that look unintended are modelled as written:

- The second press of the calibration button shows the first reading's value
  again (`GetCal`).
- The saved calibration row repeats the key "Final Calibration Error", so the
  final voltage is lost (`CalRowLosesFinalValue`).
- `data_subset_bfield` "after" drops the last point (`AfterBfieldDropsLast`).
- In `data_subset_index`, the "between" bound index2 is looked up as a field
  value (`IndexBounds`).
- `get_plotable_subset` "between" fails, because a `plotable` has no
  `find_in_Bfield_array` (`SubsetBounds`).
- Saving experiment parameters on a day without a params file makes the new
  row appear twice (`CollectionParameters.SaveExpParams`). There,
  `collection_params` and `latest_collection_params` are the same data frame,
  recorded by the `aliased` field.

`getDMMChangeInVoltage` cannot succeed on any input. It is listed under
Findings and modelled both ways.

## Model

| member | source | states |
|---|---|---|
| DensityCommon.ConstantsPositive | density_app/functions/density_calc.py:13-60 | π, the coil constant b_const, the glass Verdet term and the optical-length prefactor 18·mₑ·h·c/(qₑ²·μ_B) are all positive |
| DensityCommon.DeltaDenominatorAsSquares | density_app/functions/density_calc.py:76-87 | the delta-term denominator 4Δ2² − 2Δ1Δ2 + 7Δ1² is the sum of squares (2Δ2 − Δ1/2)² + 27/4·Δ1² |
| DensityCommon.DeltaDenominatorPositive | density_app/functions/density_calc.py:76-87 | the denominator is never negative, and is zero exactly when both detunings are zero |
| DensityCommon.DeltaNumeratorSign | density_app/functions/density_calc.py:76-87 | the numerator Δ1²Δ2² is non-negative, and zero exactly when one detuning is zero |
| DensityCommon.DeltaFromDetunings | density_app/functions/density_calc.py:76-87 | the delta term is defined unless both detunings vanish; it is ≥ 0, and 0 exactly when the laser sits on a resonance |
| DensityCommon.DeltaFromDetuningsEven | density_app/functions/density_calc.py:76-87 | flipping the sign of both detunings leaves the delta term unchanged |
| DensityCommon.OpticalLengthTerm | density_app/functions/density_calc.py:90-94 | term × length is the constant 18·mₑ·h·c/(qₑ²·μ_B); the term is positive for a positive length |
| DensityCommon.OpticalLengthInverse | density_analysis/density_calculations/density_calc.py:88-92 | the term is inversely proportional to the optical length: scaling the length by a divides it by a |
| DensityCommon.ConvertItoBLinear | density_analysis/density_calculations/density_calc.py:105-109 | the front-room field b_const·I·110/0.21 is linear in the current and 0 at zero current |
| DensityCommon.ConvertItoBMainroomLinear | density_app/functions/density_calc.py:127-129 | the main-room field 2.17·I is linear in the current, 0 at zero current and strictly increasing |
| DensityCommon.ConvertVtoRotProperties | density_app/functions/density_calc.py:133-136 | the rotation is 0 at the reference voltage and changes sign when the two voltages swap; for k ≠ 0 the voltage is recovered from the rotation |
| DensityCommon.CalculateRotationConversionFactor | density_app/functions/density_calc.py:142-145 | factor × voltage difference = calibration angle·π/180, so the angle can be recovered; the factor is 0 exactly when the angle is |
| DensityCommon.GlassVerdetAdjProperties | density_app/functions/density_calc.py:151-154 | the correction removes exactly verdet·depth·B from the rotation, and is the identity when B, verdet or depth is 0 |
| DensityCommon.FrequencyOf | density_app/functions/density_calc.py:71-73 | get_frequency_from_wavelength and get_laser_f: frequency × wavelength = c; the frequency is positive for a positive wavelength |
| DensityCommon.FrequencyInjective | density_app/functions/density_calc.py:71-73 | two wavelengths give the same frequency exactly when they are equal |
| DensityCommon.DeltaTermAt | density_analysis/density_calculations/density_calc.py:59-85 | delta_term for two line frequencies is defined unless the laser is on both lines; it is ≥ 0, and 0 exactly when the laser's frequency equals one line's |
| DensityCommon.DensityFromSlope | densityCalculations.py:87-91 | rb_density for a given delta term is 0 at slope 0, and ≥ 0 for a non-negative slope, a positive length and a non-negative delta term |
| DensityCommon.DensityIsScaledSlope | density_app/functions/density_calc.py:98-102 | density = slope × optical-length term × delta term |
| DensityCommon.DensityProportional | density_app/functions/density_calc.py:98-102 | two slopes with the same optical length and delta term give densities in the ratio of the slopes |
| DensityCommon.DensityLinear | density_analysis/density_calculations/density_calc.py:96-100 | rb_density is linear in the slope |
| DensityCommon.DensityInverseInLength | density_analysis/density_calculations/density_calc.py:88-100 | scaling the optical length by a divides the density by a |
| DensityAppCalc.DetuningZeroIff | density_app/functions/density_calc.py:65-73 | the detuning from a resonance is zero exactly when the laser wavelength equals the resonance wavelength |
| DensityAppCalc.DeltaTerm | density_app/functions/density_calc.py:76-87 | delta_term is ≥ 0, and 0 exactly when the laser wavelength equals one resonance wavelength |
| DensityAppCalc.DistinctResonancesDefineDeltaTerm | density_app/functions/density_calc.py:76-87 | with distinct D1 and D2 wavelengths, delta_term is defined for every laser wavelength and is ≥ 0 |
| DensityAppCalc.RbDensity | density_app/functions/density_calc.py:98-102 | density is 0 at slope 0, and ≥ 0 for a non-negative slope and positive length |
| DensityAppCalc.RbDensityProportional | density_app/functions/density_calc.py:98-102 | rb_density is linear in the slope: the densities of two slopes stand in the ratio of the slopes |
| DensityAppCalc.GetInfoFromFname | density_app/functions/density_calc.py:179-189 | succeeds exactly when the last path segment, cut at its first '.', has at least three '_'-parts and parts 1 and 2 hold a '-'; otherwise an IndexError; the date holds no '_', the cell and temperature no '-' |
| DensityAppCalc.GetAverageErrorSum | density_app/functions/density_calc.py:208-214 | the loop's accumulator is the sum of the squared errors; it is ≥ 0, and 0 exactly when every error is 0 |
| DensityAppCalc.KillianTemperature | density_app/functions/density_calc.py:157-161 | T = float(temp) + 273.15 when float() accepts a non-empty temperature and T > 0; empty or non-numeric text is a ValueError, T = 0 a ZeroDivisionError of 4132/T, T < 0 a ValueError of log10 |
| DensityAppCalc.GetMyData | density_app/functions/density_calc.py:223-253 | succeeds exactly when the file name can be read and killian_density accepts its temperature field; otherwise the first error, the name's before the temperature's; date, cell and temperature come from the name; density is rb_density of the slope and density error is rb_density of the slope error, so density error / density = slope error / slope |
| DensityAppCalc.ConvertToCmIfNeeded | density_app/functions/density_calc.py:288-293 | values ≤ 100 (100 included) are returned unchanged; larger values are multiplied by 1e-7; inputs up to 1e9 give a result ≤ 100 |
| DensityAppCalc.ConvertToCmIdempotent | density_app/functions/density_calc.py:288-293 | applying the conversion twice equals applying it once, for inputs ≤ 1e9 |
| DensityAppCalc.ConvertToCmNotIdempotentAbove | density_app/functions/density_calc.py:288-293 | the bound is needed: at 1e10 a second application changes the value |
| AnalysisDensityCalc.DetuningsNotBothZero | density_analysis/density_calculations/density_calc.py:59-67 | the two detunings differ by the fixed resonance gap, so they are never both zero |
| AnalysisDensityCalc.DeltaTerm | density_analysis/density_calculations/density_calc.py:76-85 | delta_term with the fixed resonances is always defined, ≥ 0, and 0 exactly when the laser is on a resonance |
| AnalysisDensityCalc.RbDensity | density_analysis/density_calculations/density_calc.py:96-100 | density is 0 at slope 0, and ≥ 0 for a non-negative slope and positive length |
| DensityCalculations.DetuningsNotBothZero | densityCalculations.py:50-58 | the detunings differ by the fixed resonance gap, so they are never both zero |
| DensityCalculations.DeltaTerm | densityCalculations.py:67-76 | delta_term with this file's resonances is always defined, ≥ 0, and 0 exactly when the laser is on a resonance |
| DensityCalculations.RbDensity | densityCalculations.py:87-91 | density is 0 at slope 0, and ≥ 0 for a non-negative slope and positive length |
| DensityCalculations.ConvertCollectedAtReference | densityCalculations.py:129-141 | a point converted against its own voltage has rotation 0; the field does not depend on the reference; changing the reference by Δ shifts the rotation by −Δ·k |
| DensityCalculations.ConvertRawDataArray | densityCalculations.py:147-158 | empty input is an IndexError; otherwise there is one converted point per raw point, in order, against the first point's voltage, so the first rotation is 0 |
| CalibrationFactors.ScaledDiffFactors | CalibrationFactor.py:132-134 | \|scale·v_f/10 − scale·v_i/10\| = \|scale\|·\|v_f − v_i\|/10, which is zero exactly when scale = 0 or v_i = v_f |
| CalibrationFactors.CalculateCalFactor | CalibrationFactor.py:109-136 | factor × \|scale·v_f/10 − scale·v_i/10\| = angle·π/180, so the angle can be recovered; defined only for scale ≠ 0 and v_i ≠ v_f; positive for a positive angle |
| CalibrationFactors.CalFactorSymmetric | CalibrationFactor.py:132-135 | the factor is symmetric in v_i and v_f |
| CalibrationFactors.CalFactorOffsetInvariant | CalibrationFactor.py:132-134 | adding the same offset to both voltages leaves the factor unchanged |
| CalibrationFactors.CalFactorLinearInAngle | CalibrationFactor.py:135 | the factor is linear in the angle |
| CalibrationFactors.CalculateCalFactorError | CalibrationFactor.py:138-159 | the error scale·(\|e_i\|+\|e_f\|) is ≥ 0 for scale ≥ 0, and 0 when both errors are 0 |
| CalibrationFactors.CalFactorErrorSignBlind | CalibrationFactor.py:158 | the error ignores the signs and the order of the two voltage errors |
| CalibrationFactors.NewCalibrationFactor | CalibrationFactor.py:46-105 | the constructor stores every argument unchanged, and sets the factor and its error from the stored fields |
| CalibrationFactors.CalFPrepForJSON | CalibrationFactor.py:161-192 | the JSON map has exactly the fourteen keys of calFPrepforJSON |
| CalibrationFactors.CalFJSONRoundTrip | CalibrationFactor.py:176-191 | each key maps to its field unchanged: reading the map back gives the same record |
| CollectionFunctions.CalculateCalibrationFactor | density_app/functions/density_collection_functions.py:71-75 | factor·\|v_f − v_i\|·(s/10) = angle·π/180; v_i = v_f is a division by zero |
| CollectionFunctions.CalibrationFactorSymmetric | density_app/functions/density_collection_functions.py:73-74 | the factor is symmetric in v_i and v_f |
| CollectionFunctions.CalibrationFactorConventionsAgree | density_app/functions/density_collection_functions.py:73-74 | for sensitivity > 0 it equals CalibrationFactor.calculateCalFactor; for sensitivity < 0 it is that value negated |
| CollectionFunctions.CalculateCalibrationError | density_app/functions/density_collection_functions.py:77-82 | error·(s/10)·(\|e_i\|+\|e_f\|) = angle·π/180; both errors 0 is a division by zero |
| CollectionFunctions.CalibrationErrorInverseOfVoltageError | density_app/functions/density_collection_functions.py:77-82 | this error is angle·π/180 divided by CalibrationFactor's error formula at scale s/10: the two conventions differ |
| CollectionFunctions.CalibrationErrorSignBlind | density_app/functions/density_collection_functions.py:77-82 | the error depends only on the magnitudes of the voltage errors |
| CollectionFunctions.CalibrationErrorDecreasing | density_app/functions/density_collection_functions.py:77-82 | for s > 0 and angle > 0, larger voltage errors give a strictly smaller calibration error |
| CollectionFunctions.ConversionFactorLinear | density_app/functions/density_collection_functions.py:84-86 | (s/10)·cal is linear in each argument |
| CollectionFunctions.ConversionFactorIndependentOfSensitivity | density_app/functions/density_collection_functions.py:71-86 | with the same s > 0 for calibration and collection, conversion factor × \|v_f − v_i\| = angle·π/180, whatever s is |
| CollectionApp.DictLiteralDropsOverwritten | DensityCollectionApp.py:720-737 | in a dict literal, a key/value pair overwritten by a later pair with the same key leaves no trace |
| CollectionApp.DictLiteralKeepsLast | DensityCollectionApp.py:720-737 | the last pair for a key is the value the dict keeps |
| CollectionApp.CalReadings | DensityCollectionApp.py:702-712 | with both readings taken, it returns their means and mean absolute errors; if either is missing, all four are 0 |
| CollectionApp.CalRowFor | DensityCollectionApp.py:713-737 | the saved row holds the doubled dial angle, the calibration factor and error computed from it, and the final error under "Final Calibration Error" |
| CollectionApp.CalibrationRow | DensityCollectionApp.py:701-737 | the row is built exactly when both entries parse, the sensitivity is non-zero, the readings differ and the errors are not both 0; a bad entry is a ValueError, otherwise a ZeroDivisionError |
| CollectionApp.CalibrationRowContents | DensityCollectionApp.py:713-737 | a saved row's calibration factor is calculateCalibrationFactor of the two reading means and twice the dial angle |
| CollectionApp.CalRowLosesFinalValue | DensityCollectionApp.py:732-734 | the duplicate key: the saved row is the same whatever the final calibration value |
| CollectionApp.MissingReadingDividesByZero | DensityCollectionApp.py:702-718 | a missing reading falls back to zeros, so v_i = v_f and the save is a ZeroDivisionError |
| CollectionApp.CalibrationParameters.constructor | DensityCollectionApp.py:502-616 | the calibration file is named after the date; both readings are missing and both displays show "TBD" |
| CollectionApp.CalibrationParameters.GetCal | DensityCollectionApp.py:685-699 | the first press stores the initial reading, the second the final reading (its display shows the first reading's mean), and later presses change nothing |
| CollectionApp.CalibrationParameters.CheckForCalFile | DensityCollectionApp.py:677-683 | the calibration table is the file's rows, or a new empty table |
| CollectionApp.CalibrationParameters.SaveCalInfo | DensityCollectionApp.py:701-743 | on success one row is appended to the reloaded table and its calibration factor is displayed; on error the table is reloaded and the display is unchanged |
| CollectionApp.LatestRows | DensityCollectionApp.py:254-267 | the latest-parameters frame has one row once it is filled, none before |
| CollectionApp.NextTrialContinues | DensityCollectionApp.py:340-358 | the trial number is the last saved trial + 1, and 1 when there is no file or it is empty |
| CollectionApp.NextTrialNeedsInteger | DensityCollectionApp.py:350-352 | a last trial number that is not an integer makes `+1` a TypeError |
| CollectionApp.NumberAt | DensityCollectionApp.py:418-419 | a cell is read as a number exactly when the column exists and holds a number; a missing column is a KeyError |
| CollectionApp.ExpParamsEntry | DensityCollectionApp.py:410-427 | the new parameters row takes the trial entry, the sensitivity and the conversion factor and error from the last calibration row; no calibration table is an AttributeError, an empty one a KeyError |
| CollectionApp.ConversionFactorFromSavedCalibration | DensityCollectionApp.py:410-427 | after a calibration is saved, the conversion factor × \|v_f − v_i\| = 2·dial angle·π/180 |
| CollectionApp.CollectionParameters.constructor | DensityCollectionApp.py:243-338 | the params file is named Experiment_Params_<date>.csv; nothing is loaded yet |
| CollectionApp.CollectionParameters.CheckForParamsFile | DensityCollectionApp.py:340-359 | the table is the file's rows, or else the latest-parameters frame itself (aliased); the trial number continues the file |
| CollectionApp.CollectionParameters.SaveExpParams | DensityCollectionApp.py:410-435 | on success the latest row is replaced and appended to the table (twice while the table is the aliased latest frame), and the conversion factor is displayed; an error changes nothing |
| CollectionApp.DataCollection.constructor | DensityCollectionApp.py:115-153 | no raw rows, an empty current entry, empty labels and Submit enabled; the time constant, point count, file name and file path do not exist yet, since __init__ does not create them |
| CollectionApp.DataCollection.CollectionSetup | DensityCollectionApp.py:171-188 | the time constant becomes 1 and the point count 10 even when the lookup then fails; no parameters table is an AttributeError and an empty one an IndexError, both leaving the file name and path as they were; otherwise the raw-data file name is date_cell-C_temp-T_trial-N.csv from the last parameters row, and the path is the data folder + that name |
| CollectionApp.DataCollection.SaveTextAndClear | DensityCollectionApp.py:202-235 | an entry that is not a number adds nothing and sets the error label; a number clears the label and disables Submit; before a setup that set the time constant, or one that set the file path, it is an AttributeError that adds nothing, keeps the entry and leaves Submit disabled; otherwise exactly one row (entry, mean, MAE, STD) is appended, the entry is cleared and Submit is enabled again |
| TrialFiles.TrialFilename | DensityCollectionApp.py:177-182 | the name starts with the date, ends in ".csv", and is 23 characters longer than its four fields |
| TrialFiles.DashField | analysis/density_analysis/app.py:32-38 | `part.split("-")[1]` succeeds exactly when the part holds a '-'; the field holds no '-' |
| TrialFiles.PartField | analysis/density_analysis/app.py:32-38 | a missing part is an IndexError; otherwise the part's dash field |
| TrialFiles.DashFieldOfTagged | analysis/density_analysis/app.py:32-38 | the dash field of "tag-value" is the value |
| TrialFiles.AssignFieldsOutcome | analysis/density_analysis/app.py:32-38 | all three fields are read when every part is readable; otherwise the first error, with the earlier fields stored and the later ones unchanged |
| TrialFiles.ReconstructBasefilepath | analysis/density_analysis/app.py:40-44 | every segment is followed by '/'; "" exactly for an empty list |
| TrialFiles.ChosenPathRebuilt | density_analysis/app.py:147-153 | the rebuilt base path followed by the popped segment is the chosen path; the popped segment holds no '/' |
| TrialFiles.FirstTrialIndex | analysis/density_analysis/app.py:52-54 | the first row whose trial number matches, or none if no row matches |
| TrialFiles.SelectTrialParams | analysis/density_analysis/app.py:46-57 | the first params row for int(trial); a non-integer trial is a ValueError and a missing trial a KeyError |
| AnalysisApp.App.constructor | analysis/density_analysis/app.py:16-30 | nothing loaded |
| AnalysisApp.App.DeconstructFilename | analysis/density_analysis/app.py:32-38 | the fields become those Deconstruct reads from the file name, starting from the old ones |
| AnalysisApp.App.GetExperimentParams | analysis/density_analysis/app.py:46-57 | the params file path is built from the date; the call succeeds exactly when the trial's row is found, and otherwise returns the lookup's error; the conversion factor and error come from that row, and are unchanged on error |
| AnalysisApp.App.LoadChosenFile | analysis/density_analysis/app.py:59-65 | the raw file name is the last path segment, and base path + name = the chosen path |
| AnalysisApp.App.LoadAndDecode | analysis/density_analysis/app.py:62-66 | the path split of LoadChosenFile, and the trial fields and error that Deconstruct reads from the raw file name |
| AnalysisApp.App.ChooseFile | analysis/density_analysis/app.py:59-67 | the data are loaded and base path + raw file name = the chosen path; the trial fields are those decoded from the name; a decoding error is returned as is and leaves the parameter file's name and path unchanged; otherwise those are Experiment_Params_<date>.csv under the base path, and the call succeeds exactly when the trial's parameters row exists, with the conversion factors that row's; on error they are unchanged |
| AnalysisApp.TrialField | analysis/density_analysis/app.py:38 | the trial field has its extension removed before the '-' split, so it holds no '.' and no '-' |
| DensityAnalysisApp.ZeroCurrentVoltages | density_analysis/app.py:71-78 | the voltages of exactly the rows whose current is 0; empty exactly when there is no such row |
| DensityAnalysisApp.ZeroReferenceIsFirstSample | density_analysis/app.py:71-78 | with only the first row at zero current, the reference is that row's voltage |
| DensityAnalysisApp.RotationAt | density_analysis/app.py:103-108 | a rotation is convertVtoRot against the zero-rotation voltage, or NaN when that voltage is NaN |
| DensityAnalysisApp.ProcessRows | density_analysis/app.py:100-109 | the conversion loop yields one processed row per raw row: field 2.17·I, the rotation against the zero voltage, MAE and STD scaled by the conversion factor |
| DensityAnalysisApp.App.constructor | density_analysis/app.py:28-67 | Verdet constant and glass depth are 1; nothing loaded |
| DensityAnalysisApp.App.GetZeroRotationVoltage | density_analysis/app.py:71-78 | the mean voltage of the zero-current rows; NaN exactly when there is none |
| DensityAnalysisApp.App.CreateProcessedFile | density_analysis/app.py:84-117 | one processed row per raw row: field 2.17·I, rotation (V − v0)·k without the Verdet correction, MAE·k, STD·k; the file is named <raw>_processed.csv |
| DensityAnalysisApp.App.DeconstructFilename | density_analysis/app.py:122-128 | the fields become those Deconstruct reads from the file name, starting from the old ones |
| DensityAnalysisApp.App.GetExperimentParams | density_analysis/app.py:136-145 | the params file path is built from the date; the call succeeds exactly when the trial's row is found, and otherwise returns the lookup's error; the conversion factor and error come from that row, and are unchanged on error |
| DensityAnalysisApp.App.LoadChosenFile | density_analysis/app.py:147-153 | the raw file name is the last segment without its extension; base path + last segment = the chosen path |
| DensityAnalysisApp.App.LoadAndDecode | density_analysis/app.py:150-154 | the path split of LoadChosenFile, and the trial fields and error that Deconstruct reads from the raw file name |
| DensityAnalysisApp.App.LookUpAndProcess | density_analysis/app.py:155-156 | the parameter file's name and path come from the date; succeeds exactly when the trial's parameters row exists, and otherwise returns the lookup's error; on success the factors are that row's, the processed file is <raw>_processed.csv under the base path and the processed table has one ProcessedRowOf row per raw row; on error the factors and the processed file's name, path and table are unchanged |
| DensityAnalysisApp.App.ChooseFile | density_analysis/app.py:147-156 | the data are loaded and the path split holds; the trial fields are those decoded from the name; a decoding error is returned as is and leaves the parameter file's name and path unchanged; otherwise those are Experiment_Params_<date>.csv under the base path, and the call succeeds exactly when the trial's parameters row exists; on success the conversion factors are that row's, the processed file is <raw>_processed.csv under the base path and processed row i is ProcessedRowOf(raw row i) against the mean zero-current voltage; on error the factors and the processed file's name, path and table are unchanged |
| FilenameRoundTrip.NameParts | DensityCollectionApp.py:177-182 | the written name splits on '_' into the date and the cell-, temp- and trial- parts |
| FilenameRoundTrip.AnalysisAppReadsTrialFilename | analysis/density_analysis/app.py:32-38 | this app reads back exactly the date, cell, temperature and trial the collection app wrote, with no error |
| FilenameRoundTrip.DensityAnalysisAppReadsTrialFilename | density_analysis/app.py:122-128 | after the extension is cut, this app reads back exactly the four fields that were written |
| FilenameRoundTrip.ProcessedFileInfo | density_app/functions/density_calc.py:179-189 | get_info_from_fname on <dir>/<stem>_processed.csv returns the written date, cell and temperature |
| FilenameRoundTrip.NegativeTemperatureReadsEmpty | density_app/functions/density_calc.py:179-189 | a name written with a negative oven temperature ("temp--5") reads back with the right date and cell but an empty temperature |
| FilenameRoundTrip.NegativeTemperatureFailsGetMyData | density_app/functions/density_calc.py:245 | for such a file get_my_data fails with killian_density's ValueError from float("") |
| DataSets.FindInBfieldArray | DataSet.py:85-90 | the first index holding the value; an IndexError exactly when the value is absent |
| DataSets.WeightedResiduals | DataSet.py:74-81 | each term ((y − line)/σ)² is ≥ 0, and 0 exactly when the point is on the line |
| DataSets.ChiSquaredLinefit | DataSet.py:74-81 | defined exactly when no error is 0; ≥ 0, and 0 exactly when every point lies on the fitted line |
| DataSets.BfieldBounds | DataSet.py:94-134 | the start is 0 for "before", else the first index of value1; "after" stops at length − 1; an absent value1 is the lookup's error |
| DataSets.IndexBounds | DataSet.py:138-177 | "before" is [0, index1+1); "after" is [index1, length); for "between", index2 is looked up as a field value and its index + 1 is the end |
| DataSets.AfterBfieldDropsLast | DataSet.py:112-118 | "after" a field value keeps the points from its first index up to, but not including, the last point |
| DataSets.BetweenIncludesBothEnds | DataSet.py:164-170 | "between" includes both end points |
| DataSets.DataSet.constructor | DataSet.py:16-23 | stores the plotable and the fit coefficients |
| DataSets.DataSet.GetChiSquaredLinefit | DataSet.py:74-81 | χ² of this set's data against its fitted line; ≥ 0 |
| DataSets.DataSet.FindInBfield | DataSet.py:85-90 | an index found holds the value in the field array |
| DataSets.DataSet.SubsetWith | DataSet.py:129-134 | a new plotable whose four arrays are all sliced with the same bounds, carrying the wavelength and optical length |
| DataSets.DataSet.DataSubsetBfield | DataSet.py:94-134 | fails exactly when the bounds fail; otherwise a new plotable with all four arrays sliced by the same bounds, and wavelength and length copied |
| DataSets.DataSet.DataSubsetIndex | DataSet.py:138-177 | fails exactly when the bounds fail; otherwise a new plotable with all four arrays sliced by the same bounds, and wavelength and length copied |
| DataSets.DataSet.CalculateRbDensity | DataSet.py:180-188 | density and error are ≥ 0 (absolute values of rb_density of the slope and of the mean y error); the error is NaN for an empty error array |
| DataSets.DensityMagnitude | DataSet.py:180-188 | \|rb_density\| is ≥ 0, and 0 exactly when rb_density is |
| DataSets.DensityMagnitudeScales | DataSet.py:180-188 | scaling the slope by a scales the reported density by \|a\| |
| PlotSettings.SubsetBounds | plotSettings.py:14-53 | "before" and "after" succeed; "between" is an AttributeError (no find_in_Bfield_array); any other kind is an UnboundLocalError |
| PlotSettings.BeforeKeepsPrefix | plotSettings.py:22-28 | "before" index1 keeps the first index1+1 elements |
| PlotSettings.AfterKeepsSuffix | plotSettings.py:31-37 | "after" index1 keeps the elements from index1 to the end |
| PlotSettings.SameBoundsKeepPairs | plotSettings.py:48-51 | arrays of equal length sliced with the same bounds stay parallel, element for element |
| PlotSettings.Plotable.constructor | density_analysis/density_calculations/plotSettings.py:33-65 | stores x, y, both error arrays, wavelength and length |
| PlotSettings.Plotable.WithoutErrors | plotSettings.py:6-12 | the error arrays default to empty |
| PlotSettings.Plotable.GetPlotableSubset | density_analysis/density_calculations/plotSettings.py:67-130 | a new plotable with all four arrays sliced by the same bounds and the wavelength and length copied, or the error of SubsetBounds; the original is unchanged |
| FitFunctions.LineAtZero | Functions.py:6-25 | line(0, a, b) = b |
| FitFunctions.LineZeroInterceptIsLine | Functions.py:27-44 | line_zero_intercept(x, a) = line(x, a, 0) |
| FitFunctions.LowerDegreeModels | Functions.py:47-93 | quadratic with a = 0 is a line, and cubic with a = 0 is a quadratic |
| FitFunctions.LineDifference | Functions.py:6-25 | line(x1) − line(x2) = a·(x1 − x2) |
| FitFunctions.LineThroughTwoPoints | Functions.py:6-25 | slope and intercept are recovered from two distinct points on the line |
| Utilities.CountDataSets | Utilities.py:18-22 | the count is the length of the list |
| Utilities.CountKeys | Utilities.py:25-29 | the count is the number of keys |
| Utilities.PrepRawDataForFile | Utilities.py:70-90 | three arrays parallel to the input; voltageError is filled from the current (x_val), as the code does |
| Utilities.PrepConvertedDataforFile | Utilities.py:120-147 | all arrays have the input length; rotation errors are \|y_err\| ≥ 0; magFieldError is empty; the scalars are stored unchanged |
| Utilities.FirstMatch | Utilities.py:32-55 | the first record matching both date and trial, or none |
| Utilities.FindSpecificTrial | Utilities.py:32-55 | the fields of the first record matching date and trial, or nothing when none matches |
| Utilities.FirstMatchAt | Utilities.py:32-55 | a matching record with no earlier match is the one found |
| Utilities.SavedTrialIsFound | Utilities.py:32-55 | a record appended after records with other (date, trial) keys is found, wherever later records sit |
| Utilities.ConvertTemptoWavelength | Utilities.py:152-157 | wavelength·1e7 = 781.75 − T |
| Utilities.TempToWavelengthDecreasing | Utilities.py:152-157 | the wavelength is strictly decreasing in the laser temperature |
| MeasurementUtilities.MeanAbsDeviation | density_measurement/functions/utilities.py:120-127 | the mean absolute deviation from the mean is ≥ 0 |
| MeasurementUtilities.MeanAbsError | density_measurement/functions/utilities.py:120-127 | the loop computes the mean absolute deviation from the mean; an empty list is the ZeroDivisionError of 0/0 |
| MeasurementUtilities.MeanAbsDeviationConstant | density_measurement/functions/utilities.py:120-127 | constant data have error 0 |
| MeasurementUtilities.MeanAbsDeviationShift | density_measurement/functions/utilities.py:123-125 | adding a constant to every value leaves the error unchanged |
| MeasurementUtilities.ValidateTextExists | density_measurement/functions/utilities.py:157-162 | true exactly when the text is non-empty |
| MeasurementUtilities.EntryExistsIsNumber | density_measurement/functions/utilities.py:164-170 | true exactly when the text is non-empty and float() accepts it; false on "" |
| MeasurementUtilities.TwoDArrayToTwoOneDArray | density_measurement/functions/utilities.py:99-106 | two lists of the input's length holding the first and second components; an entry that is too short is an IndexError |
| MeasurementUtilities.StringToPandasSeries | density_measurement/functions/utilities.py:77-83 | no piece holds the delimiter or a newline, and joining the pieces with the delimiter gives back the newline-free text |
| MeasurementUtilities.DtStringForFilename | density_measurement/functions/utilities.py:85-89 | the output holds no ':' and no ' '; each ':' becomes '_' and each ' ' becomes '-' |
| KseExperimentUtils.GetTimeIntervals | KSEExperimentUtils.py:27-35 | same length; out[i] = t[i] − t[0], so out starts at 0 |
| KseExperimentUtils.GetMagetometerConversionFactor | KSEExperimentUtils.py:37-39 | factor × volts = gauss × gain |
| KseExperimentUtils.ModuleMagnetometerFactor | KSEExperimentUtils.py:20-22 | with the module constants the factor is 0.001 |
| KseExperimentUtils.GyromagneticRatio | KSEExperimentUtils.py:44-61 | defined exactly for rb87, rb85 and cs133 at low or high energy; always negative |
| KseExperimentUtils.GetVoltstoHzConversion | KSEExperimentUtils.py:41-61 | 0 for an unrecognised metal or energy; otherwise 0.001 × the gyromagnetic ratio, which is negative |
| KseExperimentUtils.ConvertDMMData | KSEExperimentUtils.py:71-78 | empty input is an IndexError; otherwise same length, out[i] = (v[i] − v[0])·convf, starting at 0 |
| KseExperimentUtils.AdjustKSfromDMM | KSEExperimentUtils.py:110-114 | succeeds exactly when \|dmm\| ≥ \|ks\|; out[i] = ks[i] + dmm[i] over the length of ks |
| KseExperimentUtils.GetDMMChangeInVoltageAsWritten | KSEExperimentUtils.py:63-69 | as written, every input ends in an IndexError |
| KseExperimentUtils.DMMChangeFailsOnOneReading | KSEExperimentUtils.py:63-69 | on [v] the code fails where the intended result is [0.0] |
| KseExperimentUtils.GetDMMChangeInVoltage | KSEExperimentUtils.py:63-69 | corrected: each voltage's change from the first, in order; empty input is an IndexError |
| KseExperimentUtils.FindDMMOverflowVals | KSEExperimentUtils.py:139-141 | exactly the indices whose voltage exceeds 10000, in ascending order |
| KseDataCollection.GetTrigCountCmd | kseDataCollection.py:13-15 | "TRIG:COUN " followed by a numeral that int() reads back as n |
| KseDataCollection.GetTrigSourceCmd | kseDataCollection.py:17-19 | "TRIG:SOUR " followed by the source unchanged |
| KseDataCollection.Ceil | kseDataCollection.py:26 | math.ceil: the least integer ≥ x |
| KseDataCollection.NumCyclesIsLeastCover | kseDataCollection.py:21-27 | the cycle count is the least n with n·trig·(low+high) ≥ col_time; it is 0 for col_time 0 and ≥ 1 for col_time > 0 |
| KseDataCollection.CollectKSEData | kseDataCollection.py:31-212 | trigger count 0 is a ZeroDivisionError; otherwise the outer loop runs how_many_cycles times, and each cycle records trig_count timestamps, read in order |
| KseDataCollectionDeprecated.CycleTimestamps | kse_data_collection_DEPRICATED.py:240-250 | one cycle's timestamps: trig_count clock readings, in order |
| KseDataCollectionDeprecated.RunTimestamps | kse_data_collection_DEPRICATED.py:213-287 | k cycles log k timestamp lists, cycle c+1's at position c |
| KseDataCollectionDeprecated.Intervals | kse_data_collection_DEPRICATED.py:249 | time_intervals[i] = times[i] − start_time |
| KseDataCollectionDeprecated.TriggerCycle | kse_data_collection_DEPRICATED.py:240-250 | trig_count timestamps; start_time is set from the first timestamp of cycle 1 and kept after; intervals are measured from it |
| KseDataCollectionDeprecated.DefaultSettingsTakeTwentyFourCycles | kse_data_collection_DEPRICATED.py:52-61 | with 120 s, 10 triggers and 0.4 + 0.1 s the cycle count is 24, which exactly covers 120 s |
| KseDataCollectionDeprecated.App.constructor | kse_data_collection_DEPRICATED.py:41-77 | the constants 10 triggers, "EXT", 2 V/0 V, 0.1 s/0.4 s, 120 s and 24 cycles; both commands agree with them; no start time |
| KseDataCollectionDeprecated.App.CollectionThread | kse_data_collection_DEPRICATED.py:93-96 | collection becomes active |
| KseDataCollectionDeprecated.App.StopCollection | kse_data_collection_DEPRICATED.py:289-290 | the flag collect_data tests before each cycle is lowered |
| KseDataCollectionDeprecated.App.RunCycle | kse_data_collection_DEPRICATED.py:214-287 | one cycle: its timestamps are logged, start_time is taken in cycle 1, intervals are measured from it, and the cycle number goes up by one |
| KseDataCollectionDeprecated.App.CollectData | kse_data_collection_DEPRICATED.py:151-287 | from cycle 1, each cycle until a stop press between cycles logs its trig_count timestamps in order; the first interval of cycle 1 is 0 and every interval is measured from cycle 1's first timestamp |

## Findings

| source | as written | input that shows it | evidently intended | confidence | as-written member | corrected member |
|---|---|---|---|---|---|---|
| KSEExperimentUtils.py:63-69 | `delta_Vs[i] = ...` assigns into the empty list `delta_Vs = []`, so the first iteration raises IndexError | any non-empty list, e.g. `[v]` | append each voltage's change from the first: `[v] ↦ [0.0]` | high, not executed | KseExperimentUtils.GetDMMChangeInVoltageAsWritten | KseExperimentUtils.GetDMMChangeInVoltage |

## Left out

- Windows, widgets, layout and event loops (Tk and PySimpleGUI). Only the state fields the frame methods update are modelled; label texts are values before `formatter` rounding.
- Instrument drivers (oscilloscope, lock-in, DMM, frequency counter, DAQ; SCPI/VISA writes and queries). Readings are parameters: `Reading` for `collectDataPoint`, and a `clock` function for `time.time()` in the KSE loops.
- Threading. In kse_data_collection_DEPRICATED.py, `collection_active` is cleared by another thread. `CollectData` takes the number of cycles completed before a stop press between cycles (`stopAfter`) instead.
- File, CSV and JSON input and output, `os.path.isfile`, and clock reads. What a file holds and whether it exists are method parameters; appended CSV rows are not modelled beyond the in-memory tables.
- scipy's `curve_fit`, the fitted line's samples, covariance, standard deviations and the equation text of DataSet.py. The slope and intercept are constructor arguments.
- `sqrt`, `log10`, `exp`, the value of `killian_density` (its exceptions are modelled by KillianTemperature), `get_error_from_covar`, and the exponential, nlog and Gaussian models. π and (4/5)^(3/2) are fixed decimal constants, and IEEE rounding is not modelled.
- `formatter`, and Python's `float()` on text. A parameter (`isFloat`, `parseFloat`, or an `Option<real>` already parsed) stands for float().
- pandas type inference: a cell is text or a number. A NaN a data frame would hold is treated like a missing value.
- `update_from_cal_params` of the collection app (DensityCollectionApp.py:361-383). It sets `temp_cal_params` from the latest calibration file and refreshes the collection parameters from its last row. The model has no operation that does this; the conversion factor it would carry over is stated by `ConversionFactorFromSavedCalibration`.
- `convertTimestampstoInterval`, `convertKSFreqstoFloat`, `processAllData`, and the frequencies and DMM voltages of the KSE cycles. They move data through pandas, files and instruments only.
- `save_text_and_clear`'s five-time-constant `time.sleep`, its write of the new row to the CSV file and the text it adds to the data display.
- The plotSettings class (titles, labels, axis limits), `get_choice`, `get_response`, `getDateString` and `get_my_data_no_file`.
- The DensityCollectionFunctions module the collection app imports under that name is not part of this model. Its calibration arithmetic is taken from density_app/functions/density_collection_functions.py.
- `get_plotable_subset`'s `index2` argument is never used by its "before" and "after" branches and is not a parameter of the model.
- `stringToPandasSeries` takes a one-character delimiter.
- DensityCommon.FrequencyOf: requires a non-zero wavelength; Python raises ZeroDivisionError on `light_speed/0`.
- DensityCommon.DeltaFromDetunings: requires that the two detunings are not both zero; Python divides 0 by 0 there.
- DensityCommon.DeltaTermAt: requires a non-zero laser wavelength that is not on both lines at once.
- DensityCommon.OpticalLengthTerm: requires a non-zero optical length.
- DensityCommon.DensityFromSlope: requires a non-zero optical length.
- DensityCommon.CalculateRotationConversionFactor: requires a non-zero voltage difference.
- DensityAppCalc.DeltaTerm: requires non-zero resonance and laser wavelengths, with the laser not on both resonances.
- DensityAppCalc.RbDensity: requires `DensityDefined`, i.e. the DeltaTerm conditions and a non-zero optical length.
- DensityAppCalc.GetMyData: requires `DensityDefined`; a zero optical path or wavelength is a ZeroDivisionError in Python.
- AnalysisDensityCalc.DeltaTerm: requires a non-zero laser wavelength.
- AnalysisDensityCalc.RbDensity: requires non-zero optical length and laser wavelength.
- DensityCalculations.DeltaTerm: requires a non-zero laser wavelength.
- DensityCalculations.RbDensity: requires non-zero optical length and laser wavelength.
- CalibrationFactors.CalculateCalFactor: requires a non-zero scale and two different voltages.
- CalibrationFactors.NewCalibrationFactor: requires a non-zero lock-in sensitivity and two different voltages.
- CollectionFunctions.CalculateCalibrationFactor: requires a non-zero lock-in sensitivity and two different voltages.
- CollectionFunctions.CalculateCalibrationError: requires a non-zero lock-in sensitivity and voltage errors that are not both zero.
- CollectionApp.CalRowFor: requires the conditions of the two calibration formulas; `CalibrationRow` is the checked version that returns ZeroDivisionError.
- DataSets.WeightedResiduals: requires every y error to be non-zero.
- DataSets.DataSet.CalculateRbDensity: requires non-zero optical length and laser wavelength in the plot data.
- DataSets.DensityMagnitude: requires non-zero optical length and wavelength.
- KseDataCollection.CollectionTimeToNumCycles: requires a non-zero cycle length; `CollectKSEData` is the checked caller that returns ZeroDivisionError.
- KseExperimentUtils.GetMagetometerConversionFactor: requires a non-zero voltage.
- MeasurementUtilities.MeanAbsDeviation: requires a non-empty list; `MeanAbsError` is the checked version that returns ZeroDivisionError.
- DataSets.ChiSquaredLinefit: requires the x, y and error arrays to have equal length; numpy would broadcast or raise on unequal lengths.
- KseDataCollectionDeprecated.App.CollectData: requires that at least one cycle runs once collection is active (`stopAfter ≥ 1`); a press before the first cycle, which would run none, is not modelled. `stopAfter` counts the cycles completed before a stop press that falls between cycles; the flag is read only at the head of the loop.
- KseDataCollectionDeprecated.App.CollectData: a stop press in the middle of a cycle is not modelled. stop_collection closes the DAQ task (kse_data_collection_DEPRICATED.py:292), so the running cycle's next `task.write` (lines 242/245) raises and collect_data ends with that exception. That cycle's timestamps are then in `times` but never written to the CSV file (line 285), and the cycle count is not advanced (line 286).
- CollectionApp.NumberAt: treats a text cell in a numeric column as an error, where `float()` might still parse it.
