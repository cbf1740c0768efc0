/**
 * The trial file name collection_setup writes is the name both analysis
 * apps and density_calc's get_info_from_fname read back. The lemmas here
 * state that, for fields free of the characters the readers split on,
 * each reader recovers the fields the writer put in.
 */
module FilenameRoundTrip {
  import opened Wrappers
  import opened Text
  import opened TrialFiles
  import AnalysisApp
  import DensityAnalysisApp
  import DensityAppCalc

  /** Fields the readers can take apart again: no '_', '.' or '/', and no '-' after the tag. */
  predicate Readable(date: string, cell: string, temp: string, trial: string)
  {
    '_' !in date && '.' !in date && '/' !in date
    && '_' !in cell && '.' !in cell && '/' !in cell && '-' !in cell
    && '_' !in temp && '.' !in temp && '/' !in temp && '-' !in temp
    && '_' !in trial && '.' !in trial && '/' !in trial && '-' !in trial
  }

  /** The trial file name without its ".csv": the name density_analysis/app.py keeps. */
  function TrialStem(date: string, cell: string, temp: string, trial: string): string
  {
    date + "_" + ("cell-" + cell) + "_" + ("temp-" + temp) + "_" + ("trial-" + trial)
  }

  /** Three separators between four separator-free pieces: the split gives the four pieces. */
  lemma SplitFour(a: string, b: string, c: string, e: string, d: char)
    requires d !in a && d !in b && d !in c && d !in e
    ensures Split(a + [d] + b + [d] + c + [d] + e, d) == [a, b, c, e]
  {
    SplitWithoutSeparator(a, d);
    SplitWithoutSeparator(b, d);
    SplitWithoutSeparator(c, d);
    SplitWithoutSeparator(e, d);
    SplitConcat(a, b, d);
    SplitConcat(a + [d] + b, c, d);
    SplitConcat(a + [d] + b + [d] + c, e, d);
  }

  /** A separator-free stem, the separator and a tail: the first piece is the stem. */
  lemma FirstPiece(stem: string, tail: string, d: char)
    requires d !in stem
    ensures Split(stem + [d] + tail, d)[0] == stem
  {
    SplitWithoutSeparator(stem, d);
    SplitConcat(stem, tail, d);
  }

  /** The parts of the name split apart at '_'. */
  lemma NameParts(date: string, cell: string, temp: string, trial: string)
    requires Readable(date, cell, temp, trial)
    ensures Split(TrialStem(date, cell, temp, trial), '_')
         == [date, "cell-" + cell, "temp-" + temp, "trial-" + trial]
    ensures Split(TrialFilename(date, cell, temp, trial), '_')
         == [date, "cell-" + cell, "temp-" + temp, "trial-" + trial + ".csv"]
    ensures TrialFilename(date, cell, temp, trial) == TrialStem(date, cell, temp, trial) + ".csv"
  {
    var front := date + "_" + ("cell-" + cell) + "_" + ("temp-" + temp) + "_";
    var r := "trial-" + trial;
    assert TrialFilename(date, cell, temp, trial) == front + r + ".csv";
    assert front + r + ".csv" == front + (r + ".csv");
    SplitFour(date, "cell-" + cell, "temp-" + temp, r, '_');
    SplitFour(date, "cell-" + cell, "temp-" + temp, r + ".csv", '_');
  }

  /** Cut at '.', a '.'-free stem followed by ".csv" gives back the stem. */
  lemma StemBeforeCsv(stem: string)
    requires '.' !in stem
    ensures Split(stem + ".csv", '.')[0] == stem
  {
    assert stem + ".csv" == stem + ['.'] + "csv";
    FirstPiece(stem, "csv", '.');
  }

  /** The value of each tagged part. */
  lemma TaggedParts(cell: string, temp: string, trial: string)
    requires '-' !in cell && '-' !in temp && '-' !in trial
    ensures DashField("cell-" + cell) == Ok(cell)
    ensures DashField("temp-" + temp) == Ok(temp)
    ensures DashField("trial-" + trial) == Ok(trial)
  {
    DashFieldOfTagged("cell", cell);
    assert "cell" + "-" + cell == "cell-" + cell;
    DashFieldOfTagged("temp", temp);
    assert "temp" + "-" + temp == "temp-" + temp;
    DashFieldOfTagged("trial", trial);
    assert "trial" + "-" + trial == "trial-" + trial;
  }

  /**
   * analysis/density_analysis/app.py reads every field of the name
   * collection_setup writes, whatever the fields held before.
   */
  lemma AnalysisAppReadsTrialFilename(date: string, cell: string, temp: string, trial: string, before: TrialInfo)
    requires Readable(date, cell, temp, trial)
    ensures AnalysisApp.Deconstruct(TrialFilename(date, cell, temp, trial), before)
         == (TrialInfo(date, cell, temp, trial), None)
  {
    NameParts(date, cell, temp, trial);
    TaggedParts(cell, temp, trial);
    StemBeforeCsv("trial-" + trial);
    var parts := Split(TrialFilename(date, cell, temp, trial), '_');
    var fields := AnalysisApp.NameFields(parts);
    assert fields == [Ok(cell), Ok(temp), Ok(trial)];
    AssignFieldsOutcome(fields, before.(date := date));
  }

  /**
   * density_analysis/app.py keeps the name up to its first '.' and reads
   * every field of it back.
   */
  lemma DensityAnalysisAppReadsTrialFilename(date: string, cell: string, temp: string, trial: string, before: TrialInfo)
    requires Readable(date, cell, temp, trial)
    ensures Split(TrialFilename(date, cell, temp, trial), '.')[0] == TrialStem(date, cell, temp, trial)
    ensures DensityAnalysisApp.Deconstruct(TrialStem(date, cell, temp, trial), before)
         == (TrialInfo(date, cell, temp, trial), None)
  {
    NameParts(date, cell, temp, trial);
    TaggedParts(cell, temp, trial);
    StemBeforeCsv(TrialStem(date, cell, temp, trial));
    var parts := Split(TrialStem(date, cell, temp, trial), '_');
    var fields := DensityAnalysisApp.NameFields(parts);
    assert fields == [Ok(cell), Ok(temp), Ok(trial)];
    AssignFieldsOutcome(fields, before.(date := date));
  }

  /** get_info_from_fname in terms of the '_'-parts of the path's last segment, up to its first '.'. */
  lemma InfoFromParts(path: string, parts: seq<string>)
    requires Split(Split(Last(Split(path, '/')), '.')[0], '_') == parts
    requires |parts| >= 3 && DashField(parts[1]).Ok? && DashField(parts[2]).Ok?
    ensures DensityAppCalc.GetInfoFromFname(path) == Ok((parts[0], DashField(parts[1]).value, DashField(parts[2]).value))
  {
  }

  /** Readable fields make a stem without '.' or '/'. */
  lemma StemChars(date: string, cell: string, temp: string, trial: string)
    requires Readable(date, cell, temp, trial)
    ensures '.' !in TrialStem(date, cell, temp, trial) && '/' !in TrialStem(date, cell, temp, trial)
  {
  }

  /** A stem, '_', a word and an extension after '.': cut at '.' and split at '_', the stem's parts and the word. */
  lemma SuffixParts(stem: string, word: string, ext: string)
    requires '.' !in stem && '.' !in word && '_' !in word
    ensures Split(Split(stem + ['_'] + word + ['.'] + ext, '.')[0], '_') == Split(stem, '_') + [word]
  {
    var front := stem + ['_'] + word;
    assert '.' !in front;
    FirstPiece(front, ext, '.');
    SplitConcat(stem, word, '_');
    SplitWithoutSeparator(word, '_');
  }

  /** "_processed.csv" is '_', "processed", '.' and "csv". */
  lemma ProcessedSuffix(stem: string)
    ensures stem + "_processed.csv" == stem + ['_'] + "processed" + ['.'] + "csv"
  {
  }

  /**
   * The processed file density_analysis/app.py writes next to the raw one
   * is named after the stem; get_info_from_fname reads the date, the cell
   * and the temperature back from its path.
   */
  lemma ProcessedFileInfo(dir: string, date: string, cell: string, temp: string, trial: string)
    requires dir == [] || Last(dir) == '/'
    requires Readable(date, cell, temp, trial)
    ensures DensityAppCalc.GetInfoFromFname(dir + (TrialStem(date, cell, temp, trial) + "_processed.csv"))
         == Ok((date, cell, temp))
  {
    var stem := TrialStem(date, cell, temp, trial);
    StemChars(date, cell, temp, trial);
    ProcessedPathParts(dir, stem);
    NameParts(date, cell, temp, trial);
    TaggedParts(cell, temp, trial);
    InfoFromParts(dir + (stem + "_processed.csv"), [date, "cell-" + cell, "temp-" + temp, "trial-" + trial, "processed"]);
  }

  /** The processed file's path, cut at '/', '.' and '_': the stem's parts and "processed". */
  lemma ProcessedPathParts(dir: string, stem: string)
    requires dir == [] || Last(dir) == '/'
    requires '.' !in stem && '/' !in stem
    ensures Split(Split(Last(Split(dir + (stem + "_processed.csv"), '/')), '.')[0], '_') == Split(stem, '_') + ["processed"]
  {
    var name := stem + "_processed.csv";
    ProcessedSuffix(stem);
    assert '/' !in name;
    LastSegmentAfterPrefix(dir, name, '/');
    SuffixParts(stem, "processed", "csv");
  }

  /** A tagged part whose value starts with '-', such as "temp--5": the field after the first '-' is empty. */
  lemma DashFieldOfSigned(tag: string, digits: string)
    requires '-' !in tag && '-' !in digits
    ensures DashField(tag + "-" + ("-" + digits)) == Ok("")
  {
    assert tag + "-" + ("-" + digits) == tag + ['-'] + ([] + ['-'] + digits);
    SplitConcat(tag, [] + ['-'] + digits, '-');
    SplitConcat([], digits, '-');
    SplitWithoutSeparator(tag, '-');
    SplitWithoutSeparator(digits, '-');
  }

  /** The stem of a name with a signed temperature: no '.' or '/', and its four '_'-parts. */
  lemma SignedStemParts(date: string, cell: string, digits: string, trial: string)
    requires Readable(date, cell, digits, trial)
    ensures '.' !in TrialStem(date, cell, "-" + digits, trial) && '/' !in TrialStem(date, cell, "-" + digits, trial)
    ensures Split(TrialStem(date, cell, "-" + digits, trial), '_')
         == [date, "cell-" + cell, "temp-" + ("-" + digits), "trial-" + trial]
  {
    SplitFour(date, "cell-" + cell, "temp-" + ("-" + digits), "trial-" + trial, '_');
  }

  /**
   * collection_setup writes a negative oven temperature as "temp--5";
   * get_info_from_fname reads the temperature of the processed file as
   * the empty text after the first '-'.
   */
  lemma NegativeTemperatureReadsEmpty(dir: string, date: string, cell: string, digits: string, trial: string)
    requires dir == [] || Last(dir) == '/'
    requires Readable(date, cell, digits, trial)
    ensures DensityAppCalc.GetInfoFromFname(dir + (TrialStem(date, cell, "-" + digits, trial) + "_processed.csv"))
         == Ok((date, cell, ""))
  {
    var temp := "-" + digits;
    var stem := TrialStem(date, cell, temp, trial);
    SignedStemParts(date, cell, digits, trial);
    ProcessedPathParts(dir, stem);
    DashFieldOfTagged("cell", cell);
    assert "cell" + "-" + cell == "cell-" + cell;
    DashFieldOfSigned("temp", digits);
    assert "temp" + "-" + temp == "temp-" + temp;
    InfoFromParts(dir + (stem + "_processed.csv"), [date, "cell-" + cell, "temp-" + temp, "trial-" + trial, "processed"]);
  }

  /**
   * get_my_data on the processed file of a trial with a negative oven
   * temperature raises the ValueError of killian_density's float(temp),
   * whatever float() makes of other text.
   */
  lemma NegativeTemperatureFailsGetMyData(dir: string, date: string, cell: string, digits: string, trial: string,
                                          d1Res: real, d2Res: real, wavelength: real, opticalPath: real,
                                          slope: real, slopeErr: real, parseFloat: string -> Option<real>)
    requires dir == [] || Last(dir) == '/'
    requires Readable(date, cell, digits, trial)
    requires DensityAppCalc.DensityDefined(d1Res, d2Res, opticalPath, wavelength)
    ensures DensityAppCalc.GetMyData(d1Res, d2Res, dir + (TrialStem(date, cell, "-" + digits, trial) + "_processed.csv"),
                                     wavelength, opticalPath, slope, slopeErr, parseFloat)
         == Err(ValueError("float(temp)"))
  {
    NegativeTemperatureReadsEmpty(dir, date, cell, digits, trial);
  }
}
