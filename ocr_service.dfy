/**
 * The OCR service: it checks the Tesseract language data, preprocesses the
 * image, runs the engine, and always answers with a result rather than an
 * exception; the multi-language entry point picks English and Urdu when
 * their data files are present.
 */
module OcrService {
  import opened Wrappers
  import Text
  import Paths

  const DataUrl := "https://github.com/tesseract-ocr/tessdata"

  /** The language-data folder: `tessdata` in the application's base directory. */
  function TessDataPath(baseDirectory: string): string
  {
    Paths.Combine(baseDirectory, "tessdata")
  }

  datatype OcrResult = OcrResult(success: bool, extractedText: Option<string>, errorMessage: Option<string>)

  /** The result the `catch` shapes from an exception. */
  function Failed(message: string): OcrResult
  {
    OcrResult(false, None, Some(message))
  }

  /**
   * What the service meets on the machine: the application's base
   * directory, the directories and files that exist, the temporary folder
   * and the GUID a preprocessed copy is named with, whether the image can be
   * loaded, redrawn and saved, and what the engine reads for a language
   * string and an image path (or the message of the exception it throws).
   */
  datatype Machine = Machine(
    baseDirectory: string,
    directories: set<string>,
    files: set<string>,
    tempPath: string,
    guid: string,
    preprocessSucceeds: bool,
    engine: (string, string) -> Result<string, string>)

  /** Where a successful preprocessing writes its copy. */
  function PreprocessedPath(m: Machine): string
  {
    Paths.Combine(m.tempPath, "ocr_preprocessed_" + m.guid + ".png")
  }

  /** The image the engine reads: the preprocessed copy, or the original when preprocessing fails. */
  function PreprocessImage(m: Machine, imagePath: string): (p: string)
    ensures !m.preprocessSucceeds ==> p == imagePath
    ensures m.preprocessSucceeds ==> p == PreprocessedPath(m)
  {
    if m.preprocessSucceeds then PreprocessedPath(m) else imagePath
  }

  /** The data file a (possibly padded) language code needs. */
  function LanguageFile(tessDataPath: string, lang: string): string
  {
    Paths.Combine(tessDataPath, Text.Trim(lang) + ".traineddata")
  }

  /** Whether the data file a language code needs is present. */
  predicate HasData(tessDataPath: string, files: set<string>, lang: string)
  {
    LanguageFile(tessDataPath, lang) in files
  }

  /** The data file each language code needs, in order. */
  function LanguageFiles(tessDataPath: string, langs: seq<string>): (paths: seq<string>)
    ensures |paths| == |langs|
    ensures forall k :: 0 <= k < |langs| ==> paths[k] == LanguageFile(tessDataPath, langs[k])
  {
    seq(|langs|, k requires 0 <= k < |langs| => LanguageFile(tessDataPath, langs[k]))
  }

  /** The first language whose data file is missing, in the order given. */
  function MissingLanguage(tessDataPath: string, files: set<string>, langs: seq<string>): (r: Option<nat>)
    ensures r.Some? ==>
      && r.value < |langs| && !HasData(tessDataPath, files, langs[r.value])
      && forall j :: 0 <= j < r.value ==> HasData(tessDataPath, files, langs[j])
    ensures r.None? <==> forall j :: 0 <= j < |langs| ==> HasData(tessDataPath, files, langs[j])
  {
    MissingFrom(files, LanguageFiles(tessDataPath, langs), 0)
  }

  /** The first path from position `i` on that is not among the files. */
  function MissingFrom(files: set<string>, paths: seq<string>, i: nat): (r: Option<nat>)
    requires i <= |paths|
    ensures r.Some? ==>
      && i <= r.value < |paths| && paths[r.value] !in files
      && forall j :: i <= j < r.value ==> paths[j] in files
    ensures r.None? <==> forall j :: i <= j < |paths| ==> paths[j] in files
    decreases |paths| - i
  {
    if i == |paths| then None
    else if paths[i] !in files then Some(i)
    else MissingFrom(files, paths, i + 1)
  }

  function NoTessDataMessage(tessDataPath: string): string
  {
    "Tessdata folder not found at: " + tessDataPath + ". Please download language data from " + DataUrl
  }

  /** The message names the trimmed file but the code as it was written. */
  function MissingMessage(tessDataPath: string, lang: string): string
  {
    "Language file not found: " + LanguageFile(tessDataPath, lang) + ". Download '" + lang
      + ".traineddata' from " + DataUrl
  }

  /** What one OCR call answers, and the file its cleanup deletes, if it reaches the cleanup. */
  datatype OcrRun = OcrRun(result: OcrResult, deleted: Option<string>)

  /**
   * The file the cleanup deletes: the path preprocessing returned. With
   * `keepOriginal` the original image is spared when preprocessing fell back to it.
   */
  function CleanupWith(imagePath: string, preprocessedPath: string, keepOriginal: bool): Option<string>
  {
    if keepOriginal && preprocessedPath == imagePath then None else Some(preprocessedPath)
  }

  /**
   * One OCR call: the data folder must exist and every `+`-separated
   * language code must have its data file; then the image is preprocessed,
   * read by the engine, and the preprocessed copy deleted. Every failure
   * becomes an unsuccessful result carrying the exception's message.
   */
  function OcrWith(m: Machine, imagePath: string, language: string, keepOriginal: bool): (run: OcrRun)
    ensures run.result.success <==> run.result.extractedText.Some? && run.result.errorMessage.None?
    ensures !run.result.success ==> run.result.errorMessage.Some? && run.deleted.None?
    ensures TessDataPath(m.baseDirectory) !in m.directories ==>
      run == OcrRun(Failed(NoTessDataMessage(TessDataPath(m.baseDirectory))), None)
    ensures run.result.success ==>
      && TessDataPath(m.baseDirectory) in m.directories
      && (forall lang :: lang in Text.Split(language, '+') ==>
            LanguageFile(TessDataPath(m.baseDirectory), lang) in m.files)
      && m.engine(language, PreprocessImage(m, imagePath)) == Ok(run.result.extractedText.value)
    ensures var tess := TessDataPath(m.baseDirectory); var langs := Text.Split(language, '+');
      tess in m.directories && MissingLanguage(tess, m.files, langs).Some? ==>
        run == OcrRun(Failed(MissingMessage(tess, langs[MissingLanguage(tess, m.files, langs).value])), None)
    ensures var tess := TessDataPath(m.baseDirectory); var langs := Text.Split(language, '+');
      tess in m.directories && MissingLanguage(tess, m.files, langs).None? ==>
        match m.engine(language, PreprocessImage(m, imagePath))
        case Ok(text) =>
          run == OcrRun(OcrResult(true, Some(text), None), CleanupWith(imagePath, PreprocessImage(m, imagePath), keepOriginal))
        case Err(message) => run == OcrRun(Failed(message), None)
  {
    var tess := TessDataPath(m.baseDirectory);
    if tess !in m.directories then OcrRun(Failed(NoTessDataMessage(tess)), None)
    else
      var langs := Text.Split(language, '+');
      match MissingLanguage(tess, m.files, langs)
      case Some(i) => OcrRun(Failed(MissingMessage(tess, langs[i])), None)
      case None =>
        var pre := PreprocessImage(m, imagePath);
        match m.engine(language, pre)
        case Err(message) => OcrRun(Failed(message), None)
        case Ok(text) => OcrRun(OcrResult(true, Some(text), None), CleanupWith(imagePath, pre, keepOriginal))
  }

  /** The call as written: the cleanup deletes whatever path preprocessing returned. */
  function OcrAsWritten(m: Machine, imagePath: string, language: string): OcrRun
  {
    OcrWith(m, imagePath, language, false)
  }

  /** The call with the cleanup sparing the original image. */
  function Ocr(m: Machine, imagePath: string, language: string): OcrRun
  {
    OcrWith(m, imagePath, language, true)
  }

  /** The loop over the language codes: stops at the first one whose data file is missing. */
  method CheckLanguages(tessDataPath: string, files: set<string>, langs: seq<string>) returns (missing: Option<nat>)
    ensures missing == MissingLanguage(tessDataPath, files, langs)
  {
    var i := 0;
    while i < |langs|
      invariant 0 <= i <= |langs|
      invariant MissingFrom(files, LanguageFiles(tessDataPath, langs), i) == MissingLanguage(tessDataPath, files, langs)
    {
      var langFile := LanguageFile(tessDataPath, langs[i]);
      if langFile !in files {
        return Some(i);
      }
      i := i + 1;
    }
    return None;
  }

  /** `PerformOCR`: checks the language codes one by one, then preprocesses, reads and cleans up. */
  method PerformOcr(m: Machine, imagePath: string, language: string) returns (run: OcrRun)
    ensures run == Ocr(m, imagePath, language)
  {
    var tess := TessDataPath(m.baseDirectory);
    if tess !in m.directories {
      return OcrRun(Failed(NoTessDataMessage(tess)), None);
    }
    var langs := Text.Split(language, '+');
    var missing := CheckLanguages(tess, m.files, langs);
    if missing.Some? {
      return OcrRun(Failed(MissingMessage(tess, langs[missing.value])), None);
    }
    var pre := PreprocessImage(m, imagePath);
    var read := m.engine(language, pre);
    if read.Err? {
      return OcrRun(Failed(read.error), None);
    }
    var result := OcrResult(true, Some(read.value), None);
    var deleted := if pre == imagePath then None else Some(pre);
    run := OcrRun(result, deleted);
  }

  // ---------------------------------------------------------------------------
  // Several languages at once

  /** The languages tried, in order. */
  const Candidates := ["eng", "urd"]

  /** The candidates whose data file is present, in candidate order. */
  function Available(tessDataPath: string, files: set<string>, candidates: seq<string>): (langs: seq<string>)
    ensures |langs| <= |candidates|
    ensures forall lang :: lang in langs ==> lang in candidates && Paths.Combine(tessDataPath, lang + ".traineddata") in files
    ensures forall lang :: lang in candidates && Paths.Combine(tessDataPath, lang + ".traineddata") in files ==> lang in langs
  {
    if candidates == [] then []
    else
      var rest := Available(tessDataPath, files, candidates[1..]);
      if Paths.Combine(tessDataPath, candidates[0] + ".traineddata") in files then [candidates[0]] + rest else rest
  }

  /** The loop that collects the present candidates. */
  method AvailableLanguages(tessDataPath: string, files: set<string>) returns (langs: seq<string>)
    ensures langs == Available(tessDataPath, files, Candidates)
  {
    langs := [];
    for i := 0 to |Candidates|
      invariant langs == Available(tessDataPath, files, Candidates[..i])
    {
      AvailableAppend(tessDataPath, files, Candidates[..i], Candidates[i]);
      assert Candidates[..i + 1] == Candidates[..i] + [Candidates[i]];
      var langFile := Paths.Combine(tessDataPath, Candidates[i] + ".traineddata");
      if langFile in files {
        langs := langs + [Candidates[i]];
      }
    }
    assert Candidates[..|Candidates|] == Candidates;
  }

  /** One more candidate at the end adds at most itself, at the end. */
  lemma {:induction false} AvailableAppend(tessDataPath: string, files: set<string>, candidates: seq<string>, c: string)
    ensures Available(tessDataPath, files, candidates + [c]) ==
      Available(tessDataPath, files, candidates) +
      (if Paths.Combine(tessDataPath, c + ".traineddata") in files then [c] else [])
  {
    if candidates != [] {
      assert (candidates + [c])[1..] == candidates[1..] + [c];
      AvailableAppend(tessDataPath, files, candidates[1..], c);
    } else {
      assert ([] + [c])[1..] == [];
    }
  }

  /** `PerformMultiLanguageOCR`: the present candidates joined by `+`, or English alone when none is present. */
  function MultiSpec(m: Machine, imagePath: string): OcrRun
  {
    var langs := Available(TessDataPath(m.baseDirectory), m.files, Candidates);
    if langs == [] then Ocr(m, imagePath, "eng") else Ocr(m, imagePath, Text.Join('+', langs))
  }

  method PerformMultiLanguageOcr(m: Machine, imagePath: string) returns (run: OcrRun)
    ensures run == MultiSpec(m, imagePath)
  {
    var langs := AvailableLanguages(TessDataPath(m.baseDirectory), m.files);
    if |langs| == 0 {
      run := PerformOcr(m, imagePath, "eng");
      return;
    }
    var langString := Text.Join('+', langs);
    run := PerformOcr(m, imagePath, langString);
  }

  // ---------------------------------------------------------------------------
  // What the OCR calls guarantee

  /** The language string asked for is one of `eng`, `urd` and `eng+urd`. */
  lemma SelectionIsOneOfThree(tessDataPath: string, files: set<string>)
    ensures var langs := Available(tessDataPath, files, Candidates);
      langs != [] ==> Text.Join('+', langs) in {"eng", "urd", "eng+urd"}
  {
    AvailableCandidates(tessDataPath, files);
    JoinBoth();
  }

  /** Which candidates are kept, case by case. */
  lemma AvailableCandidates(tessDataPath: string, files: set<string>)
    ensures var hasEng := Paths.Combine(tessDataPath, "eng" + ".traineddata") in files;
      var hasUrd := Paths.Combine(tessDataPath, "urd" + ".traineddata") in files;
      Available(tessDataPath, files, Candidates)
        == (if hasEng then ["eng"] else []) + (if hasUrd then ["urd"] else [])
  {
    assert Candidates[1..] == ["urd"];
    assert ["urd"][1..] == [];
  }

  /** Joining both candidates. */
  lemma JoinBoth()
    ensures Text.Join('+', ["eng"] + ["urd"]) == "eng+urd"
  {
    assert (["eng"] + ["urd"])[1..] == ["urd"];
    assert Text.Join('+', ["eng"] + ["urd"]) == "eng" + ['+'] + Text.Join('+', ["urd"]);
  }

  /** The candidates have no padding and no `+` in them. */
  lemma CandidateIsPlain(lang: string)
    requires lang in Candidates
    ensures '+' !in lang && Text.Trim(lang) == lang
  {
    assert |lang| == 3 && lang[0] != '+' && lang[1] != '+' && lang[2] != '+';
    assert !Text.IsWhiteSpace(lang[0]) && !Text.IsWhiteSpace(lang[2]);
  }

  /** A language string without padding or `+` in its codes is checked code by code. */
  lemma {:induction false} JoinedLanguagesAreChecked(tessDataPath: string, files: set<string>, langs: seq<string>)
    requires |langs| >= 1
    requires forall k :: 0 <= k < |langs| ==> '+' !in langs[k]
    requires forall k :: 0 <= k < |langs| ==> Text.Trim(langs[k]) == langs[k]
    requires forall k :: 0 <= k < |langs| ==> Paths.Combine(tessDataPath, langs[k] + ".traineddata") in files
    ensures MissingLanguage(tessDataPath, files, Text.Split(Text.Join('+', langs), '+')).None?
  {
    Text.SplitJoin(langs, '+');
  }

  /**
   * The selected languages always pass the language check: with at least
   * one candidate present, the multi-language call succeeds exactly when the
   * data folder exists and the engine reads the image.
   */
  lemma SelectionPassesLanguageCheck(m: Machine, imagePath: string)
    requires Available(TessDataPath(m.baseDirectory), m.files, Candidates) != []
    ensures var langs := Available(TessDataPath(m.baseDirectory), m.files, Candidates);
      MultiSpec(m, imagePath).result.success <==>
        && TessDataPath(m.baseDirectory) in m.directories
        && m.engine(Text.Join('+', langs), PreprocessImage(m, imagePath)).Ok?
  {
    var tess := TessDataPath(m.baseDirectory);
    var langs := Available(tess, m.files, Candidates);
    forall k | 0 <= k < |langs|
      ensures '+' !in langs[k] && Text.Trim(langs[k]) == langs[k]
    {
      assert langs[k] in langs;
      CandidateIsPlain(langs[k]);
    }
    JoinedLanguagesAreChecked(tess, m.files, langs);
  }

  /**
   * With no candidate present, the call falls back to English alone, whose
   * data file is then missing too, so the call fails.
   */
  lemma NoLanguageDataFails(m: Machine, imagePath: string)
    requires Available(TessDataPath(m.baseDirectory), m.files, Candidates) == []
    ensures MultiSpec(m, imagePath) == Ocr(m, imagePath, "eng")
    ensures !MultiSpec(m, imagePath).result.success
  {
    EnglishIsOneCode(TessDataPath(m.baseDirectory));
    assert "eng" in Candidates;
  }

  /** `eng` splits into itself and needs `eng.traineddata`. */
  lemma EnglishIsOneCode(tessDataPath: string)
    ensures Text.Split("eng", '+') == ["eng"]
    ensures LanguageFile(tessDataPath, "eng") == Paths.Combine(tessDataPath, "eng" + ".traineddata")
  {
    Text.SplitJoin(["eng"], '+');
    CandidateIsPlain("eng");
  }

  /**
   * The cleanup as written deletes the original image: when preprocessing
   * fails it falls back to the original path, and after a successful read
   * that path is the one deleted.
   */
  lemma CleanupDeletesOriginalAsWritten(m: Machine, imagePath: string)
    requires TessDataPath(m.baseDirectory) in m.directories
    requires LanguageFile(TessDataPath(m.baseDirectory), "eng") in m.files
    requires !m.preprocessSucceeds && m.engine("eng", imagePath).Ok?
    ensures OcrAsWritten(m, imagePath, "eng").result.success
    ensures OcrAsWritten(m, imagePath, "eng").deleted == Some(imagePath)
    ensures Ocr(m, imagePath, "eng").result.success && Ocr(m, imagePath, "eng").deleted == None
  {
    EnglishIsOneCode(TessDataPath(m.baseDirectory));
  }

  /**
   * The corrected cleanup never deletes the original image, and still
   * deletes the preprocessed copy after a successful read.
   */
  lemma CleanupSparesOriginal(m: Machine, imagePath: string, language: string)
    ensures Ocr(m, imagePath, language).deleted != Some(imagePath)
    ensures Ocr(m, imagePath, language).result.success && m.preprocessSucceeds && PreprocessedPath(m) != imagePath
            ==> Ocr(m, imagePath, language).deleted == Some(PreprocessedPath(m))
  {
  }
}
