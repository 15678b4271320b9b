# Scanner service model

A Dafny model of the core of a Windows console service. The service drives a TWAIN scanner and serves the scans over HTTP. It has an OCR helper that reads the scanned images with Tesseract. The model covers three parts.

- **The scan transaction** (`ScannerService`, with `Dib`):
  - look the source up by name, attach the three notification handlers, open the source, and enable it with its own dialog;
  - pump the message loop in 50 ms steps for up to 60 s, allowing a 2 s settling period after an image arrives;
  - decode the device-independent bitmap of a native transfer and save it as `scan_yyyyMMdd_HHmmss.jpg`;
  - settle the outcome: a recorded exception wins, no data is a time-out;
  - tear down on every path: detach the handlers and close the source if it was opened.

  The scanner list and the one-time initialisation are modelled too.
- **The HTTP front end** (`ScannerWebApi`):
  - the CORS headers and the `OPTIONS` short-cut;
  - routing on the lower-cased path;
  - the status and body of each endpoint;
  - the image URL of a scan, and the file an image request resolves to.
- **The OCR service** (`OcrService`):
  - the language-data folder check and the per-code language-file check;
  - the fallback to the original image when preprocessing fails;
  - the result that replaces every exception;
  - the `eng`/`urd` selection of the multi-language call.

`Text` holds the string operations these parts use: ordinal lower-casing, prefix tests, `Split`/`Join` on one character, and `Trim`. `Paths` holds .NET Framework `Path.Combine`, `Path.GetFileName` and `Path.IsPathRooted`, with the Windows separators `\`, `/` and `:`.

The world the code meets is passed in as values rather than performed:
- **The TWAIN device is a `Device`.** It holds:
  - the enumerated sources, or the enumeration error;
  - the return codes of `Open` and `Enable`;
  - the notifications each pump step delivers.
- **The clock is a `Clock` value.** It is carried by each transfer notification.
- **The file system is a set of paths, or a map from path to contents.**
- **The Tesseract engine is a function** from a language string and an image path to the text read, or to the message of the exception it throws.
- **Time is counted in ticks.**
  - One tick is one `DoEvents` plus a 50 ms sleep, so 60 s is 1200 ticks and 2 s is 40 ticks.
  - One initialisation poll is 100 ms, so 5 s is 50 polls.

Each imperative routine follows the same pattern:
- a method with the source's loop, proved equal to a specification function;
- lemmas that state what the specification function guarantees.

The routines that follow it are:
- the row copy;
- the pump and wait loops;
- the transaction;
- the language-check loop;
- the candidate loop.

## Model

| member | source | states |
|---|---|---|
| Text.Lower | ScannerWebAPI.cs:124 | `ToLower` keeps the length and lower-cases each ASCII letter, leaving every other character alone |
| Text.LowerIdempotent | ScannerWebAPI.cs:124 | lower-casing an already lower-cased path changes nothing |
| Text.Split | OCRService.cs:28 | `Split('+')` yields at least one piece, and no piece contains the separator |
| Text.Join | OCRService.cs:146 | `string.Join("+", …)`; its meaning is fixed by JoinSplit and SplitJoin |
| Text.JoinSplit | OCRService.cs:28 | joining the pieces of a split with the separator gives back the original string |
| Text.SplitJoin | OCRService.cs:146 | splitting a join of separator-free pieces gives back exactly those pieces |
| Text.Trim | OCRService.cs:31 | `Trim` leaves no white space at either end, never lengthens, and leaves an already trimmed string unchanged |
| Text.TrimIsInfix | OCRService.cs:31 | `Trim` keeps a contiguous run of the input's characters, in order, with only white space before it and only white space after it |
| Paths.CombineFacts | ScannerService.cs:187 | `Path.Combine` ends with the name; a relative name goes under a non-empty directory with exactly one separator between them; an empty name gives the directory |
| Paths.GetFileName | ScannerWebAPI.cs:255 | `Path.GetFileName` is a suffix of the path that contains no separator and follows the last separator |
| Paths.FileNameStaysInDirectory | ScannerWebAPI.cs:255-256 | combining the output directory with the file name of any path gives the directory, one separator and that name |
| Paths.FileNameAfterSeparator | ScannerWebAPI.cs:255 | the file name of a directory ending in a separator, followed by a plain name, is that name |
| Dib.ReadInt32 | ScannerService.cs:147-149 | `Marshal.ReadInt32` is a little-endian two's-complement 32-bit value |
| Dib.ReadInt16 | ScannerService.cs:150 | `Marshal.ReadInt16` is a little-endian two's-complement 16-bit value |
| Dib.ReadEncodeInt32 | ScannerService.cs:147-149 | reading back the four bytes encoding a 32-bit value gives that value |
| Dib.ReadEncodeInt16 | ScannerService.cs:150 | reading back the two bytes encoding a 16-bit value gives that value |
| Dib.ParseHeader | ScannerService.cs:147-150 | the header exists exactly when the buffer holds the 16 bytes the four reads need |
| Dib.ParseEncodeHeader | ScannerService.cs:147-150 | a header encoded at offsets 0, 4, 8 and 14 parses back to the same biSize, biWidth, biHeight and biBitCount |
| Dib.Stride | ScannerService.cs:151 | the row length is a multiple of 4 that holds `width*bitCount` bits with fewer than 32 to spare |
| Dib.StrideIsLeast | ScannerService.cs:151 | no shorter 4-byte-aligned row holds the row's bits |
| Dib.StrideExample | ScannerService.cs:151 | 5 pixels of 24 bits give a 16-byte row |
| Dib.ColorTableSize | ScannerService.cs:152 | `(1 << bitCount) * 4` bytes (4 to 1024) for at most 8 bits per pixel, none above |
| Dib.FormatFor | ScannerService.cs:155-158 | 24, 32 and 8 bits get their own pixel format; every other bit count falls back to 1 bit per pixel |
| Dib.PlanFacts | ScannerService.cs:147-162 | an accepted plan reads the fields at 0/4/8/14, derives stride, colour table, pixel offset `headerSize + colorTableSize`, format and height `abs(biHeight)` from them, and fits the buffer; short buffers, `int.MinValue` heights and empty sizes are rejected, each with its own error |
| Dib.PlanAccepts | ScannerService.cs:147-178 | a header is accepted exactly when its bit count is non-negative, its width positive, its height non-zero and not `int.MinValue`, its sizes within 32 bits, its source rows no longer than the destination's, and its pixel rows within the buffer |
| Dib.PlanRefinesAsWritten | ScannerService.cs:166-178 | the corrected plan rejects only more buffers than the plan as written, and agrees with it on every bottom-up bitmap |
| Dib.NativeFormatsKeepStride | ScannerService.cs:151-158 | for 1, 8, 24 and 32 bits per pixel the destination row is exactly as long as the source row |
| Dib.CopyFlipped | ScannerService.cs:166-174 | bottom-up rows: destination row `k` is source row `absHeight-1-k` followed by zero padding |
| Dib.CopyBlock | ScannerService.cs:175-178 | top-down: the `stride*absHeight` source bytes are copied in order to the start of the raster, and the rest stays zero |
| Dib.TopDownRowsInOrder | ScannerService.cs:175-178 | in a top-down copy destination row `k` is source row `k` (no flip), followed by zero padding |
| Dib.DecodeDib | ScannerService.cs:147-178 | decoding fails with exactly the plan's error, and otherwise yields a raster of width × `abs(height)` in the chosen format whose rows are flipped or in order as the height's sign says |
| Dib.TopDownExample | ScannerService.cs:160-178 | a 100 × −50 top-down 24-bit bitmap decodes to 100 × 50, unflipped, 300-byte rows, pixels at offset 40 |
| Dib.TopDownOverrunAsWritten | ScannerService.cs:177 | as written, a 9 × −1 top-down bitmap of 4 bits per pixel is accepted although its 8-byte block exceeds the 4-byte destination |
| Dib.PlanCopiesWithinDestination | ScannerService.cs:166-178 | the corrected plan never copies more than the destination holds, per row or in one block |
| ScannerService.ScanFileName | ScannerService.cs:186 | the name is 24 characters: `scan_`, 8 date digits, `_`, 6 time digits, `.jpg` |
| ScannerService.ParseScanFileNameRoundTrip | ScannerService.cs:186 | the name records its zero-padded time stamp: reading it back gives that time stamp |
| ScannerService.ScanFileNameInjective | ScannerService.cs:186 | two scans get the same name exactly when they were saved in the same second |
| ScannerService.ScanFileNameIsPlain | ScannerService.cs:186 | a saved-image name holds only digits, lower-case letters, `_` and `.` |
| ScannerService.ListScanners | ScannerService.cs:78-89 | one entry per source, in order, with `Id = Name = source.Name` and `ProductName = ProductFamily` |
| ScannerService.FindSource | ScannerService.cs:230-234 | `FirstOrDefault` by name: the first source with that name, or none exactly when no source has it |
| ScannerService.ListedIdsAreFound | ScannerService.cs:78-89 | every listed id finds a source, at or before its own position |
| ScannerService.Fail | ScannerService.cs:204-210 | a failure records its exception, clears `Success` and sets the error message, and changes neither flag nor the lock count |
| ScannerService.OnDataTransferred | ScannerService.cs:133-211 | a zero handle changes nothing; otherwise the handle is locked and unlocked once; `dataReceived` is set exactly for a decoded and saved image, with `Success`, `FileName` and `ImagePath` under the output directory and the error message untouched; a decode failure and a save failure each record their exception, clear `Success` and set its message, leaving `FileName` and `ImagePath` as they were |
| ScannerService.OnTransferError | ScannerService.cs:213-220 | the error ends the wait and records a transfer failure carrying the exception's message (or the return code), leaving the file name, image path and lock counts unchanged |
| ScannerService.OnSourceDisabled | ScannerService.cs:222-226 | the disable ends the wait and changes nothing else |
| ScannerService.Conclude | ScannerService.cs:287-297 | a recorded exception wins even if data arrived; otherwise no data is the time-out; otherwise the captured result itself |
| ScannerService.HandleData | ScannerService.cs:137-211 | the handler's lock/decode/save/unlock sequence is the data-transferred specification |
| ScannerService.Pump | ScannerService.cs:262-263 | one `DoEvents` handles the pending notifications in order |
| ScannerService.SettleTransfer | ScannerService.cs:271-284 | the inner 2 s wait is the settling specification |
| ScannerService.AwaitTransfer | ScannerService.cs:260-285 | the outer wait loop is the wait specification |
| ScannerService.PerformScan | ScannerService.cs:124-320 | the transaction does what the transaction specification says: outcome, calls in order, ticks waited and final state |
| ScannerService.HandleKeeps | ScannerService.cs:133-226 | each handler keeps locks balanced, keeps a received image named by a time stamp under the output directory, keeps the exception in the message, and never clears a flag |
| ScannerService.WaitKeeps | ScannerService.cs:260-285 | the whole wait keeps those facts and never clears a flag |
| ScannerService.WaitBounds | ScannerService.cs:260-285 | the wait ends with the transfer over or at exactly 60 s, never later than 60 s plus the 2 s settle |
| ScannerService.QuietWaitRunsOut | ScannerService.cs:260-285 | without an error or a disable, a wait that receives no image runs the full 60 s and does not end the transfer |
| ScannerService.QuietSettleRunsOut | ScannerService.cs:271-284 | without an error or a disable, the settling wait runs its full 2 s |
| ScannerService.ScanSuccessIsConsistent | ScannerService.cs:185-319 | a successful scan reports `Success`, names a `scan_…jpg` image under the output directory, has unlocked every lock, and closed its source |
| ScannerService.ScanWaitIsBounded | ScannerService.cs:260-297 | an enabled scan waits until the transfer is over or 60 s, at most 62 s; no data means failure |
| ScannerService.QuietDeviceTimesOut | ScannerService.cs:260-297 | a device that never errors, disables or delivers an image fails after the full 60 s with the time-out |
| ScannerService.SingleTransferSettles | ScannerService.cs:265-284 | one good transfer without a following disable succeeds when the 2 s settle runs out, 41 ticks in, with that image's name and path |
| ScannerService.ScanTearsDown | ScannerService.cs:299-319 | every path ends by detaching the three handlers, followed only by closing the source when it was opened; the source is closed exactly when it was opened, and handlers are attached only to a found source |
| ScannerService.UnknownScannerFails | ScannerService.cs:230-234 | an unknown id fails with "Scanner '<id>' not found" before anything is opened, without waiting |
| ScannerService.OpenOrEnableRefusedFails | ScannerService.cs:241-252 | a refused open fails with "Failed to open scanner: <code>", without enabling or closing; a refused enable fails with "Failed to enable scanner: <code>" and the source is closed; neither waits |
| ScannerService.Reported | ScannerService.cs:102-122 | the caller receives a result exactly when the transaction succeeded, and it is the transaction's own result; otherwise it receives the exception's message |
| ScannerService.Service.Initialize | ScannerService.cs:25-65 | an initialised service returns at once; otherwise one new message-loop thread is started and the call succeeds exactly when it is ready within the 5 s of polling, else fails with "Failed to initialize scanner service" |
| ScannerService.Service.GetScanners | ScannerService.cs:67-100 | after initialising, the scanner list is the projection of the sources, and an enumeration error surfaces as the wrapped "One or more errors occurred." |
| ScannerService.Service.ScanAsync | ScannerService.cs:102-122 | after initialising, the answer is the reported outcome of the scan transaction |
| ScannerWebApi.Route | ScannerWebAPI.cs:116-143 | `OPTIONS` goes first for any path; the method matches exactly and the lower-cased path selects the list, scan and image endpoints; anything else is not found |
| ScannerWebApi.RouteIgnoresCase | ScannerWebAPI.cs:124 | routing does not depend on the case of the path |
| ScannerWebApi.ListResponse | ScannerWebAPI.cs:161-186 | 200 exactly when the list was obtained, and then the body is that list; an exception gives 500 with `success = false` and its message |
| ScannerWebApi.ScanResponse | ScannerWebAPI.cs:188-251 | an unparsable body gives 500; a null body or missing/empty id gives 400 "ScannerId is required"; 200 only for a successful scan, with its path, name and `baseUrl + "api/images/" + FileName`; a scan that throws gives 500 with the exception's message, and a failed scan gives 500 with the scan's own error message |
| ScannerWebApi.ImageResponse | ScannerWebAPI.cs:253-281 | an illegal path character throws; a missing file gives 404 "Image not found"; 200 exactly when the file exists and can be read, and then the body is the file's bytes as `image/jpeg`; a read error gives 500 with its message |
| ScannerWebApi.Respond | ScannerWebAPI.cs:108-158 | every reply carries the CORS headers; preflight gets 200 with no body; each routed request gets its endpoint's reply, and an exception escaping the image endpoint becomes 500 with its message; unrouted requests get 404 "Endpoint not found"; statuses are 200, 400, 404 or 500 |
| ScannerWebApi.MissingScannerIdSkipsScan | ScannerWebAPI.cs:203-212 | without a usable scanner id the reply is 400 whatever the scanner would do, so the scan is not consulted |
| ScannerWebApi.ImageStaysInOutputDirectory | ScannerWebAPI.cs:255-256 | whatever the request path, the image looked up lies directly in the output directory |
| ScannerWebApi.ScanReplyOfResult | ScannerWebAPI.cs:216-239 | with a scanner id, the reply is 200 exactly for a successful scan, and then carries its image URL |
| ScannerWebApi.ScanUrlFetchesSavedImage | ScannerWebAPI.cs:216-256 | end to end: the scan endpoint answers 200 exactly when the transaction succeeded, and the returned URL routes to the image endpoint and resolves to the saved file |
| ScannerWebApi.ImagePathOfPlainName | ScannerWebAPI.cs:124-137 | `/api/images/<saved name>` routes to the image endpoint, has no illegal characters, and has the saved name as its file name |
| ScannerWebApi.DefaultOutputPath | ScannerWebAPI.cs:21 | without an output path the directory is `Scans` under the documents folder |
| ScannerWebApi.Response.AddHeader | ScannerWebAPI.cs:112-114 | a header is appended and nothing else changes |
| ScannerWebApi.Server.constructor | ScannerWebAPI.cs:18-23 | the base URL is kept and the output directory defaults as stated above |
| ScannerWebApi.Server.HandleRequest | ScannerWebAPI.cs:108-158 | the response filled in step by step is exactly the reply the routing specification gives |
| ScannerWebApi.Server.HandleGetScanners | ScannerWebAPI.cs:161-186 | the response sent is the list reply |
| ScannerWebApi.Server.HandleScan | ScannerWebAPI.cs:188-251 | the response sent is the scan reply |
| ScannerWebApi.Server.HandleGetImage | ScannerWebAPI.cs:253-281 | the response sent is the image reply, or the path exception escapes with the response untouched |
| OcrService.PreprocessImage | OCRService.cs:82-117 | the engine reads the preprocessed copy, or the original path when preprocessing fails |
| OcrService.MissingLanguage | OCRService.cs:28-36 | the first code whose trimmed `.traineddata` file is missing, or none exactly when every code has its file |
| OcrService.CheckLanguages | OCRService.cs:28-36 | the `foreach` loop stops at that first missing code |
| OcrService.OcrWith | OCRService.cs:12-80 | success exactly with text and no error; a missing tessdata folder fails with its message; the first split code whose data file is missing fails with the message naming its file and code; once the folder and every file are present, the engine's text gives success with the cleanup and the engine's exception message becomes the error; success only when the folder and every split code's file exist and the engine read the preprocessed image; a failure deletes nothing |
| OcrService.PerformOcr | OCRService.cs:12-80 | the method is the OCR specification with the corrected cleanup, so every failure message and the success case stated for `OcrWith` hold for it |
| OcrService.Available | OCRService.cs:129-139 | the candidates kept are exactly those whose data file exists, in candidate order |
| OcrService.AvailableLanguages | OCRService.cs:129-139 | the collecting loop yields the available candidates |
| OcrService.AvailableAppend | OCRService.cs:129-139 | checking one more candidate appends it, at the end, exactly when its data file is present, so the list keeps candidate order |
| OcrService.PerformMultiLanguageOcr | OCRService.cs:119-157 | the available candidates joined by `+`, or English alone when none is present |
| OcrService.SelectionIsOneOfThree | OCRService.cs:129-146 | the language string requested is `eng`, `urd` or `eng+urd` |
| OcrService.SelectionPassesLanguageCheck | OCRService.cs:129-149 | the selected languages always pass the language check: the call succeeds exactly when the folder exists and the engine reads the image |
| OcrService.NoLanguageDataFails | OCRService.cs:141-156 | with no candidate present the call falls back to English, which then fails its language check |
| OcrService.CleanupDeletesOriginalAsWritten | OCRService.cs:39-69 | as written, a failed preprocessing followed by a successful read deletes the original image |
| OcrService.CleanupSparesOriginal | OCRService.cs:39-69 | the corrected cleanup never deletes the original image and still deletes the preprocessed copy |

## Left out

- The dedicated STA thread, the hidden form, `Application.Run`, the `SynchronizationContext.Post` marshalling and the `TaskCompletionSource` hand-off. These are concurrency. `Initialize` is a flag with a count of threads started, and the readiness of the thread is a parameter.
- A session that becomes ready after the 5 s timeout. The flag set late by the first thread is not modelled.
- The NTwain session itself, including `ShowUI` dialogs and capability negotiation. A `Device` value gives the enumeration, the return codes and the notification schedule.
- `GlobalLock`, `GlobalUnlock` and the raw memory reads. The buffer is a byte sequence and the lock calls are counted. `GlobalLock` returning null is not modelled.
- GDI+ `Bitmap`, `LockBits` and JPEG encoding with `Save`. Each transfer notification carries the error saving would raise, and the raster is the decoded pixels.
- `DateTime.Now` and `Directory.CreateDirectory` before saving. The time stamp is a `Clock` value carried by the transfer notification.
- The `Thread.Sleep` durations, the 5 s progress log, the 500 ms reset delay and the extra `DoEvents` in the teardown. Time is counted in ticks, and logging and the delay affect no outcome.
- An exception thrown by `Unsubscribe` or `Close` in the teardown. Both are swallowed by the source and so never change the outcome; the model records the calls.
- A headless enable mode and a directory-polling fallback acquisition with OCR of the detected file. The scanner service contains neither. Its only `Enable` uses the device's own dialog (ScannerService.cs:250), and OCR is never called from the scan path.
- A zero native handle. It is silently ignored (ScannerService.cs:139) rather than raised as a decode error, and the model follows the code.
- Dib.DecodeDib: the buffer-too-short, row-size-overflow, source-size-overflow and truncated-pixel checks are guards the source does not make. It reads past the buffer or wraps its 32-bit arithmetic instead. They are reported with one generic message.
- Dib.DecodeDib: a destination size `dstStride × abs(height)` past 32 bits is also reported as `LayoutOverflow` with the generic message. In the source, `new Bitmap` (ScannerService.cs:161) throws "Parameter is not valid." there.
- Dib.DecodeDib: a bottom-up header whose source size passes 32 bits and whose source rows are longer than the destination's is reported as `LayoutOverflow`. The source throws the `MemoryCopy` range error at the first row.
- Dib.DecodeDib: a negative `biBitCount` is rejected as malformed. The source computes a stride from it with a division that truncates toward zero: 0 when width × |count| ≤ 62, which then copies nothing and saves a blank image, and a negative stride otherwise. The colour-table shift `1 << bitCount` is masked to five bits. Counts above 32 are not guarded and follow the source: bottom-up they fail with the `MemoryCopy` range error, top-down they reach the overrun under "## Findings".
- Dib.DecodeDib, and through it ScannerService.OnDataTransferred, ScannerService.HandleData and ScannerService.PerformScan, use the corrected `Plan`, which checks the top-down copy too. The header (biSize 40, biWidth 9, biHeight −1, biBitCount 4) therefore ends as `DecodeFailed(DestinationTooSmall)`, where the source overruns the raster and saves the image (ScannerService.cs:175-196). The unchecked plan is `Dib.PlanAsWritten`.
- OcrService.PerformOcr and OcrService.PerformMultiLanguageOcr use the corrected cleanup, which never deletes the original image. The cleanup as written is `OcrService.CleanupDeletesOriginalAsWritten`.
- `ToLower`, `Trim` and `StartsWith` are culture-free. `ToLower` folds ASCII letters only, `Trim` removes the Latin-1 white-space characters only, and `StartsWith` compares ordinally where .NET's `string.StartsWith(string)` (ScannerWebAPI.cs:134) uses the current culture. For an escaped absolute path of ASCII characters the two agree.
- Null strings. A null language string or output path is not modelled; only the null scan-request body and the missing scanner id are.
- `Path.Combine` and `Path.GetFileName` raise `ArgumentException` for illegal characters. This is modelled for the request path only, not for the output directory and not for language codes. A language code containing `|` makes the `Path.Combine` at OCRService.cs:30 throw "Illegal characters in path.", while the model reports that the language file was not found.
- `HttpListener`: `StartAsync`, `Stop`, the accept loop, reading the request stream, JSON (de)serialisation and writing bytes. The deserialised body is an input and a reply is its status, headers, content type and body.
- `Directory.CreateDirectory` in the server constructor. It has no effect on any reply.
- The Tesseract engine, `Pix` loading, the character whitelist, the bicubic redraw and the floating-point `Confidence`. The engine is a function from language string and image path to text or an exception message.
- The console output of every component.
- ScannerService.ScanTearsDown is stated on the calls function the transaction specification uses rather than on the transaction record itself.
- Program.cs and SimpleHttpTest.cs are not part of this model.

## Findings

| source | as written | input that shows it | evidently intended | confidence | as-written member | corrected member |
|---|---|---|---|---|---|---|
| ScannerService.cs:177 | the top-down bulk `MemoryCopy` gives `stride * absHeight` as the destination size, so the copy is never checked against the destination raster, whose rows can be narrower (4 and 16 bits per pixel fall back to a 1-bit format) | header biSize 40, biWidth 9, biHeight −1, biBitCount 4: source rows are 8 bytes, destination rows 4, so 8 bytes are written into a 4-byte raster | check the copy against the destination's size, as the bottom-up branch does per row | not executed | Dib.TopDownOverrunAsWritten | Dib.PlanCopiesWithinDestination |
| OCRService.cs:69 | the cleanup deletes the path `PreprocessImage` returned, which is the original image when preprocessing failed (OCRService.cs:112-116) | a tessdata folder with `eng.traineddata`, preprocessing that throws, an engine that reads the image: the scanned image itself is deleted | delete only the temporary preprocessed copy | not executed | OcrService.CleanupDeletesOriginalAsWritten | OcrService.CleanupSparesOriginal |
