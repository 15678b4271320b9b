/**
 * The scanner service: the TWAIN scan transaction (look the source up, open
 * it, enable it with its own dialog, pump the message loop until the transfer
 * is over, tear down), the handlers of its three notifications, the name of
 * the saved image, the scanner list and the one-time initialisation.
 */
module ScannerService {
  import opened Wrappers
  import Dib
  import Paths

  // ---------------------------------------------------------------------------
  // The name of the saved image: scan_yyyyMMdd_HHmmss.jpg

  datatype Timestamp = Timestamp(year: nat, month: nat, day: nat, hour: nat, minute: nat, second: nat)

  predicate ValidTimestamp(t: Timestamp)
  {
    1 <= t.year <= 9999 && 1 <= t.month <= 12 && 1 <= t.day <= 31
    && t.hour < 24 && t.minute < 60 && t.second < 60
  }

  /** A clock reading, as `DateTime.Now` gives it. */
  type Clock = t: Timestamp | ValidTimestamp(t) witness Timestamp(1, 1, 1, 0, 0, 0)

  function Pow10(n: nat): (p: nat)
    ensures p >= 1
  {
    if n == 0 then 1 else 10 * Pow10(n - 1)
  }

  function DigitChar(d: nat): (c: char)
    requires d < 10
    ensures '0' <= c <= '9'
  {
    ('0' as int + d) as char
  }

  /** `n` written in decimal with exactly `width` digits, zero-padded on the left. */
  function Digits(n: nat, width: nat): (s: string)
    requires n < Pow10(width)
    ensures |s| == width
    ensures forall i :: 0 <= i < |s| ==> '0' <= s[i] <= '9'
  {
    if width == 0 then "" else Digits(n / 10, width - 1) + [DigitChar(n % 10)]
  }

  /** The value of a string of decimal digits; `None` if any character is not a digit. */
  function DecimalValue(s: string): (v: Option<nat>)
    ensures v.Some? ==> v.value < Pow10(|s|)
  {
    if s == [] then Some(0)
    else if !('0' <= s[|s| - 1] <= '9') then None
    else match DecimalValue(s[..|s| - 1])
      case None => None
      case Some(high) => Some(10 * high + (s[|s| - 1] as int - '0' as int))
  }

  lemma {:induction false} DecimalValueOfDigits(n: nat, width: nat)
    requires n < Pow10(width)
    ensures DecimalValue(Digits(n, width)) == Some(n)
  {
    if width > 0 {
      var s := Digits(n, width);
      assert s[..|s| - 1] == Digits(n / 10, width - 1);
      DecimalValueOfDigits(n / 10, width - 1);
    }
  }

  function ScanFileName(t: Clock): (name: string)
    ensures |name| == 24
    ensures name[..5] == "scan_" && name[13] == '_' && name[20..] == ".jpg"
  {
    "scan_" + Digits(t.year, 4) + Digits(t.month, 2) + Digits(t.day, 2)
      + "_" + Digits(t.hour, 2) + Digits(t.minute, 2) + Digits(t.second, 2) + ".jpg"
  }

  /** Reads a time stamp back out of a name of the saved-image form. */
  function ParseScanFileName(name: string): (t: Option<Clock>)
  {
    if |name| != 24 || name[..5] != "scan_" || name[13] != '_' || name[20..] != ".jpg" then None
    else
      match (DecimalValue(name[5..9]), DecimalValue(name[9..11]), DecimalValue(name[11..13]),
             DecimalValue(name[14..16]), DecimalValue(name[16..18]), DecimalValue(name[18..20]))
      case (Some(y), Some(mo), Some(d), Some(h), Some(mi), Some(s)) =>
        var t := Timestamp(y, mo, d, h, mi, s);
        if ValidTimestamp(t) then Some(t) else None
      case _ => None
  }

  /** The characters a saved-image name is made of. */
  predicate IsPlainNameChar(c: char)
  {
    ('0' <= c <= '9') || ('a' <= c <= 'z') || c == '_' || c == '.'
  }

  /** A saved-image name has only digits, lower-case letters, `_` and `.` in it. */
  lemma {:induction false} ScanFileNameIsPlain(t: Clock)
    ensures forall j :: 0 <= j < |ScanFileName(t)| ==> IsPlainNameChar(ScanFileName(t)[j])
  {
    var name := ScanFileName(t);
    forall j | 0 <= j < |name|
      ensures IsPlainNameChar(name[j])
    {
      if 5 <= j < 13 && j != 13 {
        assert name[5..13] == Digits(t.year, 4) + Digits(t.month, 2) + Digits(t.day, 2);
        assert name[j] == name[5..13][j - 5];
      } else if 14 <= j < 20 {
        assert name[14..20] == Digits(t.hour, 2) + Digits(t.minute, 2) + Digits(t.second, 2);
        assert name[j] == name[14..20][j - 14];
      } else if j < 5 {
        assert name[j] == "scan_"[j];
      } else if j >= 20 {
        assert name[j] == name[20..][j - 20];
      }
    }
  }

  predicate IsScanFileName(name: string)
  {
    ParseScanFileName(name).Some?
  }

  /** The name records the time stamp it was made from: reading it back gives that time stamp. */
  lemma {:induction false} ParseScanFileNameRoundTrip(t: Clock)
    ensures ParseScanFileName(ScanFileName(t)) == Some(t)
  {
    var name := ScanFileName(t);
    assert name[5..9] == Digits(t.year, 4);
    assert name[9..11] == Digits(t.month, 2);
    assert name[11..13] == Digits(t.day, 2);
    assert name[14..16] == Digits(t.hour, 2);
    assert name[16..18] == Digits(t.minute, 2);
    assert name[18..20] == Digits(t.second, 2);
    DecimalValueOfDigits(t.year, 4);
    DecimalValueOfDigits(t.month, 2);
    DecimalValueOfDigits(t.day, 2);
    DecimalValueOfDigits(t.hour, 2);
    DecimalValueOfDigits(t.minute, 2);
    DecimalValueOfDigits(t.second, 2);
  }

  /** Two scans made in the same second get the same name, and only they do. */
  lemma ScanFileNameInjective(t1: Clock, t2: Clock)
    ensures ScanFileName(t1) == ScanFileName(t2) <==> t1 == t2
  {
    ParseScanFileNameRoundTrip(t1);
    ParseScanFileNameRoundTrip(t2);
  }

  // ---------------------------------------------------------------------------
  // Data sources and the scanner list

  /** A TWAIN data source as the session enumerates it. */
  datatype DataSource = DataSource(name: string, manufacturer: string, productFamily: string)

  datatype ScannerInfo = ScannerInfo(id: string, name: string, manufacturer: string, productName: string)

  /** The entry the scanner list shows for one source: the source is known by its name. */
  function Describe(s: DataSource): ScannerInfo
  {
    ScannerInfo(s.name, s.name, s.manufacturer, s.productFamily)
  }

  /** Builds the scanner list, one entry per source, in enumeration order. */
  method ListScanners(sources: seq<DataSource>) returns (scanners: seq<ScannerInfo>)
    ensures |scanners| == |sources|
    ensures forall i :: 0 <= i < |sources| ==>
      && scanners[i].id == sources[i].name && scanners[i].name == sources[i].name
      && scanners[i].manufacturer == sources[i].manufacturer
      && scanners[i].productName == sources[i].productFamily
  {
    scanners := [];
    for i := 0 to |sources|
      invariant |scanners| == i
      invariant forall j :: 0 <= j < i ==> scanners[j] == Describe(sources[j])
    {
      scanners := scanners + [Describe(sources[i])];
    }
  }

  /** The index of the first source whose name is `id`, as `FirstOrDefault` picks it. */
  function FindSource(sources: seq<DataSource>, id: string): (r: Option<nat>)
    ensures r.Some? ==>
      && r.value < |sources| && sources[r.value].name == id
      && forall j :: 0 <= j < r.value ==> sources[j].name != id
    ensures r.None? ==> forall j :: 0 <= j < |sources| ==> sources[j].name != id
  {
    if sources == [] then None
    else if sources[0].name == id then Some(0)
    else match FindSource(sources[1..], id)
      case None => None
      case Some(k) => Some(k + 1)
  }

  /** Every id the scanner list shows can be scanned with: it finds a source of that name. */
  lemma ListedIdsAreFound(sources: seq<DataSource>, i: nat)
    requires i < |sources|
    ensures FindSource(sources, Describe(sources[i]).id).Some?
    ensures FindSource(sources, Describe(sources[i]).id).value <= i
  {
  }

  // ---------------------------------------------------------------------------
  // What the TWAIN session reports

  /** The TWAIN return codes; `Name` is how they print in messages. */
  datatype ReturnCode =
    | Success | Failure | CheckStatus | Cancel | DSEvent | NotDSEvent | XferDone
    | EndOfList | InfoNotSupported | DataNotAvailable | Busy | ScannerLocked

  function Name(rc: ReturnCode): string
  {
    match rc
    case Success => "Success"
    case Failure => "Failure"
    case CheckStatus => "CheckStatus"
    case Cancel => "Cancel"
    case DSEvent => "DSEvent"
    case NotDSEvent => "NotDSEvent"
    case XferDone => "XferDone"
    case EndOfList => "EndOfList"
    case InfoNotSupported => "InfoNotSupported"
    case DataNotAvailable => "DataNotAvailable"
    case Busy => "Busy"
    case ScannerLocked => "ScannerLocked"
  }

  /**
   * One notification delivered while the message loop is pumped. A transfer
   * carries the native handle (0 is the null handle), the DIB behind it, the
   * clock reading when the image is saved, and the error the file system
   * raises while saving it, if any.
   */
  datatype Notification =
    | DataTransferred(nativeData: nat, dib: seq<Dib.byte>, now: Clock, saveError: Option<string>)
    | TransferError(code: ReturnCode, exception: Option<string>)
    | SourceDisabled

  /** Why a scan fails; `Message` is the text of the exception it raises. */
  datatype ScanFailure =
    | ListFailed(message: string)
    | SourceNotFound(id: string)
    | OpenFailed(code: ReturnCode)
    | EnableFailed(code: ReturnCode)
    | TransferFailed(message: string)
    | DecodeFailed(error: Dib.DecodeError)
    | SaveFailed(message: string)
    | TimedOut

  function DecodeMessage(e: Dib.DecodeError): string
  {
    match e
    case HeightOverflow => "Negating the minimum value of a twos complement number is invalid."
    case InvalidSize => "Parameter is not valid."
    case DestinationTooSmall => "Specified argument was out of the range of valid values.\r\nParameter name: sourceBytesToCopy"
    case _ => "The transferred bitmap is malformed."
  }

  function Message(f: ScanFailure): string
  {
    match f
    case ListFailed(m) => m
    case SourceNotFound(id) => "Scanner '" + id + "' not found"
    case OpenFailed(rc) => "Failed to open scanner: " + Name(rc)
    case EnableFailed(rc) => "Failed to enable scanner: " + Name(rc)
    case TransferFailed(m) => m
    case DecodeFailed(e) => DecodeMessage(e)
    case SaveFailed(m) => m
    case TimedOut => "Scan was cancelled or timed out."
  }

  datatype ScanResult = ScanResult(
    success: bool,
    imagePath: Option<string>,
    fileName: Option<string>,
    errorMessage: Option<string>)

  // ---------------------------------------------------------------------------
  // The state the three handlers share with the transaction

  /**
   * The variables the handlers capture. `locks` and `unlocks` count the
   * `GlobalLock` and `GlobalUnlock` calls on transferred handles.
   */
  datatype Captured = Captured(
    scanComplete: bool,
    dataReceived: bool,
    scanException: Option<ScanFailure>,
    result: ScanResult,
    locks: nat,
    unlocks: nat)

  const Fresh := Captured(false, false, None, ScanResult(false, None, None, None), 0, 0)

  /** What the handlers' `catch` (and the transfer-error handler) records for a failure. */
  function Fail(c: Captured, f: ScanFailure): (d: Captured)
    ensures d.scanException == Some(f) && !d.result.success && d.result.errorMessage == Some(Message(f))
    ensures d.scanComplete == c.scanComplete && d.dataReceived == c.dataReceived
    ensures d.result.imagePath == c.result.imagePath && d.result.fileName == c.result.fileName
    ensures d.locks == c.locks && d.unlocks == c.unlocks
  {
    c.(scanException := Some(f), result := c.result.(success := false, errorMessage := Some(Message(f))))
  }

  /**
   * The data-transferred handler: a null handle is ignored; otherwise the
   * handle is locked, the DIB decoded and saved under a time-stamped name in
   * the output directory, and the handle unlocked whatever happens.
   */
  function OnDataTransferred(c: Captured, n: Notification, outputPath: string): (d: Captured)
    requires n.DataTransferred?
    ensures n.nativeData == 0 ==> d == c
    ensures n.nativeData != 0 ==> d.locks == c.locks + 1 && d.unlocks == c.unlocks + 1
    ensures d.scanComplete == c.scanComplete
    ensures d.dataReceived <==>
      c.dataReceived || (n.nativeData != 0 && Dib.Plan(n.dib).Ok? && n.saveError.None?)
    ensures n.nativeData != 0 && Dib.Plan(n.dib).Err? ==>
      && d.scanException == Some(DecodeFailed(Dib.Plan(n.dib).error))
      && !d.result.success && d.result.errorMessage == Some(DecodeMessage(Dib.Plan(n.dib).error))
    ensures n.nativeData != 0 && Dib.Plan(n.dib).Ok? && n.saveError.Some? ==>
      && d.scanException == Some(SaveFailed(n.saveError.value))
      && !d.result.success && d.result.errorMessage == Some(n.saveError.value)
    ensures n.nativeData != 0 && !(Dib.Plan(n.dib).Ok? && n.saveError.None?) ==>
      d.result.fileName == c.result.fileName && d.result.imagePath == c.result.imagePath
    ensures n.nativeData != 0 && Dib.Plan(n.dib).Ok? && n.saveError.None? ==>
      && d.scanException == c.scanException && d.result.success
      && d.result.errorMessage == c.result.errorMessage
      && d.result.fileName == Some(ScanFileName(n.now))
      && d.result.imagePath == Some(Paths.Combine(outputPath, ScanFileName(n.now)))
  {
    if n.nativeData == 0 then c
    else
      var locked := c.(locks := c.locks + 1, unlocks := c.unlocks + 1);
      match Dib.Plan(n.dib)
      case Err(e) => Fail(locked, DecodeFailed(e))
      case Ok(_) =>
        if n.saveError.Some? then Fail(locked, SaveFailed(n.saveError.value))
        else
          var name := ScanFileName(n.now);
          locked.(result := locked.result.(success := true, imagePath := Some(Paths.Combine(outputPath, name)),
                                          fileName := Some(name)),
                  dataReceived := true)
  }

  /** The transfer-error handler: records the failure and ends the wait. */
  function OnTransferError(c: Captured, code: ReturnCode, exception: Option<string>): (d: Captured)
    ensures d.scanComplete && d.dataReceived == c.dataReceived
    ensures d.scanException == Some(TransferFailed(if exception.Some? then exception.value else Name(code)))
    ensures !d.result.success && d.result.errorMessage == Some(Message(d.scanException.value))
    ensures d.result.imagePath == c.result.imagePath && d.result.fileName == c.result.fileName
    ensures d.locks == c.locks && d.unlocks == c.unlocks
  {
    var message := if exception.Some? then exception.value else Name(code);
    Fail(c, TransferFailed(message)).(scanComplete := true)
  }

  /** The source-disabled handler: ends the wait and changes nothing else. */
  function OnSourceDisabled(c: Captured): (d: Captured)
    ensures d.scanComplete && d == c.(scanComplete := true)
  {
    c.(scanComplete := true)
  }

  function Handle(c: Captured, n: Notification, outputPath: string): Captured
  {
    match n
    case DataTransferred(_, _, _, _) => OnDataTransferred(c, n, outputPath)
    case TransferError(code, exception) => OnTransferError(c, code, exception)
    case SourceDisabled => OnSourceDisabled(c)
  }

  /** The notifications one pump of the message loop delivers, handled in order. */
  function Deliver(c: Captured, notes: seq<Notification>, outputPath: string): Captured
    decreases |notes|
  {
    if notes == [] then c else Deliver(Handle(c, notes[0], outputPath), notes[1..], outputPath)
  }

  // ---------------------------------------------------------------------------
  // The wait: one tick is one `DoEvents` plus a 50 ms sleep

  const TickMillis := 50
  /** The 60 s budget of the outer wait, in ticks. */
  const WaitBudgetTicks := 60000 / TickMillis
  /** The 2 s the inner wait gives a received transfer to be followed by a disable, in ticks. */
  const SettleTicks := 2000 / TickMillis

  /** The notifications delivered at tick `k`; none once the schedule is over. */
  function At(schedule: seq<seq<Notification>>, k: nat): seq<Notification>
  {
    if k < |schedule| then schedule[k] else []
  }

  /** The inner wait that started at tick `start`, now at tick `k`: the tick it stops at and the state then. */
  function Settle(schedule: seq<seq<Notification>>, start: nat, k: nat, c: Captured, outputPath: string): (nat, Captured)
    requires start <= k <= start + SettleTicks
    decreases start + SettleTicks - k
  {
    if k - start >= SettleTicks || c.scanComplete then (k, c)
    else Settle(schedule, start, k + 1, Deliver(c, At(schedule, k), outputPath), outputPath)
  }

  /** The outer wait, now at tick `k`: the tick it stops at and the state then. */
  function Wait(schedule: seq<seq<Notification>>, k: nat, c: Captured, outputPath: string): (nat, Captured)
    decreases if c.scanComplete || k > WaitBudgetTicks then 0 else WaitBudgetTicks + 1 - k
  {
    if c.scanComplete || k >= WaitBudgetTicks then (k, c)
    else
      var c1 := Deliver(c, At(schedule, k), outputPath);
      if c1.dataReceived && !c1.scanComplete then
        var settled := Settle(schedule, k + 1, k + 1, c1, outputPath);
        (settled.0, settled.1.(scanComplete := true))
      else Wait(schedule, k + 1, c1, outputPath)
  }

  /** How the transaction ends once the wait is over: a recorded exception wins over received data. */
  function Conclude(c: Captured): (r: Result<ScanResult, ScanFailure>)
    ensures c.scanException.Some? ==> r == Err(c.scanException.value)
    ensures c.scanException.None? && !c.dataReceived ==> r == Err(TimedOut)
    ensures r.Ok? <==> c.scanException.None? && c.dataReceived
    ensures r.Ok? ==> r.value == c.result
  {
    if c.scanException.Some? then Err(c.scanException.value)
    else if !c.dataReceived then Err(TimedOut)
    else Ok(c.result)
  }

  // ---------------------------------------------------------------------------
  // The transaction

  datatype Handler = DataHandler | ErrorHandler | DisabledHandler

  /** The calls the transaction makes on the session and the source, in order. */
  datatype Call = ListSources | Subscribe(handler: Handler) | Unsubscribe(handler: Handler)
                | OpenSource | EnableSource | CloseSource

  /**
   * The session and the device as the transaction meets them: the enumerated
   * sources (or the error enumerating raises), what `Open` and `Enable`
   * return, and the notifications each tick of the wait delivers.
   */
  datatype Device = Device(
    sources: Result<seq<DataSource>, string>,
    openResult: ReturnCode,
    enableResult: ReturnCode,
    schedule: seq<seq<Notification>>)

  datatype Transaction = Transaction(
    outcome: Result<ScanResult, ScanFailure>,
    calls: seq<Call>,
    ticks: nat,
    final: Captured)

  const Subscriptions := [Subscribe(DataHandler), Subscribe(ErrorHandler), Subscribe(DisabledHandler)]

  /** The `finally` block: the handlers are always detached; the source is closed only if it was opened. */
  function Teardown(sourceOpened: bool): seq<Call>
  {
    [Unsubscribe(DataHandler), Unsubscribe(ErrorHandler), Unsubscribe(DisabledHandler)]
      + (if sourceOpened then [CloseSource] else [])
  }

  /**
   * The calls a transaction makes: the sources are listed; a found source
   * gets the three handlers, is opened and, if that succeeds, enabled; the
   * teardown follows in every case.
   */
  function Calls(dev: Device, scannerId: string): seq<Call>
  {
    if dev.sources.Err? || FindSource(dev.sources.value, scannerId).None? then [ListSources] + Teardown(false)
    else if dev.openResult != Success then [ListSources] + Subscriptions + [OpenSource] + Teardown(false)
    else [ListSources] + Subscriptions + [OpenSource, EnableSource] + Teardown(true)
  }

  /** What one scan transaction does, step by step. */
  function ScanSpec(dev: Device, scannerId: string, outputPath: string): Transaction
  {
    var calls := Calls(dev, scannerId);
    match dev.sources
    case Err(m) => Transaction(Err(ListFailed(m)), calls, 0, Fresh)
    case Ok(sources) =>
      if FindSource(sources, scannerId).None? then Transaction(Err(SourceNotFound(scannerId)), calls, 0, Fresh)
      else if dev.openResult != Success then Transaction(Err(OpenFailed(dev.openResult)), calls, 0, Fresh)
      else if dev.enableResult != Success then Transaction(Err(EnableFailed(dev.enableResult)), calls, 0, Fresh)
      else
        var waited := Wait(dev.schedule, 0, Fresh, outputPath);
        Transaction(Conclude(waited.1), calls, waited.0, waited.1)
  }

  /** The data-transferred handler as the message loop runs it. */
  method HandleData(c: Captured, n: Notification, outputPath: string) returns (d: Captured)
    requires n.DataTransferred?
    ensures d == OnDataTransferred(c, n, outputPath)
  {
    d := c;
    if n.nativeData != 0 {
      d := d.(locks := d.locks + 1);
      var decoded := Dib.DecodeDib(n.dib);
      if decoded.Err? {
        d := d.(unlocks := d.unlocks + 1);
        d := Fail(d, DecodeFailed(decoded.error));
      } else if n.saveError.Some? {
        d := d.(unlocks := d.unlocks + 1);
        d := Fail(d, SaveFailed(n.saveError.value));
      } else {
        var name := ScanFileName(n.now);
        d := d.(result := d.result.(success := true, imagePath := Some(Paths.Combine(outputPath, name)),
                                    fileName := Some(name)),
                dataReceived := true);
        d := d.(unlocks := d.unlocks + 1);
      }
    }
  }

  /** One `DoEvents`: the pending notifications go to their handlers in order. */
  method Pump(c: Captured, notes: seq<Notification>, outputPath: string) returns (d: Captured)
    ensures d == Deliver(c, notes, outputPath)
  {
    d := c;
    var i := 0;
    while i < |notes|
      invariant 0 <= i <= |notes|
      invariant Deliver(d, notes[i..], outputPath) == Deliver(c, notes, outputPath)
    {
      assert notes[i..][1..] == notes[i + 1..];
      var n := notes[i];
      match n {
        case DataTransferred(_, _, _, _) =>
          d := HandleData(d, n, outputPath);
        case TransferError(code, exception) =>
          d := OnTransferError(d, code, exception);
        case SourceDisabled =>
          d := OnSourceDisabled(d);
      }
      i := i + 1;
    }
  }

  /** The settling wait: pump for up to 2 s more, then consider the transfer over. */
  method SettleTransfer(schedule: seq<seq<Notification>>, start: nat, received: Captured, outputPath: string)
    returns (ticks: nat, c: Captured)
    ensures (ticks, c) == Settle(schedule, start, start, received, outputPath)
  {
    ticks, c := start, received;
    while ticks - start < SettleTicks && !c.scanComplete
      invariant start <= ticks <= start + SettleTicks
      invariant Settle(schedule, start, ticks, c, outputPath) == Settle(schedule, start, start, received, outputPath)
      decreases start + SettleTicks - ticks
    {
      c := Pump(c, At(schedule, ticks), outputPath);
      ticks := ticks + 1;
    }
  }

  /** The outer wait: pump until the transfer is over or 60 s have passed. */
  method AwaitTransfer(schedule: seq<seq<Notification>>, outputPath: string) returns (ticks: nat, c: Captured)
    ensures (ticks, c) == Wait(schedule, 0, Fresh, outputPath)
  {
    ticks, c := 0, Fresh;
    while !c.scanComplete && ticks < WaitBudgetTicks
      invariant !c.scanComplete ==> ticks <= WaitBudgetTicks
      invariant Wait(schedule, ticks, c, outputPath) == Wait(schedule, 0, Fresh, outputPath)
      decreases if c.scanComplete || ticks > WaitBudgetTicks then 0 else WaitBudgetTicks + 1 - ticks
    {
      c := Pump(c, At(schedule, ticks), outputPath);
      ticks := ticks + 1;
      if c.dataReceived && !c.scanComplete {
        ticks, c := SettleTransfer(schedule, ticks, c, outputPath);
        if !c.scanComplete {
          c := c.(scanComplete := true);
        }
      }
    }
  }

  /**
   * The scan transaction: find the source, attach the handlers, open and
   * enable the source, pump until the transfer is over or the budget is
   * spent, settle the outcome, and tear down.
   */
  method PerformScan(dev: Device, scannerId: string, outputPath: string) returns (t: Transaction)
    ensures t == ScanSpec(dev, scannerId, outputPath)
  {
    var c := Fresh;
    var calls := [ListSources];
    var ticks := 0;
    var found := false;
    var sourceOpened := false;
    var outcome: Result<ScanResult, ScanFailure>;
    if dev.sources.Err? {
      outcome := Err(ListFailed(dev.sources.error));
    } else if FindSource(dev.sources.value, scannerId).None? {
      outcome := Err(SourceNotFound(scannerId));
    } else {
      found := true;
      calls := calls + Subscriptions + [OpenSource];
      if dev.openResult != Success {
        outcome := Err(OpenFailed(dev.openResult));
      } else {
        sourceOpened := true;
        calls := calls + [EnableSource];
        if dev.enableResult != Success {
          outcome := Err(EnableFailed(dev.enableResult));
        } else {
          ticks, c := AwaitTransfer(dev.schedule, outputPath);
          if c.scanException.Some? {
            outcome := Err(c.scanException.value);
          } else if !c.dataReceived {
            outcome := Err(TimedOut);
          } else {
            outcome := Ok(c.result);
          }
        }
      }
    }
    calls := calls + [Unsubscribe(DataHandler), Unsubscribe(ErrorHandler), Unsubscribe(DisabledHandler)];
    if found && sourceOpened {
      calls := calls + [CloseSource];
    }
    t := Transaction(outcome, calls, ticks, c);
  }

  // ---------------------------------------------------------------------------
  // What the wait guarantees

  /**
   * The facts the handlers keep about the captured state: every lock is
   * matched by an unlock; once data arrived, the result names a saved image
   * in the output directory; data without an exception means success; an
   * exception is reported in the result's message.
   */
  ghost predicate Consistent(c: Captured, outputPath: string)
  {
    && c.locks == c.unlocks
    && (c.dataReceived ==>
          && c.result.fileName.Some? && (exists t: Clock :: c.result.fileName.value == ScanFileName(t))
          && c.result.imagePath == Some(Paths.Combine(outputPath, c.result.fileName.value)))
    && (c.dataReceived && c.scanException.None? ==> c.result.success)
    && (c.scanException.Some? ==> c.result.errorMessage == Some(Message(c.scanException.value)))
  }

  /** The flags the handlers set are never cleared again. */
  predicate Grows(c: Captured, d: Captured)
  {
    && (c.dataReceived ==> d.dataReceived)
    && (c.scanComplete ==> d.scanComplete)
    && (c.scanException.Some? ==> d.scanException.Some?)
  }

  lemma {:induction false} DeliverGrows(c: Captured, notes: seq<Notification>, outputPath: string)
    ensures Grows(c, Deliver(c, notes, outputPath))
    decreases |notes|
  {
    if notes != [] {
      DeliverGrows(Handle(c, notes[0], outputPath), notes[1..], outputPath);
    }
  }

  lemma {:induction false} SettleGrows(schedule: seq<seq<Notification>>, start: nat, k: nat, c: Captured, outputPath: string)
    requires start <= k <= start + SettleTicks
    ensures Grows(c, Settle(schedule, start, k, c, outputPath).1)
    decreases start + SettleTicks - k
  {
    if !(k - start >= SettleTicks || c.scanComplete) {
      DeliverGrows(c, At(schedule, k), outputPath);
      SettleGrows(schedule, start, k + 1, Deliver(c, At(schedule, k), outputPath), outputPath);
    }
  }

  lemma HandleKeeps(c: Captured, n: Notification, outputPath: string)
    requires Consistent(c, outputPath)
    ensures Consistent(Handle(c, n, outputPath), outputPath)
    ensures Grows(c, Handle(c, n, outputPath))
  {
    if n.DataTransferred? && n.nativeData != 0 && Dib.Plan(n.dib).Ok? && n.saveError.None? {
      assert Handle(c, n, outputPath).result.fileName.value == ScanFileName(n.now);
    }
  }

  lemma {:induction false} DeliverKeeps(c: Captured, notes: seq<Notification>, outputPath: string)
    requires Consistent(c, outputPath)
    ensures Consistent(Deliver(c, notes, outputPath), outputPath)
    ensures Grows(c, Deliver(c, notes, outputPath))
    decreases |notes|
  {
    if notes != [] {
      HandleKeeps(c, notes[0], outputPath);
      DeliverKeeps(Handle(c, notes[0], outputPath), notes[1..], outputPath);
    }
  }

  lemma {:induction false} SettleKeeps(schedule: seq<seq<Notification>>, start: nat, k: nat, c: Captured, outputPath: string)
    requires start <= k <= start + SettleTicks
    requires Consistent(c, outputPath)
    ensures Consistent(Settle(schedule, start, k, c, outputPath).1, outputPath)
    ensures Grows(c, Settle(schedule, start, k, c, outputPath).1)
    decreases start + SettleTicks - k
  {
    if !(k - start >= SettleTicks || c.scanComplete) {
      DeliverKeeps(c, At(schedule, k), outputPath);
      SettleKeeps(schedule, start, k + 1, Deliver(c, At(schedule, k), outputPath), outputPath);
    }
  }

  /** The wait keeps the handlers' facts, and the flags they set stay set. */
  lemma {:induction false} WaitKeeps(schedule: seq<seq<Notification>>, k: nat, c: Captured, outputPath: string)
    requires Consistent(c, outputPath)
    ensures Consistent(Wait(schedule, k, c, outputPath).1, outputPath)
    ensures Grows(c, Wait(schedule, k, c, outputPath).1)
    decreases if c.scanComplete || k > WaitBudgetTicks then 0 else WaitBudgetTicks + 1 - k
  {
    if !(c.scanComplete || k >= WaitBudgetTicks) {
      var c1 := Deliver(c, At(schedule, k), outputPath);
      DeliverKeeps(c, At(schedule, k), outputPath);
      if c1.dataReceived && !c1.scanComplete {
        var settled := Settle(schedule, k + 1, k + 1, c1, outputPath);
        SettleKeeps(schedule, k + 1, k + 1, c1, outputPath);
        assert Wait(schedule, k, c, outputPath).1 == settled.1.(scanComplete := true);
      } else {
        WaitKeeps(schedule, k + 1, c1, outputPath);
        assert Wait(schedule, k, c, outputPath) == Wait(schedule, k + 1, c1, outputPath);
      }
    }
  }

  /**
   * The wait ends with the transfer over or with the 60 s budget spent, and
   * never later than the budget plus one settling period.
   */
  lemma {:induction false} WaitBounds(schedule: seq<seq<Notification>>, k: nat, c: Captured, outputPath: string)
    requires k <= WaitBudgetTicks
    ensures k <= Wait(schedule, k, c, outputPath).0 <= WaitBudgetTicks + SettleTicks
    ensures Wait(schedule, k, c, outputPath).1.scanComplete || Wait(schedule, k, c, outputPath).0 == WaitBudgetTicks
    ensures c.scanComplete ==> Wait(schedule, k, c, outputPath) == (k, c)
    decreases WaitBudgetTicks - k
  {
    if !(c.scanComplete || k >= WaitBudgetTicks) {
      var c1 := Deliver(c, At(schedule, k), outputPath);
      if c1.dataReceived && !c1.scanComplete {
        SettleBounds(schedule, k + 1, k + 1, c1, outputPath);
      } else {
        WaitBounds(schedule, k + 1, c1, outputPath);
      }
    }
  }

  lemma {:induction false} SettleBounds(schedule: seq<seq<Notification>>, start: nat, k: nat, c: Captured, outputPath: string)
    requires start <= k <= start + SettleTicks
    ensures k <= Settle(schedule, start, k, c, outputPath).0 <= start + SettleTicks
    decreases start + SettleTicks - k
  {
    if !(k - start >= SettleTicks || c.scanComplete) {
      SettleBounds(schedule, start, k + 1, Deliver(c, At(schedule, k), outputPath), outputPath);
    }
  }

  /** A notification that ends the outer wait by itself. */
  predicate Stops(n: Notification)
  {
    n.TransferError? || n.SourceDisabled?
  }

  /** No transfer error and no disable is delivered in ticks `lo` up to `hi`. */
  predicate Quiet(schedule: seq<seq<Notification>>, lo: nat, hi: nat)
  {
    forall j :: lo <= j < hi ==> forall n :: n in At(schedule, j) ==> !Stops(n)
  }

  lemma {:induction false} QuietDeliveryKeepsWaiting(c: Captured, notes: seq<Notification>, outputPath: string)
    requires forall n :: n in notes ==> !Stops(n)
    ensures Deliver(c, notes, outputPath).scanComplete == c.scanComplete
    decreases |notes|
  {
    if notes != [] {
      assert notes[0] in notes;
      assert forall n :: n in notes[1..] ==> n in notes;
      var d := Handle(c, notes[0], outputPath);
      assert d.scanComplete == c.scanComplete;
      QuietDeliveryKeepsWaiting(d, notes[1..], outputPath);
    }
  }

  /**
   * Without a transfer error or a disable, a wait in which no image was
   * received runs the whole 60 s budget and ends without the transfer over.
   */
  lemma {:induction false} QuietWaitRunsOut(schedule: seq<seq<Notification>>, k: nat, c: Captured, outputPath: string)
    requires k <= WaitBudgetTicks && !c.scanComplete
    requires Quiet(schedule, k, WaitBudgetTicks)
    ensures var w := Wait(schedule, k, c, outputPath);
      !w.1.dataReceived ==> w.0 == WaitBudgetTicks && !w.1.scanComplete
    decreases WaitBudgetTicks - k
  {
    if k < WaitBudgetTicks {
      var c1 := Deliver(c, At(schedule, k), outputPath);
      QuietDeliveryKeepsWaiting(c, At(schedule, k), outputPath);
      if c1.dataReceived {
        WaitAfterData(schedule, k, c, outputPath);
      } else {
        QuietWaitRunsOut(schedule, k + 1, c1, outputPath);
        assert Wait(schedule, k, c, outputPath) == Wait(schedule, k + 1, c1, outputPath);
      }
    }
  }

  /** A pump that delivers an image moves on to the settling wait, which keeps it. */
  lemma WaitAfterData(schedule: seq<seq<Notification>>, k: nat, c: Captured, outputPath: string)
    requires k < WaitBudgetTicks && !c.scanComplete
    requires Deliver(c, At(schedule, k), outputPath).dataReceived
    ensures Wait(schedule, k, c, outputPath).1.dataReceived
  {
    var c1 := Deliver(c, At(schedule, k), outputPath);
    if c1.scanComplete {
      assert Wait(schedule, k + 1, c1, outputPath) == (k + 1, c1);
    } else {
      SettleGrows(schedule, k + 1, k + 1, c1, outputPath);
      assert Wait(schedule, k, c, outputPath).1 == Settle(schedule, k + 1, k + 1, c1, outputPath).1.(scanComplete := true);
    }
  }

  /** Without a transfer error or a disable, the settling wait runs its full 2 s. */
  lemma {:induction false} QuietSettleRunsOut(schedule: seq<seq<Notification>>, start: nat, k: nat, c: Captured, outputPath: string)
    requires start <= k <= start + SettleTicks && !c.scanComplete
    requires Quiet(schedule, k, start + SettleTicks)
    ensures Settle(schedule, start, k, c, outputPath).0 == start + SettleTicks
    ensures !Settle(schedule, start, k, c, outputPath).1.scanComplete
    decreases start + SettleTicks - k
  {
    if k - start < SettleTicks {
      QuietDeliveryKeepsWaiting(c, At(schedule, k), outputPath);
      QuietSettleRunsOut(schedule, start, k + 1, Deliver(c, At(schedule, k), outputPath), outputPath);
    }
  }

  // ---------------------------------------------------------------------------
  // What the transaction guarantees

  /**
   * A scan that succeeds reports success, names a saved image of the
   * time-stamped form inside the output directory, has balanced every lock,
   * and has closed the source it opened.
   */
  lemma ScanSuccessIsConsistent(dev: Device, scannerId: string, outputPath: string)
    ensures var t := ScanSpec(dev, scannerId, outputPath);
      t.outcome.Ok? ==>
        && t.outcome.value.success
        && t.outcome.value.fileName.Some? && IsScanFileName(t.outcome.value.fileName.value)
        && (exists stamp: Clock :: t.outcome.value.fileName.value == ScanFileName(stamp))
        && t.outcome.value.imagePath == Some(Paths.Combine(outputPath, t.outcome.value.fileName.value))
        && t.final.locks == t.final.unlocks
        && CloseSource in t.calls
  {
    WaitKeeps(dev.schedule, 0, Fresh, outputPath);
    var t := ScanSpec(dev, scannerId, outputPath);
    if t.outcome.Ok? {
      var stamp: Clock :| t.outcome.value.fileName.value == ScanFileName(stamp);
      ParseScanFileNameRoundTrip(stamp);
    }
  }

  /**
   * Once the source is enabled, the wait ends with the transfer over or after
   * exactly the 60 s budget, never later than the budget plus 2 s; a scan
   * that received no image fails.
   */
  lemma ScanWaitIsBounded(dev: Device, scannerId: string, outputPath: string)
    ensures var t := ScanSpec(dev, scannerId, outputPath);
      && t.ticks <= WaitBudgetTicks + SettleTicks
      && (EnableSource in t.calls && dev.enableResult == Success ==>
            t.final.scanComplete || t.ticks == WaitBudgetTicks)
      && (!t.final.dataReceived ==> t.outcome.Err?)
  {
    WaitBounds(dev.schedule, 0, Fresh, outputPath);
  }

  /**
   * A device that never reports a transfer error or a disable and never
   * delivers a usable image leaves the scan waiting the full 60 s; it then
   * fails with the time-out (or with the failure a bad transfer recorded).
   */
  lemma QuietDeviceTimesOut(dev: Device, scannerId: string, outputPath: string)
    requires dev.sources.Ok? && FindSource(dev.sources.value, scannerId).Some?
    requires dev.openResult == Success && dev.enableResult == Success
    requires Quiet(dev.schedule, 0, WaitBudgetTicks)
    ensures var t := ScanSpec(dev, scannerId, outputPath);
      !t.final.dataReceived ==>
        && t.ticks == WaitBudgetTicks
        && (t.final.scanException.None? ==> t.outcome == Err(TimedOut))
  {
    QuietWaitRunsOut(dev.schedule, 0, Fresh, outputPath);
  }

  /** Past the end of the schedule nothing is delivered: the settling wait just runs out. */
  lemma {:induction false} IdleSettle(schedule: seq<seq<Notification>>, start: nat, k: nat, c: Captured, outputPath: string)
    requires start <= k <= start + SettleTicks && !c.scanComplete && k >= |schedule|
    ensures Settle(schedule, start, k, c, outputPath) == (start + SettleTicks, c)
    decreases start + SettleTicks - k
  {
    if k - start < SettleTicks {
      assert Deliver(c, At(schedule, k), outputPath) == c;
      IdleSettle(schedule, start, k + 1, c, outputPath);
    }
  }

  /**
   * A single good transfer at the first tick, with no disable following it,
   * succeeds once the 2 s settling wait has run out: 41 ticks in all.
   */
  lemma SingleTransferSettles(dev: Device, scannerId: string, outputPath: string, handle: nat, dib: seq<Dib.byte>, now: Clock)
    requires dev.sources.Ok? && FindSource(dev.sources.value, scannerId).Some?
    requires dev.openResult == Success && dev.enableResult == Success
    requires handle != 0 && Dib.Plan(dib).Ok?
    requires dev.schedule == [[DataTransferred(handle, dib, now, None)]]
    ensures var t := ScanSpec(dev, scannerId, outputPath);
      && t.ticks == 1 + SettleTicks
      && t.outcome.Ok?
      && t.outcome.value.fileName == Some(ScanFileName(now))
      && t.outcome.value.imagePath == Some(Paths.Combine(outputPath, ScanFileName(now)))
  {
    var s := dev.schedule;
    var n := DataTransferred(handle, dib, now, None);
    var c1 := OnDataTransferred(Fresh, n, outputPath);
    assert Deliver(Fresh, At(s, 0), outputPath) == c1 by {
      assert At(s, 0) == [n];
      assert Deliver(c1, [], outputPath) == c1;
    }
    IdleSettle(s, 1, 1, c1, outputPath);
    assert Wait(s, 0, Fresh, outputPath) == (1 + SettleTicks, c1.(scanComplete := true));
  }

  /**
   * The teardown runs on every path: the three handlers are detached, and
   * then the source is closed exactly when it was opened; handlers are
   * attached only to a source that was found.
   */
  lemma ScanTearsDown(dev: Device, scannerId: string)
    ensures var calls := Calls(dev, scannerId);
      var wasOpened := OpenSource in calls && dev.openResult == Success;
      && calls[0] == ListSources
      && calls[|calls| - (if wasOpened then 4 else 3)..]
         == [Unsubscribe(DataHandler), Unsubscribe(ErrorHandler), Unsubscribe(DisabledHandler)]
            + (if wasOpened then [CloseSource] else [])
      && (CloseSource in calls <==> wasOpened)
      && (Subscribe(DataHandler) in calls <==>
            dev.sources.Ok? && FindSource(dev.sources.value, scannerId).Some?)
  {
    var found := dev.sources.Ok? && FindSource(dev.sources.value, scannerId).Some?;
    var front := if !found then [ListSources]
                 else if dev.openResult != Success then [ListSources] + Subscriptions + [OpenSource]
                 else [ListSources] + Subscriptions + [OpenSource, EnableSource];
    assert Calls(dev, scannerId) == front + Teardown(found && dev.openResult == Success);
    assert CloseSource !in front && Subscribe(DataHandler) !in Teardown(true);
  }

  /** An unknown scanner id fails before anything is attached or opened, with the source's message. */
  lemma UnknownScannerFails(dev: Device, scannerId: string, outputPath: string)
    requires dev.sources.Ok? && FindSource(dev.sources.value, scannerId).None?
    ensures var t := ScanSpec(dev, scannerId, outputPath);
      && t.outcome == Err(SourceNotFound(scannerId))
      && Message(t.outcome.error) == "Scanner '" + scannerId + "' not found"
      && OpenSource !in t.calls && CloseSource !in t.calls && t.ticks == 0
  {
  }

  /**
   * A found source that refuses to open, or opens but refuses to be enabled,
   * fails at once with the return code in the message; it is closed again
   * exactly when it was opened.
   */
  lemma OpenOrEnableRefusedFails(dev: Device, scannerId: string, outputPath: string)
    requires dev.sources.Ok? && FindSource(dev.sources.value, scannerId).Some?
    ensures var t := ScanSpec(dev, scannerId, outputPath);
      dev.openResult != Success ==>
        && t.outcome == Err(OpenFailed(dev.openResult))
        && Message(t.outcome.error) == "Failed to open scanner: " + Name(dev.openResult)
        && EnableSource !in t.calls && CloseSource !in t.calls && t.ticks == 0
    ensures var t := ScanSpec(dev, scannerId, outputPath);
      dev.openResult == Success && dev.enableResult != Success ==>
        && t.outcome == Err(EnableFailed(dev.enableResult))
        && Message(t.outcome.error) == "Failed to enable scanner: " + Name(dev.enableResult)
        && EnableSource in t.calls && CloseSource in t.calls && t.ticks == 0
  {
    ScanTearsDown(dev, scannerId);
    var front := [ListSources] + Subscriptions + [OpenSource];
    if dev.openResult != Success {
      assert Calls(dev, scannerId) == front + Teardown(false);
      assert EnableSource !in front + Teardown(false);
    } else {
      assert Calls(dev, scannerId)[|front|] == EnableSource;
    }
  }

  // ---------------------------------------------------------------------------
  // The service entry points

  /** The outcome of a transaction as callers see it: the result, or the text of the exception. */
  function Reported(t: Transaction): (r: Result<ScanResult, string>)
    ensures r.Ok? <==> t.outcome.Ok?
    ensures t.outcome.Ok? ==> r.value == t.outcome.value
    ensures t.outcome.Err? ==> r.error == Message(t.outcome.error)
  {
    match t.outcome
    case Ok(result) => Ok(result)
    case Err(f) => Err(Message(f))
  }

  /** The 5 s the initialisation waits for the message-loop thread, in 100 ms polls. */
  const InitPolls := 5000 / 100

  const InitFailedMessage := "Failed to initialize scanner service"

  /** Blocking on a marshalled task rethrows its exception wrapped, with this message. */
  const AggregateMessage := "One or more errors occurred."

  /**
   * The process-wide scanner service. `isInitialized` is the flag the
   * message-loop thread sets once its TWAIN session is open;
   * `threadsStarted` counts the message-loop threads started.
   */
  class Service {
    var isInitialized: bool
    var threadsStarted: nat

    constructor ()
      ensures !isInitialized && threadsStarted == 0
    {
      isInitialized := false;
      threadsStarted := 0;
    }

    /**
     * Starts the message-loop thread unless the service is up, then polls the
     * flag every 100 ms for 5 s. `readyAfter` is the number of polls after
     * which the thread has opened its session (`None`: it never does).
     */
    method Initialize(readyAfter: Option<nat>) returns (r: Result<(), string>)
      modifies this
      ensures old(isInitialized) ==> isInitialized && threadsStarted == old(threadsStarted)
      ensures !old(isInitialized) ==>
        && threadsStarted == old(threadsStarted) + 1
        && isInitialized == (readyAfter.Some? && readyAfter.value <= InitPolls)
      ensures r == (if isInitialized then Ok(()) else Err(InitFailedMessage))
    {
      if isInitialized {
        return Ok(());
      }
      threadsStarted := threadsStarted + 1;
      var polls := 0;
      isInitialized := readyAfter == Some(0);
      while !isInitialized && polls < InitPolls
        invariant 0 <= polls <= InitPolls
        invariant threadsStarted == old(threadsStarted) + 1
        invariant isInitialized == (readyAfter.Some? && readyAfter.value <= polls)
      {
        polls := polls + 1;
        isInitialized := readyAfter.Some? && readyAfter.value <= polls;
      }
      if !isInitialized {
        return Err(InitFailedMessage);
      }
      r := Ok(());
    }

    /** Initialises, then lists the sources the session enumerates. */
    method GetScanners(readyAfter: Option<nat>, sources: Result<seq<DataSource>, string>)
      returns (r: Result<seq<ScannerInfo>, string>)
      modifies this
      ensures old(isInitialized) ==> isInitialized && threadsStarted == old(threadsStarted)
      ensures !old(isInitialized) ==>
        && threadsStarted == old(threadsStarted) + 1
        && isInitialized == (readyAfter.Some? && readyAfter.value <= InitPolls)
      ensures !isInitialized ==> r == Err(InitFailedMessage)
      ensures isInitialized && sources.Err? ==> r == Err(AggregateMessage)
      ensures r.Ok? <==> isInitialized && sources.Ok?
      ensures r.Ok? ==> r.value == seq(|sources.value|, i requires 0 <= i < |sources.value| => Describe(sources.value[i]))
    {
      var ready := Initialize(readyAfter);
      if ready.Err? {
        return Err(ready.error);
      }
      if sources.Err? {
        return Err(AggregateMessage);
      }
      var scanners := ListScanners(sources.value);
      r := Ok(scanners);
    }

    /** Initialises, then runs one scan transaction. */
    method ScanAsync(readyAfter: Option<nat>, dev: Device, scannerId: string, outputPath: string)
      returns (r: Result<ScanResult, string>)
      modifies this
      ensures old(isInitialized) ==> isInitialized && threadsStarted == old(threadsStarted)
      ensures !old(isInitialized) ==>
        && threadsStarted == old(threadsStarted) + 1
        && isInitialized == (readyAfter.Some? && readyAfter.value <= InitPolls)
      ensures !isInitialized ==> r == Err(InitFailedMessage)
      ensures isInitialized ==> r == Reported(ScanSpec(dev, scannerId, outputPath))
    {
      var ready := Initialize(readyAfter);
      if ready.Err? {
        return Err(ready.error);
      }
      var t := PerformScan(dev, scannerId, outputPath);
      r := Reported(t);
    }
  }
}

